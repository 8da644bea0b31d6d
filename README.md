# DifyTTS plugin core, in Dafny

DifyTTS is a chat-bot plugin. It forwards WeChat messages to a Dify chat
application and reads the answer back as speech. This project models the
plugin's message handling in `main.py`, and proves properties of that model:

- **The routing gate of `handle_text`.** The content is stripped and split
  at spaces. The message is then ignored (group chatter that does not start
  with a command), answered with the command tip (a bare command), left to
  another plugin (that plugin's command), or forwarded.
- **The other handlers.** `handle_at` and the four media handlers are
  simpler variants of `handle_text`.
- **Duplicate suppression.** `processed_message_ids` records a message id
  when a handler reaches its end. An already recorded id makes every handler
  do nothing.
- **The points gate `_check_point`.** Admins and whitelisted users pass
  free when the configuration says so. Everyone else pays `price` points, or
  is refused with a notice.
- **The `dify` call.**
  - Each line of a streamed 200 response is normalised and decoded.
  - The events are folded into the accumulated answer, and into the image,
    audio and error notices they trigger.
  - A line whose payload fails to decode ends the loop, as the error log
    reads the rest of the body.
  - The conversation id of the chat is replaced by the last event's id when
    that id is new.
  - A 404 clears the stored id and posts again. 400, 500 and any other
    status produce an error notice.

## How the model is organised

Module names follow the parts of the handler:

- `Types`: messages, configuration, notices and handler outcomes.
- `Text`: Python's `str.strip()` with the full `isspace` set, and
  `str.split`, `str.join` and `str.startswith`.
- `Routing`: the `if`/`elif` chain of `handle_text`.
- `Points`: `_check_point` as a function from the points ledger to the
  verdict and the new ledger.
- `Stream`: how the lines of a 200 response are read. This module has the
  fold as functions (`Fold`), a reference description of the same fold by
  the events the loop reads (`Events`, `MessageText`, `SideNotices`), and
  the loop itself as the method `ReadStream`. `ReadStream` is proved equal
  to the fold. Beside them is `IntendedFold`, the loop as its authors
  evidently meant it (see "Findings").
- `Dify`: one whole `dify` call (`DifyRun`). Its input is the sequence of
  responses the server gives to successive posts: any number of 404s,
  then a final response.
- `Handlers`: each handler's effect on a `Store`, as a function of the
  store before the call. The store holds the points ledger, the stored
  conversation ids, the processed ids and the notices sent so far.
- `Plugin`: the class `DifyTTS`. Its fields are the same state. Its
  methods are imperative versions of the handlers, each proved to change
  the state exactly as the functions of `Handlers` say.

Some things the plugin does are parameters of the model:

- JSON decoding is a `Decoder`, a function from a line to an optional
  event.
- The upload done by the media handlers before `dify` is the id it
  returned.
- The HTTP responses are a sequence of `Response` values.

Sending through the bot is modelled as appending a `Notice` (room and body)
to the sequence of notices sent.

Python behaviour that the model renders as written:

- **`message_replace`.** On this event the source calls `resp_json` as a
  function, which raises. The model treats the event as the end of the
  stream with an exception: `dify` sends only the notices already sent, and
  the handler stops before recording the message id (outcome `Aborted`).
- **A payload that fails to decode.** The `except` branch logs the line,
  and its debug log evaluates `await resp.text()`. That reads the rest of
  the body, so the `async for` then finds the body exhausted and ends. The
  `continue` never reaches another line. In the model such a line sets the
  state's `drained` flag, and every later line is ignored. `Events` lists
  only the events read before it.
- **An unbound `resp_json`.** When the loop read no event before it ended,
  reading `resp_json` after the loop raises. This happens when no line
  decodes, or when the first payload that does not decode comes before any
  that does. It is modelled the same way as `message_replace`.
- **The retry after a 404.** It drops the attachments, since the recursive
  call passes no `files`. The stored id is then "", so the retry posts with
  conversation id "".
- **The `not command` test.** It is dead code: Python's `split(" ")` never
  returns an empty list. `RouteText` keeps the test, and its contract shows
  that the test has no effect.

## Model

| member | source | states |
|---|---|---|
| Text.Strip | main.py:128 | The stripped content is the slice left after removing a run of whitespace at each end. All removed characters are whitespace, and the result starts and ends with a non-whitespace character. |
| Text.TrimLeftShape | main.py:128 | Stripping at the front removes a run of whitespace and stops at the first non-whitespace character. |
| Text.TrimRightShape | main.py:128 | Stripping at the back removes a run of whitespace and stops at the last non-whitespace character. |
| Text.StripPadded | main.py:128 | Stripping a whitespace-padded trimmed string gives back exactly that string. |
| Text.StripIdempotent | main.py:128 | Stripping twice is the same as stripping once. |
| Text.StripAbsorbsPadding | main.py:128 | Extra whitespace around the content does not change what `strip()` returns. |
| Text.Split | main.py:128 | `split(" ")` returns at least one piece, and no piece contains the separator. |
| Text.JoinSplit | main.py:128 | Joining the pieces of a split with the separator gives back the string. |
| Text.SplitJoin | main.py:128 | Splitting a join of separator-free pieces gives back the pieces. |
| Text.SplitHead | main.py:128 | A split has one piece exactly when the separator does not occur, and that piece is the whole string. Otherwise the first piece is the text before the first separator. |
| Routing.FirstWord | main.py:128-135 | `command[0]` contains no space. It is the whole stripped content, or its prefix up to the first space. |
| Routing.RouteText | main.py:128-136 | A text is ignored iff it is from a group and its first word is not a command. It gets the tip iff the stripped content is a single piece that is a command. It is left to another plugin iff neither of those holds and its first word is another plugin's command. |
| Routing.PrivateTextNotIgnored | main.py:130-131 | A private text is never ignored. |
| Routing.ForwardIff | main.py:130-136 | A text goes on to the key checks iff three things hold: it is private or starts with a command; it is not a bare command; and its first word is not another plugin's command. |
| Routing.RouteIgnoresPadding | main.py:128-136 | Whitespace around a text does not change its route. |
| Points.Charge | main.py:506 | `add_points(wxid, -price)` lowers that user's balance by exactly the amount, and leaves every other balance unchanged. |
| Points.PointGate | main.py:491-507 | The gate passes iff the sender is exempt (an admin with `admin_ignore`, or whitelisted with `whitelist_ignore`) or has at least `price` points. The ledger is unchanged on refusal or exemption. Otherwise only the sender is charged, exactly `price`. |
| Points.ChargeNeverOverdraws | main.py:499-507 | The gate never charges a balance below zero. |
| Points.GateTakesExactlyPrice | main.py:491-507 | Over any list of users, the ledger total drops by `price` per listing of the sender when the gate charges, and is unchanged otherwise. |
| Stream.NormaliseLine | main.py:331-335 | A line is skipped iff it strips to "" or to `event: ping`. Otherwise the payload is what follows the `data: ` prefix of the stripped line, or the stripped line itself when that prefix is absent. `BlankLineSkipped`, `PingLineSkipped`, `DataLinePayload` and `PlainLinePayload` pin it down for each kind of line. |
| Stream.ReadLine | main.py:331-342 | A line is skipped when `NormaliseLine` skips it. Otherwise `json.loads` of its payload either fails or gives an event. `NormaliseLine`'s contract and `BadLineDropsRest`, `SkippedLineIsNoOp` and `FoldFromEvents` characterise it. |
| Stream.Apply | main.py:344-359 | One decoded event: a `message` appends its answer, `message_replace` raises, and a file, TTS or error event adds its notice. Any other kind only becomes the last event. `ApplyShape` and `FoldFromEvents` characterise it. |
| Stream.Step | main.py:330-359 | Once the loop has ended, a line changes nothing. Otherwise a line ends it by draining iff its payload fails to decode, and by raising iff it decodes to `message_replace`. The last event changes only to the event the line decodes to. |
| Stream.Fold | main.py:328-359 | The loop over all lines of a 200 response. `StreamAnswer` characterises it by the events read, and `StopAbsorbs`, `SkippedLineIsNoOp` and `BadLineDropsRest` by what single lines do. |
| Stream.ReadStream | main.py:328-359 | The line loop equals the fold. It ends with an exception iff some event it reads is `message_replace`. Otherwise four things hold: the answer is the in-order concatenation of the `message` answers read; the last event is the last one read; the notices are those of the file, TTS and error events read, in order; and the body was drained iff some payload failed to decode. |
| Stream.StreamAnswer | main.py:328-359 | The fold raises iff an event it reads is `message_replace`. Events are read up to the first payload that fails to decode. When it raises, the notices sent are those of the events before the first `message_replace`. Otherwise the fold's answer, last event and notices are the `message` answers joined, the last event read, and the notices of the file, TTS and error events in order. It has drained iff some payload failed to decode. |
| Stream.FoldFromEvents | main.py:330-359 | The same correspondence between the fold and the events read holds from any running state in which the loop has not ended, including the notices sent before a raise. |
| Stream.StopAbsorbs | main.py:341-348 | Once the loop has ended, by `message_replace` raising or by the body being drained, later lines change nothing. |
| Stream.SkippedLineIsNoOp | main.py:331-333 | A blank or `event: ping` line can be removed from the stream without changing the outcome. |
| Stream.BadLineDropsRest | main.py:337-342 | A line whose payload fails to decode ends the loop: whatever follows it never changes the outcome. |
| Stream.IntendedSkipsBadLine | main.py:337-342 | In the loop as intended, a line whose payload fails to decode can be removed without changing the outcome, so the lines after it are still read. |
| Stream.BadFirstLineLosesAnswer | main.py:330-348 | For the stream `oops`, `data: X`, where only `X` decodes (to a `message` event), the loop as written ends drained with no event read and an empty answer. The intended loop reads `X` and its answer. |
| Stream.MessageTextAppend | main.py:345-346 | The accumulated answer of two stretches of events is the answer of the first followed by the answer of the second. |
| Stream.BlankLineSkipped | main.py:331-333 | A line of whitespace only is skipped. |
| Stream.PingLineSkipped | main.py:331-333 | `event: ping` with any surrounding whitespace is skipped. |
| Stream.DataLinePayload | main.py:331-335 | A `data: ` line, with any surrounding whitespace, is decoded from exactly its payload. |
| Stream.PlainLinePayload | main.py:331-338 | A trimmed line that is not blank, not a ping and has no `data: ` prefix is decoded as it stands. |
| Dify.RetriesDropIdAndFiles | main.py:307-367 | One request is posted per response. The first carries the stored conversation id and the attachments. Each retry after a 404 carries an empty id and no attachments. |
| Dify.Finish | main.py:328-376 | The final response: a 200 stream is read and ended by `StreamEnd`; 400, 500 and any other status each give one error notice. `FinishSave`, `AnswerIsLastNotice`, `CrashIff` and `ErrorStatusNotice` characterise it. |
| Dify.StreamEnd | main.py:361-363 | After the loop: raise if it raised or read no event; otherwise save the last event's id when it is new, and add the answer when it is not empty. `StreamEndSave` and `AnswerIsLastNotice` characterise it. |
| Dify.FinishSave | main.py:328-363 | The final response saves an id iff it is a 200 stream whose loop read at least one event and no `message_replace`, and the last event's id is not empty and differs from the id posted. The id saved is that one. |
| Dify.DifyRun | main.py:307-379 | One whole call: posts, 404 retries, then the final response. `RetriesDropIdAndFiles`, `ConversationIdUpdate`, `AnswerIsLastNotice` and `CrashIff` characterise it. |
| Dify.ConversationIdUpdate | main.py:361-367 | The chat's stored id becomes the last event's id iff the final response is a 200 stream whose loop read at least one event and no `message_replace`, and the last event's id is not empty and differs from the id posted. Otherwise the id is the one posted: the stored one, or "" after a 404. No other chat's id changes. |
| Dify.AnswerIsLastNotice | main.py:344-379 | A 200 stream whose loop reads at least one event and no `message_replace` sends exactly the notices of the file, TTS and error events read, in order. Then it sends the answer, the concatenation of the `message` answers read, when that answer is not empty. A non-empty answer is therefore the last notice, and an empty one sends no reply. |
| Dify.CrashIff | main.py:330-363 | A `dify` call raises iff its final response is a 200 stream whose loop reads a `message_replace` event or no event at all. A raise on `message_replace` has sent exactly the notices of the events before it; a stream that read no event has sent nothing. |
| Dify.ErrorStatusNotice | main.py:365-376 | A final status of 400, 500 or anything else but 200 sends exactly one notice: bad request, server error, or the other status. The call does not raise and saves no id. The stored id is the one posted with, "" after a 404. |
| Dify.BadFirstLineRaises | main.py:337-363 | A 200 stream `oops`, `data: X`, where only `X` decodes, makes the call raise with nothing sent and no id saved. |
| Handlers.Entry | main.py:120-126 | The checks every handler starts with: a disabled plugin or an already processed id ends the handler with nothing changed. `DisabledIsNoOp` and `DuplicateIsNoOp` characterise it. |
| Handlers.KeyCheck | main.py:138-144 | A missing Dify key, then (for text and @-messages) a missing TTS key, sends one notice and ends the handler without a record. The media handlers check only the Dify key (main.py:188-190). `MissingKeyNotice` characterises it, as do `AtRecordsAndChargesAtEnd`, `MediaRecordsAndChargesAtEnd` and `TextRecordsOnlyAtEnd`. |
| Handlers.Settle | main.py:146-149 | The points gate, then `dify`, then the record of the id. `SettleEffect` characterises it. |
| Handlers.OnText | main.py:118-150 | `handle_text` on the store. `DuplicateIsNoOp`, `GroupChatterIgnored`, `BareCommandGetsTip`, `OtherPluginCommandLeftAlone`, `TextRecordsOnlyAtEnd` and `TextChargesOnlyWhenAsking` characterise it. |
| Handlers.OnAt | main.py:152-173 | `handle_at` on the store: `handle_text` without the routing. `DuplicateIsNoOp` and `AtRecordsAndChargesAtEnd` characterise it. |
| Handlers.OnMedia | main.py:176-304 | The four media handlers on the store. `DuplicateIsNoOp`, `GroupMediaIsNoOp`, `MediaReachesGate` and `MediaRecordsAndChargesAtEnd` characterise them. |
| Handlers.SettleEffect | main.py:146-149 | After the key checks, the points gate decides. A refusal sends one notice, posts nothing and records the id. Otherwise Dify is asked with the requests `DifyRun` posts, and the id is recorded unless the call raised. |
| Handlers.DuplicateIsNoOp | main.py:123-126 | An already processed message changes nothing in any handler. |
| Handlers.DisabledIsNoOp | main.py:120-121 | With the plugin disabled, every handler ends with the store unchanged and nothing posted. |
| Handlers.MissingKeyNotice | main.py:138-144 | For a new message to an enabled plugin, `handle_at` without a Dify key sends exactly the missing-key notice and changes nothing else. With a Dify key but no TTS key it sends exactly the missing-TTS-key notice. A forwarded text behaves as `handle_at`. A private media message without a Dify key sends exactly the missing-key notice (main.py:161-167, 188-190). |
| Handlers.GroupChatterIgnored | main.py:130-131 | A group text whose first word is not a command changes nothing, and is not recorded. |
| Handlers.BareCommandGetsTip | main.py:132-134 | A bare command gets the command tip and nothing else: no charge, no request, no record. |
| Handlers.OtherPluginCommandLeftAlone | main.py:135-136 | Another plugin's command changes nothing. |
| Handlers.TextRecordsOnlyAtEnd | main.py:123-149 | In `handle_text`, the processed ids gain the message id when the points gate refused, or when Dify was asked and did not raise. Otherwise they are unchanged. |
| Handlers.TextChargesOnlyWhenAsking | main.py:146-147 | In `handle_text`, points change only when Dify is asked. Then the sender pays exactly `price` unless exempt, an exempt sender pays nothing, and nobody else pays. |
| Handlers.GroupMediaIsNoOp | main.py:185-186 | A media message in a group changes nothing, and is not recorded. |
| Handlers.AtRecordsAndChargesAtEnd | main.py:152-173 | In `handle_at`, the id is recorded exactly when the points gate refused, or when Dify was asked and did not raise. The early returns record nothing. Points change only when Dify is asked, and then as the points gate says. |
| Handlers.MediaRecordsAndChargesAtEnd | main.py:176-304 | In the media handlers, the id is recorded exactly when the points gate refused, or when Dify was asked and did not raise (main.py:205, 238, 270, 303). A group message, a missing key or a duplicate records nothing. Points change only when Dify is asked, and then as the points gate says. |
| Handlers.MediaReachesGate | main.py:188-205 | With a Dify key, a private media message always reaches the points gate; no TTS key is needed. Requests are posted iff the gate lets it through. The first carries the stored conversation id and the uploaded file, and a retry after a 404 carries no file. |
| Plugin.DifyTTS.constructor | main.py:84 | The plugin starts with no processed ids and an empty outbox. |
| Plugin.DifyTTS.CheckPoint | main.py:491-507 | `_check_point` updates the ledger and the outbox exactly as `PointGate` says, with one refusal notice when it refuses. |
| Plugin.DifyTTS.Dify | main.py:307-379 | The retry loop and the final response change the stored ids and the outbox exactly as `DifyRun` says, and post the same requests. |
| Plugin.DifyTTS.Conclude | main.py:328-376 | The final response does what `Finish` says to the stored id and the outbox. |
| Plugin.DifyTTS.EndStream | main.py:361-379 | After the loop, the state changes as `StreamEnd` says. |
| Plugin.DifyTTS.Settle | main.py:146-149 | The points gate, `dify` and the recording of the id change the state, and post the requests, as `Handlers.Settle` says. |
| Plugin.DifyTTS.HandleText | main.py:118-150 | `handle_text` changes the state, ends and posts as `OnText` says. |
| Plugin.DifyTTS.HandleAt | main.py:152-173 | `handle_at` changes the state, ends and posts as `OnAt` says. |
| Plugin.DifyTTS.HandleMedia | main.py:176-304 | `handle_voice`, `handle_image`, `handle_video` and `handle_file` change the state, end and post as `OnMedia` says. |

## Left out

- Network I/O (`aiohttp`, `httpx`): it is replaced by the `Response` values given as input. Headers, URLs, the proxy and the JSON payload's fixed fields are not modelled.
- The text-to-speech call `_text_to_speech` and `ServeTTSRequest`: they do I/O and the model does not need them. An answer is recorded as a single `Reply` notice.
- `dify_handle_text`: its regular expressions, the link downloads and the `filetype` sniffing are not modelled, and neither is the TTS failure notice.
- `upload_file`: the upload request is I/O. Its result is the `uploadId` parameter, which is "" when the request failed. Two steps before the `try` can raise: `filetype.guess` (main.py:385) and `bot.base64_to_byte` (main.py:226, 258). Both run after `_check_point` has charged. If either raises, the handler aborts with the points taken and the id unrecorded. The model does not have that path.
- The UTF-8 decoding of a stream line (main.py:331): invalid UTF-8 raises `UnicodeDecodeError` and ends the call like `message_replace`. Lines are already strings in the model, so this path is not modelled.
- `dify_handle_image` (main.py:438-450): when downloading an `http` image fails, nothing is sent (main.py:444-446). The model always sends `Image(url)` for a `message_file` event.
- Configuration loading (TOML, `__init__` apart from the empty `processed_message_ids`): configuration is the `Config` value given to the constructor.
- `XYBotDB`: its defaults are assumed. A user without an entry has 0 points, and a chat without a stored id has "". The whitelist is a set the plugin only reads.
- The wording of the bot's messages, and the @-mention recipients of `send_at_message`: a notice records only the room and which message it is.
- Error-event fields other than `message` (task id, message id, status, code), and the response body in the 400 and other-status notices: they appear only in the text of the notices.
- A JSON value that is not an object, and `null` field values. In the source, `.get` on a non-object raises `AttributeError` (main.py:344), and a `message` event with `"answer": null` makes `ai_resp += None` raise `TypeError` (main.py:346). Both happen after `_check_point` has charged the sender, so the handler aborts with the points taken and the id unrecorded. The model does not have these paths: its `Decoder` always yields an object whose missing fields read as "".
- `hendle_exceptions`: no handler calls it.
- Concurrency: the handlers are `async`, but they are modelled as running one after another, with no interleaving.
- Dify.DifyRun: a server that answers 404 forever (unbounded recursion in the source) is excluded by the `Retries` precondition.
- Plugin.DifyTTS.Dify: the recursive 404 retry of the source is written as a loop. That is the same as a tail call, since the outer call does nothing after the inner one returns.

## Findings

| source | as written | input that shows it | evidently intended | confidence | as-written member | corrected member |
|---|---|---|---|---|---|---|
| main.py:337-342 | In the `JSONDecodeError` branch, the debug log evaluates `await resp.text()`. That reads the rest of the response body, so the `async for` ends and the `continue` reaches no further line. One line that is not JSON loses every later event. If it comes before the first event, `resp_json` is unbound and the call raises after the points were taken. | A 200 stream `oops`, `data: X`, where `X` is a `message` event with answer `hi` | Log the bad line, skip it and read on, as for a blank line | medium, not executed | Dify.BadFirstLineRaises | Stream.IntendedSkipsBadLine |

The rest of the model (`Dify`, `Handlers`, `Plugin`) follows the code as
written. It models what the plugin does, so it uses `Fold`, not
`IntendedFold`. `Stream.BadLineDropsRest` states the as-written behaviour
for every stream. `Stream.BadFirstLineLosesAnswer` contrasts the two loops
on the example input.
