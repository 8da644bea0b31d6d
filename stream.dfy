/** The streaming part of `dify`: each line of a 200 response is normalised,
    decoded as JSON, and folded into the accumulated answer, the last decoded
    event and the notices the events trigger, until a `message_replace`
    raises or a payload that fails to decode drains the body. JSON decoding
    itself is an opaque `Decoder`. */
module Stream {
  import opened Types
  import opened Text

  /** The fields of a decoded stream event that the plugin reads; a field the
      JSON object lacks reads as "" (the `.get(key, "")` defaults). */
  datatype Event = Event(kind: string, answer: string, conversationId: string,
                         url: string, audio: string, message: string)

  /** What the `event` field of an event selects in the `if`/`elif` chain. */
  datatype Kind = MessageKind | ReplaceKind | FileKind | TtsKind | ErrorKind | UnknownKind

  function KindOf(event: string): Kind {
    if event == "message" then MessageKind
    else if event == "message_replace" then ReplaceKind
    else if event == "message_file" then FileKind
    else if event == "tts_message" then TtsKind
    else if event == "error" then ErrorKind
    else UnknownKind
  }

  /** `json.loads` followed by reading the fields: `None` on a decode error. */
  type Decoder = string -> Option<Event>

  /** Line normalisation: strip; skip empty lines and `event: ping`; drop a
      leading `data: `. `None` means the line is skipped. */
  function NormaliseLine(raw: string): (r: Option<string>)
    ensures r.None? <==> Strip(raw) == "" || Strip(raw) == "event: ping"
    ensures r.Some? ==> Strip(raw) == r.value || Strip(raw) == "data: " + r.value
    ensures r.Some? && StartsWith(Strip(raw), "data: ") ==> "data: " + r.value == Strip(raw)
    ensures r.Some? && !StartsWith(Strip(raw), "data: ") ==> r.value == Strip(raw)
  {
    var line := Strip(raw);
    if line == "" || line == "event: ping" then None
    else if StartsWith(line, "data: ") then
      assert line == line[..6] + line[6..];
      Some(line[6..])
    else Some(line)
  }

  /** What one raw line is to the loop: skipped, a payload `json.loads`
      rejects, or a decoded event. */
  datatype LineRead = Skip | BadJson | Got(e: Event)

  function ReadLine(raw: string, decode: Decoder): LineRead {
    match NormaliseLine(raw)
    case None => Skip
    case Some(payload) =>
      match decode(payload)
      case None => BadJson
      case Some(e) => Got(e)
  }

  /** The loop state of `dify`: `ai_resp`, the last decoded `resp_json`, the
      notices sent so far, whether an exception has ended the loop, and
      whether the body has been read to its end by the error log. */
  datatype StreamState = StreamState(answer: string, last: Option<Event>,
                                     notices: seq<Body>, crashed: bool, drained: bool)

  const Initial := StreamState("", None, [], false, false)

  /** The loop has ended before the last line. */
  predicate Stopped(st: StreamState) {
    st.crashed || st.drained
  }

  /** One decoded event. A `message_replace` event raises (the source calls
      `resp_json` as a function); any other kind leaves the answer alone. */
  function Apply(st: StreamState, e: Event): StreamState {
    var st := st.(last := Some(e));
    match KindOf(e.kind)
    case MessageKind => st.(answer := st.answer + e.answer)
    case ReplaceKind => st.(crashed := true)
    case FileKind => st.(notices := st.notices + [Image(e.url)])
    case TtsKind => st.(notices := st.notices + [Audio(e.audio)])
    case ErrorKind => st.(notices := st.notices + [DifyError(e.message)])
    case UnknownKind => st
  }

  /** One raw line. A payload that fails to decode is logged together with
      `await resp.text()`, which reads the rest of the body, so the loop then
      finds the body exhausted and ends. */
  function Step(st: StreamState, raw: string, decode: Decoder): (r: StreamState)
    ensures Stopped(st) ==> r == st
    ensures !Stopped(st) ==>
      && (r.drained <==> ReadLine(raw, decode) == BadJson)
      && (r.crashed <==> ReadLine(raw, decode).Got? && KindOf(ReadLine(raw, decode).e.kind) == ReplaceKind)
    ensures r.last != st.last ==> r.last.Some? && ReadLine(raw, decode) == Got(r.last.value)
  {
    if Stopped(st) then st
    else match ReadLine(raw, decode)
      case Skip => st
      case BadJson => st.(drained := true)
      case Got(e) => Apply(st, e)
  }

  /** The remaining lines, from a given state. */
  function FoldFrom(st: StreamState, lines: seq<string>, decode: Decoder): StreamState
    decreases |lines|
  {
    if lines == [] then st else FoldFrom(Step(st, lines[0], decode), lines[1..], decode)
  }

  /** The whole stream. */
  function Fold(lines: seq<string>, decode: Decoder): StreamState {
    FoldFrom(Initial, lines, decode)
  }

  // ---------------------------------------------------------------------
  // A reference description of the fold, by the events the stream carries.

  /** The events the loop reads: the decoded lines, in order, up to the first
      payload that fails to decode. */
  function Events(lines: seq<string>, decode: Decoder): seq<Event>
    decreases |lines|
  {
    if lines == [] then []
    else match ReadLine(lines[0], decode)
      case Skip => Events(lines[1..], decode)
      case BadJson => []
      case Got(e) => [e] + Events(lines[1..], decode)
  }

  /** Some line of the stream carries a payload that fails to decode. */
  predicate Drains(lines: seq<string>, decode: Decoder)
    decreases |lines|
  {
    lines != [] && (ReadLine(lines[0], decode) == BadJson || Drains(lines[1..], decode))
  }

  /** The in-order concatenation of the answers of the `message` events. */
  function MessageText(evs: seq<Event>): string {
    if evs == [] then ""
    else (if KindOf(evs[0].kind) == MessageKind then evs[0].answer else "") + MessageText(evs[1..])
  }

  /** The notice an event triggers, if any. */
  function SideNotice(e: Event): seq<Body> {
    match KindOf(e.kind)
    case FileKind => [Image(e.url)]
    case TtsKind => [Audio(e.audio)]
    case ErrorKind => [DifyError(e.message)]
    case _ => []
  }

  function SideNotices(evs: seq<Event>): seq<Body> {
    if evs == [] then [] else SideNotice(evs[0]) + SideNotices(evs[1..])
  }

  /** No event of `evs` is a `message_replace`. */
  predicate NoReplace(evs: seq<Event>) {
    evs == [] || (KindOf(evs[0].kind) != ReplaceKind && NoReplace(evs[1..]))
  }

  /** The events before the first `message_replace`: those whose side
      notices were sent when the loop raised. */
  function UpToReplace(evs: seq<Event>): seq<Event> {
    if evs == [] || KindOf(evs[0].kind) == ReplaceKind then []
    else [evs[0]] + UpToReplace(evs[1..])
  }

  function LastOr(evs: seq<Event>, otherwise: Option<Event>): Option<Event> {
    if evs == [] then otherwise else Some(evs[|evs| - 1])
  }

  // ---------------------------------------------------------------------
  // Lemmas.

  /** Once the loop has ended, by an exception or because the body has been
      read out, no further line changes anything. */
  lemma {:induction false} StopAbsorbs(st: StreamState, lines: seq<string>, decode: Decoder)
    requires Stopped(st)
    ensures FoldFrom(st, lines, decode) == st
    decreases |lines|
  {
    if lines != [] {
      StopAbsorbs(st, lines[1..], decode);
    }
  }

  lemma {:induction false} FoldFromAppend(st: StreamState, a: seq<string>, b: seq<string>,
                                          decode: Decoder)
    ensures FoldFrom(st, a + b, decode) == FoldFrom(FoldFrom(st, a, decode), b, decode)
    decreases |a|
  {
    if a == [] {
      assert a + b == b;
    } else {
      assert (a + b)[0] == a[0] && (a + b)[1..] == a[1..] + b;
      FoldFromAppend(Step(st, a[0], decode), a[1..], b, decode);
    }
  }

  /** The fold agrees with the reference description: without a
      `message_replace` event among those read, the answer is the in-order
      concatenation of the `message` answers, the last event is the last one
      read, the notices are those of the side events, and the body is read
      out exactly when some payload fails to decode; with one, the loop
      raises. */
  lemma {:induction false} FoldFromEvents(st: StreamState, lines: seq<string>, decode: Decoder)
    requires !Stopped(st)
    ensures var evs := Events(lines, decode);
      if NoReplace(evs) then FoldFrom(st, lines, decode) == Described(st, evs, Drains(lines, decode))
      else
        && FoldFrom(st, lines, decode).crashed
        && FoldFrom(st, lines, decode).notices == st.notices + SideNotices(UpToReplace(evs))
    decreases |lines|
  {
    if lines == [] {
      assert st.answer + "" == st.answer && st.notices + [] == st.notices;
    } else {
      var rest := Events(lines[1..], decode);
      var next := Step(st, lines[0], decode);
      assert FoldFrom(st, lines, decode) == FoldFrom(next, lines[1..], decode);
      match ReadLine(lines[0], decode)
      case Skip =>
        assert Events(lines, decode) == rest;
        assert next == st;
        FoldFromEvents(st, lines[1..], decode);
      case BadJson =>
        assert Events(lines, decode) == [] && Drains(lines, decode);
        StopAbsorbs(next, lines[1..], decode);
        assert st.answer + "" == st.answer && st.notices + [] == st.notices;
      case Got(e) =>
        assert Events(lines, decode) == [e] + rest;
        assert next == Apply(st, e);
        NoReplaceCons(e, rest);
        UpToReplaceCons(e, rest);
        if KindOf(e.kind) == ReplaceKind {
          StopAbsorbs(next, lines[1..], decode);
          assert st.notices + [] == st.notices;
        } else {
          FoldFromEvents(next, lines[1..], decode);
          ApplyShape(st, e);
          if NoReplace(rest) {
            DescribedCons(st, e, rest, Drains(lines[1..], decode));
          } else {
            EventCons(e, UpToReplace(rest), None);
            AppendAssoc(st.notices, SideNotice(e), SideNotices(UpToReplace(rest)));
          }
        }
    }
  }

  /** The state the reference description predicts after the events `evs`. */
  function Described(st: StreamState, evs: seq<Event>, drained: bool): StreamState {
    StreamState(st.answer + MessageText(evs), LastOr(evs, st.last),
                st.notices + SideNotices(evs), false, drained)
  }

  /** The state after one more event (other than `message_replace`). */
  function Next(st: StreamState, e: Event): StreamState {
    StreamState(st.answer + (if KindOf(e.kind) == MessageKind then e.answer else ""),
                Some(e), st.notices + SideNotice(e), st.crashed, st.drained)
  }

  lemma DescribedCons(st: StreamState, e: Event, rest: seq<Event>, drained: bool)
    requires !st.crashed
    ensures Described(Next(st, e), rest, drained) == Described(st, [e] + rest, drained)
  {
    EventCons(e, rest, st.last);
    var mt := if KindOf(e.kind) == MessageKind then e.answer else "";
    AppendAssoc(st.answer, mt, MessageText(rest));
    AppendAssoc(st.notices, SideNotice(e), SideNotices(rest));
  }

  /** One event other than `message_replace`, field by field. */
  lemma ApplyShape(st: StreamState, e: Event)
    requires KindOf(e.kind) != ReplaceKind
    ensures Apply(st, e) == Next(st, e)
  {
    assert st.answer + "" == st.answer && st.notices + [] == st.notices;
  }

  /** How the reference description reads one more event at the front. */
  lemma EventCons(e: Event, rest: seq<Event>, otherwise: Option<Event>)
    ensures MessageText([e] + rest)
      == (if KindOf(e.kind) == MessageKind then e.answer else "") + MessageText(rest)
    ensures SideNotices([e] + rest) == SideNotice(e) + SideNotices(rest)
    ensures LastOr([e] + rest, otherwise) == LastOr(rest, Some(e))
  {
    var evs := [e] + rest;
    assert evs[0] == e && evs[1..] == rest;
  }

  /** A stream is free of `message_replace` exactly when its first event and
      the rest are. */
  lemma NoReplaceCons(e: Event, rest: seq<Event>)
    ensures NoReplace([e] + rest) <==> KindOf(e.kind) != ReplaceKind && NoReplace(rest)
  {
    var evs := [e] + rest;
    assert evs[0] == e && evs[1..] == rest;
  }

  /** How `UpToReplace` reads one more event at the front. */
  lemma UpToReplaceCons(e: Event, rest: seq<Event>)
    ensures UpToReplace([e] + rest)
      == if KindOf(e.kind) == ReplaceKind then [] else [e] + UpToReplace(rest)
  {
    var evs := [e] + rest;
    assert evs[0] == e && evs[1..] == rest;
  }

  /** The outcome of the whole stream, by the events the loop reads. */
  lemma StreamAnswer(lines: seq<string>, decode: Decoder)
    ensures var evs := Events(lines, decode);
      && (Fold(lines, decode).crashed <==> !NoReplace(evs))
      && (!NoReplace(evs) ==> Fold(lines, decode).notices == SideNotices(UpToReplace(evs)))
      && (NoReplace(evs) ==>
            Fold(lines, decode).answer == MessageText(evs)
            && Fold(lines, decode).last == LastOr(evs, None)
            && Fold(lines, decode).notices == SideNotices(evs)
            && (Fold(lines, decode).drained <==> Drains(lines, decode)))
  {
    FoldFromEvents(Initial, lines, decode);
    var evs := Events(lines, decode);
    assert "" + MessageText(evs) == MessageText(evs);
    assert [] + SideNotices(evs) == SideNotices(evs);
    assert [] + SideNotices(UpToReplace(evs)) == SideNotices(UpToReplace(evs));
  }

  /** A blank or `event: ping` line may be dropped from the stream without
      changing the outcome. */
  lemma SkippedLineIsNoOp(a: seq<string>, raw: string, b: seq<string>, decode: Decoder)
    requires NormaliseLine(raw) == None
    ensures Fold(a + [raw] + b, decode) == Fold(a + b, decode)
  {
    AppendAssoc(a, [raw], b);
    FoldFromAppend(Initial, a, [raw] + b, decode);
    FoldFromAppend(Initial, a, b, decode);
    var st := FoldFrom(Initial, a, decode);
    assert ([raw] + b)[0] == raw && ([raw] + b)[1..] == b;
    assert Step(st, raw, decode) == st;
  }

  /** A payload that fails to decode ends the loop: whatever follows it is
      never read. */
  lemma BadLineDropsRest(a: seq<string>, raw: string, b: seq<string>, decode: Decoder)
    requires ReadLine(raw, decode) == BadJson
    ensures Fold(a + [raw] + b, decode) == Fold(a + [raw], decode)
    ensures Fold(a + [raw], decode).drained || Fold(a + [raw], decode).crashed
  {
    FoldFromAppend(Initial, a + [raw], b, decode);
    FoldFromAppend(Initial, a, [raw], decode);
    var st := FoldFrom(Initial, a, decode);
    assert [raw][1..] == [];
    assert FoldFrom(st, [raw], decode) == Step(st, raw, decode);
    StopAbsorbs(Step(st, raw, decode), b, decode);
  }

  /** The concatenation of `message` answers distributes over the stream. */
  lemma {:induction false} MessageTextAppend(a: seq<Event>, b: seq<Event>)
    ensures MessageText(a + b) == MessageText(a) + MessageText(b)
    decreases |a|
  {
    if a == [] {
      assert a + b == b;
    } else {
      assert (a + b)[0] == a[0] && (a + b)[1..] == a[1..] + b;
      MessageTextAppend(a[1..], b);
      var head := if KindOf(a[0].kind) == MessageKind then a[0].answer else "";
      AppendAssoc(head, MessageText(a[1..]), MessageText(b));
    }
  }

  /** A blank line is skipped. */
  lemma BlankLineSkipped(raw: string)
    requires AllSpace(raw)
    ensures NormaliseLine(raw) == None
  {
    StripPadded(raw, [], []);
    assert raw + [] + [] == raw;
  }

  /** A `event: ping` line, with any whitespace around it, is skipped. */
  lemma PingLineSkipped(pre: string, post: string)
    requires AllSpace(pre) && AllSpace(post)
    ensures NormaliseLine(pre + "event: ping" + post) == None
  {
    StripPadded(pre, "event: ping", post);
  }

  /** A server-sent `data: ` line yields exactly its payload, whatever
      whitespace surrounds it, as long as the payload does not end in
      whitespace. */
  lemma DataLinePayload(pre: string, payload: string, post: string)
    requires AllSpace(pre) && AllSpace(post)
    requires payload != [] && !IsSpace(payload[|payload| - 1])
    ensures NormaliseLine(pre + ("data: " + payload) + post) == Some(payload)
  {
    var line := "data: " + payload;
    assert line[0] == 'd' && line[|line| - 1] == payload[|payload| - 1];
    StripPadded(pre, line, post);
    assert line[..6] == "data: ";
    assert line != "event: ping" by { assert line[0] != "event: ping"[0]; }
    assert line[6..] == payload;
  }

  /** A trimmed line without the `data: ` prefix is decoded as it stands. */
  lemma PlainLinePayload(pre: string, line: string, post: string)
    requires AllSpace(pre) && AllSpace(post) && Trimmed(line)
    requires line != "" && line != "event: ping" && !StartsWith(line, "data: ")
    ensures NormaliseLine(pre + line + post) == Some(line)
  {
    StripPadded(pre, line, post);
  }

  // ---------------------------------------------------------------------
  // The loop as evidently intended: the `continue` after the error log
  // means to skip a payload that fails to decode, like a blank line, and
  // read on.

  function IntendedStep(st: StreamState, raw: string, decode: Decoder): StreamState {
    if st.crashed then st
    else match ReadLine(raw, decode)
      case Got(e) => Apply(st, e)
      case _ => st
  }

  function IntendedFoldFrom(st: StreamState, lines: seq<string>, decode: Decoder): StreamState
    decreases |lines|
  {
    if lines == [] then st
    else IntendedFoldFrom(IntendedStep(st, lines[0], decode), lines[1..], decode)
  }

  function IntendedFold(lines: seq<string>, decode: Decoder): StreamState {
    IntendedFoldFrom(Initial, lines, decode)
  }

  lemma {:induction false} IntendedFoldFromAppend(st: StreamState, a: seq<string>,
                                                  b: seq<string>, decode: Decoder)
    ensures IntendedFoldFrom(st, a + b, decode)
         == IntendedFoldFrom(IntendedFoldFrom(st, a, decode), b, decode)
    decreases |a|
  {
    if a == [] {
      assert a + b == b;
    } else {
      assert (a + b)[0] == a[0] && (a + b)[1..] == a[1..] + b;
      IntendedFoldFromAppend(IntendedStep(st, a[0], decode), a[1..], b, decode);
    }
  }

  /** In the intended loop a payload that fails to decode may be dropped
      without changing the outcome: the lines after it are still read. */
  lemma IntendedSkipsBadLine(a: seq<string>, raw: string, b: seq<string>, decode: Decoder)
    requires ReadLine(raw, decode) == BadJson
    ensures IntendedFold(a + [raw] + b, decode) == IntendedFold(a + b, decode)
  {
    AppendAssoc(a, [raw], b);
    IntendedFoldFromAppend(Initial, a, [raw] + b, decode);
    IntendedFoldFromAppend(Initial, a, b, decode);
    var st := IntendedFoldFrom(Initial, a, decode);
    assert ([raw] + b)[0] == raw && ([raw] + b)[1..] == b;
    assert IntendedStep(st, raw, decode) == st;
  }

  /** How the two lines of the example below are read. */
  lemma ExampleLines()
    ensures NormaliseLine("oops") == Some("oops")
    ensures NormaliseLine("data: X") == Some("X")
  {
    PlainLinePayload([], "oops", []);
    assert [] + "oops" + [] == "oops";
    DataLinePayload([], "X", []);
    assert [] + ("data: " + "X") + [] == "data: X";
  }

  /** The stream `oops`, `data: X`, where only `X` decodes (to a `message`
      event): as written the answer of `X` is lost and no event is ever read;
      as intended it is the answer. */
  lemma BadFirstLineLosesAnswer(decode: Decoder, e: Event)
    requires decode("oops") == None && decode("X") == Some(e) && e.kind == "message"
    ensures Fold(["oops", "data: X"], decode) == StreamState("", None, [], false, true)
    ensures IntendedFold(["oops", "data: X"], decode) == StreamState(e.answer, Some(e), [], false, false)
  {
    ExampleLines();
    var lines := ["oops", "data: X"];
    var rest := ["data: X"];
    assert lines[0] == "oops" && lines[1..] == rest && rest[1..] == [];
    var drained := Initial.(drained := true);
    assert Step(Initial, "oops", decode) == drained;
    StopAbsorbs(drained, rest, decode);
    assert IntendedStep(Initial, "oops", decode) == Initial;
    assert IntendedStep(Initial, "data: X", decode) == Apply(Initial, e);
    assert "" + e.answer == e.answer;
  }

  /** The loop of `dify` over the lines of a 200 response. */
  method ReadStream(lines: seq<string>, decode: Decoder) returns (st: StreamState)
    ensures st == Fold(lines, decode)
    ensures var evs := Events(lines, decode);
      && (st.crashed <==> !NoReplace(evs))
      && (!st.crashed ==>
            && st.answer == MessageText(evs) && st.last == LastOr(evs, None)
            && st.notices == SideNotices(evs) && (st.drained <==> Drains(lines, decode)))
  {
    st := Initial;
    var i := 0;
    while i < |lines| && !st.crashed && !st.drained
      invariant 0 <= i <= |lines|
      invariant FoldFrom(st, lines[i..], decode) == Fold(lines, decode)
    {
      ghost var before := st;
      var line := Strip(lines[i]);
      if line != "" && line != "event: ping" {
        if StartsWith(line, "data: ") {
          line := line[6..];
        }
        var decoded := decode(line);
        if decoded.None? {
          // the error log reads the rest of the body with `resp.text()`
          st := st.(drained := true);
        } else {
          var e := decoded.value;
          st := st.(last := Some(e));
          match KindOf(e.kind) {
            case MessageKind => st := st.(answer := st.answer + e.answer);
            case ReplaceKind => st := st.(crashed := true);
            case FileKind => st := st.(notices := st.notices + [Image(e.url)]);
            case TtsKind => st := st.(notices := st.notices + [Audio(e.audio)]);
            case ErrorKind => st := st.(notices := st.notices + [DifyError(e.message)]);
            case UnknownKind =>
          }
        }
      }
      assert st == Step(before, lines[i], decode);
      assert lines[i..][1..] == lines[i + 1..];
      i := i + 1;
    }
    if i < |lines| {
      StopAbsorbs(st, lines[i..], decode);
    }
    StreamAnswer(lines, decode);
  }
}
