/** One call of `dify`: the request is posted, a 404 clears the stored
    conversation id and posts again (without the attachments), a 200 stream is
    folded and may replace the stored conversation id, and the other statuses
    produce an error notice. The HTTP exchange itself is an input: the
    responses the server gives to successive posts. */
module Dify {
  import opened Types
  import opened Stream

  datatype Response = Response(status: int, lines: seq<string>)

  /** The fields of the JSON body posted to `/chat-messages` that vary. */
  datatype Request = Request(query: string, conversationId: string, user: string,
                             files: seq<FileRef>)

  /** `db.get_llm_thread_id(wxid, namespace="dify")`: "" when none is stored. */
  function Thread(threads: map<string, string>, wxid: string): string {
    if wxid in threads then threads[wxid] else ""
  }

  /** The server answers every post but the last with 404. */
  predicate Retries(responses: seq<Response>) {
    && |responses| > 0
    && responses[|responses| - 1].status != 404
    && forall i :: 0 <= i < |responses| - 1 ==> responses[i].status == 404
  }

  /** The `j`-th post: the first carries the stored id and the files; a retry
      carries the cleared id and no files. */
  function Attempt(query: string, id: string, user: string, files: seq<FileRef>, j: nat): Request {
    if j == 0 then Request(query, id, user, files) else Request(query, "", user, [])
  }

  /** The first `k` posts. */
  function Posts(query: string, id: string, user: string, files: seq<FileRef>, k: nat): seq<Request> {
    if k == 0 then [] else Posts(query, id, user, files, k - 1) + [Attempt(query, id, user, files, k - 1)]
  }

  /** What the final (non-404) response does: the notices it triggers, the
      conversation id to save, and whether an exception ends the call. */
  datatype Exchange = Exchange(notices: seq<Body>, save: Option<string>, crashed: bool)

  /** The final response, given the conversation id `start` the request was
      posted with. A 200 stream whose loop read no event leaves `resp_json`
      unbound, so reading its `conversation_id` raises. */
  function Finish(start: string, r: Response, decode: Decoder): Exchange {
    if r.status == 200 then StreamEnd(start, Fold(r.lines, decode))
    else if r.status == 400 then Exchange([BadRequest], None, false)
    else if r.status == 500 then Exchange([ServerError], None, false)
    else Exchange([OtherStatus(r.status)], None, false)
  }

  /** After the stream loop `st`: its notices, then the answer when it is not
      empty, and the id of the last event when it is new. */
  function StreamEnd(start: string, st: StreamState): Exchange {
    if st.crashed || st.last.None? then Exchange(st.notices, None, true)
    else
      var newId := st.last.value.conversationId;
      Exchange(st.notices + (if st.answer != "" then [Reply(st.answer)] else []),
               if newId != "" && newId != start then Some(newId) else None,
               false)
  }

  /** The notices `bodies`, all sent to `room`. */
  function Deliver(room: string, bodies: seq<Body>): seq<Notice> {
    if bodies == [] then [] else [Notice(room, bodies[0])] + Deliver(room, bodies[1..])
  }

  /** `db.save_llm_thread_id(user, id, "dify")` when there is an id to save. */
  function Save(threads: map<string, string>, user: string, save: Option<string>): map<string, string> {
    match save
    case Some(id) => threads[user := id]
    case None => threads
  }

  datatype DifyResult = DifyResult(threads: map<string, string>, notices: seq<Notice>,
                                   posted: seq<Request>, crashed: bool)

  /** The whole call for chat `user` (the source's `FromWxid`). */
  function DifyRun(threads: map<string, string>, user: string, query: string,
                   files: seq<FileRef>, responses: seq<Response>, decode: Decoder): DifyResult
    requires Retries(responses)
  {
    var n := |responses| - 1;
    var before := if n == 0 then threads else threads[user := ""];
    var ex := Finish(Thread(before, user), responses[n], decode);
    DifyResult(
      Save(before, user, ex.save),
      Deliver(user, ex.notices),
      Posts(query, Thread(threads, user), user, files, n + 1),
      ex.crashed)
  }

  // ---------------------------------------------------------------------
  // Lemmas.

  lemma {:induction false} PostsShape(query: string, id: string, user: string,
                                      files: seq<FileRef>, k: nat)
    ensures |Posts(query, id, user, files, k)| == k
    ensures forall j :: 0 <= j < k ==> Posts(query, id, user, files, k)[j] == Attempt(query, id, user, files, j)
  {
    if k > 0 {
      PostsShape(query, id, user, files, k - 1);
    }
  }

  /** One post per response; the first carries the stored conversation id and
      the attachments, every retry after a 404 carries an empty id and no
      attachments. */
  lemma RetriesDropIdAndFiles(threads: map<string, string>, user: string, query: string,
                              files: seq<FileRef>, responses: seq<Response>, decode: Decoder)
    requires Retries(responses)
    ensures var r := DifyRun(threads, user, query, files, responses, decode);
      && |r.posted| == |responses|
      && r.posted[0] == Request(query, Thread(threads, user), user, files)
      && forall j :: 1 <= j < |r.posted| ==> r.posted[j] == Request(query, "", user, [])
  {
    PostsShape(query, Thread(threads, user), user, files, |responses|);
  }

  /** The stored conversation id of `user` is replaced by a new id only when
      the final response is a 200 stream whose loop read at least one event,
      none of them `message_replace`, and the last of them carries a
      non-empty id that differs from the one the request was posted with;
      otherwise it is the id the request was posted with ("" after a 404).
      No other user's id changes. */
  lemma ConversationIdUpdate(threads: map<string, string>, user: string, query: string,
                             files: seq<FileRef>, responses: seq<Response>, decode: Decoder)
    requires Retries(responses)
    ensures var r := DifyRun(threads, user, query, files, responses, decode);
      var fin := responses[|responses| - 1];
      var start := if |responses| == 1 then Thread(threads, user) else "";
      var evs := Events(fin.lines, decode);
      var replaced := fin.status == 200 && NoReplace(evs) && evs != []
        && evs[|evs| - 1].conversationId != "" && evs[|evs| - 1].conversationId != start;
      && (replaced ==> Thread(r.threads, user) == evs[|evs| - 1].conversationId)
      && (!replaced ==> Thread(r.threads, user) == start)
      && (forall u :: u != user ==> Thread(r.threads, u) == Thread(threads, u))
  {
    var fin := responses[|responses| - 1];
    var before := if |responses| == 1 then threads else threads[user := ""];
    var start := if |responses| == 1 then Thread(threads, user) else "";
    DifyRunThreads(threads, user, query, files, responses, decode);
    SaveThread(before, user, Finish(start, fin, decode).save);
    FinishSave(start, fin, decode);
  }

  /** The stored ids after a call: those before it, with the id of `user`
      cleared after a 404, then what the final response saves. */
  lemma DifyRunThreads(threads: map<string, string>, user: string, query: string,
                       files: seq<FileRef>, responses: seq<Response>, decode: Decoder)
    requires Retries(responses)
    ensures var before := if |responses| == 1 then threads else threads[user := ""];
      var start := if |responses| == 1 then Thread(threads, user) else "";
      && Thread(before, user) == start
      && (forall u :: u != user ==> Thread(before, u) == Thread(threads, u))
      && DifyRun(threads, user, query, files, responses, decode).threads
         == Save(before, user, Finish(start, responses[|responses| - 1], decode).save)
  {
  }

  /** The id the final response saves, by the events its loop reads. */
  lemma FinishSave(start: string, fin: Response, decode: Decoder)
    ensures var evs := Events(fin.lines, decode);
      Finish(start, fin, decode).save
        == if fin.status == 200 && NoReplace(evs) && evs != []
              && evs[|evs| - 1].conversationId != "" && evs[|evs| - 1].conversationId != start
           then Some(evs[|evs| - 1].conversationId) else None
  {
    StreamAnswer(fin.lines, decode);
    if fin.status == 200 {
      StreamEndSave(start, Fold(fin.lines, decode));
    }
  }

  /** What `Save` does to the stored ids. */
  lemma SaveThread(threads: map<string, string>, user: string, save: Option<string>)
    ensures Thread(Save(threads, user, save), user) == if save.Some? then save.value else Thread(threads, user)
    ensures forall u :: u != user ==> Thread(Save(threads, user, save), u) == Thread(threads, u)
  {
  }

  /** The id the end of a stream saves. */
  lemma StreamEndSave(start: string, st: StreamState)
    ensures var ex := StreamEnd(start, st);
      ex.save == if !st.crashed && st.last.Some? && st.last.value.conversationId != ""
                    && st.last.value.conversationId != start
                 then Some(st.last.value.conversationId) else None
  {
  }

  /** A 200 stream whose loop reads at least one event and no
      `message_replace` sends exactly the notices of the file, TTS and error
      events read, in order, followed by the answer (the in-order
      concatenation of the `message` answers read) when it is not empty. A
      non-empty answer is thus the last notice, and an empty one sends no
      reply. */
  lemma AnswerIsLastNotice(threads: map<string, string>, user: string, query: string,
                           files: seq<FileRef>, responses: seq<Response>, decode: Decoder)
    requires Retries(responses)
    requires responses[|responses| - 1].status == 200
    ensures var r := DifyRun(threads, user, query, files, responses, decode);
      var evs := Events(responses[|responses| - 1].lines, decode);
      NoReplace(evs) && evs != [] ==>
        && !r.crashed
        && r.notices == Deliver(user, SideNotices(evs)
                                      + (if MessageText(evs) != "" then [Reply(MessageText(evs))] else []))
        && (MessageText(evs) != "" ==>
              r.notices != [] && r.notices[|r.notices| - 1] == Notice(user, Reply(MessageText(evs))))
  {
    var fin := responses[|responses| - 1];
    var evs := Events(fin.lines, decode);
    StreamAnswer(fin.lines, decode);
    var st := Fold(fin.lines, decode);
    if NoReplace(evs) && evs != [] && MessageText(evs) != "" {
      DeliverSnoc(user, st.notices, Reply(st.answer));
    }
  }

  /** A final response with status 400, 500 or any other status but 200
      sends exactly one error notice (the body of the 400 and other-status
      notices is not modelled), saves no id and does not raise; the stored id
      is the one posted with. */
  lemma ErrorStatusNotice(threads: map<string, string>, user: string, query: string,
                          files: seq<FileRef>, responses: seq<Response>, decode: Decoder)
    requires Retries(responses)
    requires responses[|responses| - 1].status != 200
    ensures var r := DifyRun(threads, user, query, files, responses, decode);
      var status := responses[|responses| - 1].status;
      && !r.crashed
      && r.notices == [Notice(user, if status == 400 then BadRequest
                                    else if status == 500 then ServerError
                                    else OtherStatus(status))]
      && r.threads == if |responses| == 1 then threads else threads[user := ""]
  {
    var fin := responses[|responses| - 1];
    var ex := Finish(Thread(threads, user), fin, decode);
    assert |ex.notices| == 1 && ex.notices[1..] == [];
    DeliverSnoc(user, [], ex.notices[0]);
    assert [] + [ex.notices[0]] == ex.notices;
  }

  /** A call raises exactly when the final response is a 200 stream whose
      loop reads a `message_replace` event or no event at all (the loop reads
      up to the first payload that fails to decode). A raise on
      `message_replace` has sent the notices of the events before it; a
      stream that read no event has sent nothing. */
  lemma CrashIff(threads: map<string, string>, user: string, query: string,
                 files: seq<FileRef>, responses: seq<Response>, decode: Decoder)
    requires Retries(responses)
    ensures var fin := responses[|responses| - 1];
      var evs := Events(fin.lines, decode);
      var r := DifyRun(threads, user, query, files, responses, decode);
      && (r.crashed <==> fin.status == 200 && (!NoReplace(evs) || evs == []))
      && (fin.status == 200 && !NoReplace(evs) ==> r.notices == Deliver(user, SideNotices(UpToReplace(evs))))
      && (fin.status == 200 && evs == [] ==> r.notices == [])
  {
    var fin := responses[|responses| - 1];
    StreamAnswer(fin.lines, decode);
  }

  /** The stream `oops`, `data: X` of a 200 response, where only `X`
      decodes (to a `message` event): reading the body out in the error log
      ends the loop before `X`, so `resp_json` is unbound and the call raises
      with nothing sent and nothing saved. */
  lemma BadFirstLineRaises(threads: map<string, string>, user: string, query: string,
                           files: seq<FileRef>, decode: Decoder, e: Event)
    requires decode("oops") == None && decode("X") == Some(e) && e.kind == "message"
    ensures var r := DifyRun(threads, user, query, files, [Response(200, ["oops", "data: X"])], decode);
      r.crashed && r.notices == [] && r.threads == threads
  {
    BadFirstLineLosesAnswer(decode, e);
  }

  lemma {:induction false} DeliverAppend(room: string, a: seq<Body>, b: seq<Body>)
    ensures Deliver(room, a + b) == Deliver(room, a) + Deliver(room, b)
    decreases |a|
  {
    if a == [] {
      assert a + b == b;
    } else {
      assert (a + b)[0] == a[0] && (a + b)[1..] == a[1..] + b;
      DeliverAppend(room, a[1..], b);
    }
  }

  /** One more notice at the end is one more message, sent to `room`. */
  lemma DeliverSnoc(room: string, a: seq<Body>, b: Body)
    ensures Deliver(room, a + [b]) == Deliver(room, a) + [Notice(room, b)]
  {
    DeliverAppend(room, a, [b]);
    assert [b][1..] == [];
  }
}
