/** What each message handler of the plugin does to the store, as functions
    of the store before the call: the text handler, the @-mention handler and
    the four media handlers (voice, image, video, file), which share one
    shape. */
module Handlers {
  import opened Types
  import opened Text
  import opened Routing
  import opened Points
  import opened Stream
  import opened Dify

  /** The state a handler reads and writes: the points ledger and the
      conversation ids of the database, the set of processed message ids,
      and the notices sent so far. */
  datatype Store = Store(points: map<string, int>, threads: map<string, string>,
                         processed: set<MsgId>, sent: seq<Notice>)

  /** The store after a handler, how the handler ended, and the requests it
      posted to Dify, in order. */
  datatype Handled = Handled(store: Store, outcome: Outcome, asked: seq<Request>)

  function Say(s: Store, room: string, body: Body): Store {
    s.(sent := s.sent + [Notice(room, body)])
  }

  /** The checks before any handler's work: the plugin is on and the message
      is new. */
  function Entry(cfg: Config, s: Store, m: Message): Option<Handled> {
    if !cfg.enable then Some(Handled(s, Disabled, []))
    else if m.msgId in s.processed then Some(Handled(s, Duplicate, []))
    else None
  }

  /** The key checks: a missing Dify key, then (for text) a missing TTS key,
      each answered with a notice. */
  function KeyCheck(cfg: Config, s: Store, m: Message, needTts: bool): Option<Handled> {
    if cfg.apiKey == "" then Some(Handled(Say(s, m.fromWxid, MissingDifyKey), NoApiKey, []))
    else if needTts && cfg.ttsApiKey == "" then Some(Handled(Say(s, m.fromWxid, MissingTtsKey), NoTtsKey, []))
    else None
  }

  /** The common end of every handler: the points gate, then `dify` when it
      lets the message through, then the message id is recorded. An
      exception in `dify` leaves the id unrecorded. */
  function Settle(cfg: Config, whitelist: set<string>, s: Store, m: Message, query: string,
                  files: seq<FileRef>, responses: seq<Response>, decode: Decoder): Handled
    requires Retries(responses)
  {
    var c := PointGate(cfg, s.points, whitelist, m.senderWxid);
    if !c.ok then
      Handled(Say(s, m.fromWxid, NotEnoughPoints(cfg.price)).(processed := s.processed + {m.msgId}), Refused, [])
    else
      var r := DifyRun(s.threads, m.fromWxid, query, files, responses, decode);
      var t := s.(points := c.points, threads := r.threads, sent := s.sent + r.notices);
      if r.crashed then Handled(t, Aborted, r.posted)
      else Handled(t.(processed := s.processed + {m.msgId}), Forwarded, r.posted)
  }

  /** `handle_text`. */
  function OnText(cfg: Config, whitelist: set<string>, s: Store, m: Message,
                  responses: seq<Response>, decode: Decoder): Handled
    requires Retries(responses)
  {
    match Entry(cfg, s, m)
    case Some(h) => h
    case None =>
      match RouteText(m.content, m.isGroup, cfg.commands, cfg.otherPluginCmd)
      case Ignore => Handled(s, Ignored, [])
      case AnswerTip => Handled(Say(s, m.fromWxid, CommandTip(cfg.commandTip)), Tipped, [])
      case LeaveToOther => Handled(s, OtherPluginCmd, [])
      case Forward =>
        match KeyCheck(cfg, s, m, true)
        case Some(h) => h
        case None => Settle(cfg, whitelist, s, m, m.content, [], responses, decode)
  }

  /** `handle_at`: no routing; the whole content is the query. */
  function OnAt(cfg: Config, whitelist: set<string>, s: Store, m: Message,
                responses: seq<Response>, decode: Decoder): Handled
    requires Retries(responses)
  {
    match Entry(cfg, s, m)
    case Some(h) => h
    case None =>
      match KeyCheck(cfg, s, m, true)
      case Some(h) => h
      case None => Settle(cfg, whitelist, s, m, m.content, [], responses, decode)
  }

  datatype MediaKind = VoiceMsg | ImageMsg | VideoMsg | FileMsg

  /** The `type` Dify is told for an uploaded file. */
  function FileType(kind: MediaKind): string {
    match kind
    case VoiceMsg => "audio"
    case ImageMsg => "image"
    case VideoMsg => "video"
    case FileMsg => "document"
  }

  /** `handle_voice`, `handle_image`, `handle_video` and `handle_file`:
      private chats only, no TTS key check, and the query is " \n" with the
      uploaded file attached; `uploadId` is what the upload returned. */
  function OnMedia(cfg: Config, whitelist: set<string>, s: Store, m: Message, kind: MediaKind,
                   uploadId: string, responses: seq<Response>, decode: Decoder): Handled
    requires Retries(responses)
  {
    match Entry(cfg, s, m)
    case Some(h) => h
    case None =>
      if m.isGroup then Handled(s, GroupMedia, [])
      else match KeyCheck(cfg, s, m, false)
        case Some(h) => h
        case None =>
          Settle(cfg, whitelist, s, m, " \n", [FileRef(FileType(kind), uploadId)], responses, decode)
  }

  // ---------------------------------------------------------------------
  // Lemmas.

  /** What `Settle` does: charge per the points gate, record the message id
      unless `dify` raised, and send either the refusal or Dify's notices. */
  lemma SettleEffect(cfg: Config, whitelist: set<string>, s: Store, m: Message, query: string,
                     files: seq<FileRef>, responses: seq<Response>, decode: Decoder)
    requires Retries(responses)
    ensures var h := Settle(cfg, whitelist, s, m, query, files, responses, decode);
      var c := PointGate(cfg, s.points, whitelist, m.senderWxid);
      var r := DifyRun(s.threads, m.fromWxid, query, files, responses, decode);
      && h.outcome in {Refused, Forwarded, Aborted}
      && h.store.points == c.points
      && (h.outcome == Refused <==> !c.ok)
      && (h.outcome == Refused ==>
            h.store.threads == s.threads
            && h.store.sent == s.sent + [Notice(m.fromWxid, NotEnoughPoints(cfg.price))])
      && (h.outcome != Refused ==>
            h.store.threads == r.threads && h.store.sent == s.sent + r.notices
            && (h.outcome == Aborted <==> r.crashed))
      && h.asked == (if h.outcome == Refused then [] else r.posted)
      && h.store.processed == (if h.outcome == Aborted then s.processed else s.processed + {m.msgId})
  {
  }

  /** A message whose id was already processed changes nothing, in every
      handler. */
  lemma DuplicateIsNoOp(cfg: Config, whitelist: set<string>, s: Store, m: Message,
                        kind: MediaKind, uploadId: string, responses: seq<Response>,
                        decode: Decoder)
    requires Retries(responses)
    requires cfg.enable && m.msgId in s.processed
    ensures OnText(cfg, whitelist, s, m, responses, decode) == Handled(s, Duplicate, [])
    ensures OnAt(cfg, whitelist, s, m, responses, decode) == Handled(s, Duplicate, [])
    ensures OnMedia(cfg, whitelist, s, m, kind, uploadId, responses, decode) == Handled(s, Duplicate, [])
  {
  }

  /** A disabled plugin does nothing, in every handler. */
  lemma DisabledIsNoOp(cfg: Config, whitelist: set<string>, s: Store, m: Message,
                       kind: MediaKind, uploadId: string, responses: seq<Response>,
                       decode: Decoder)
    requires Retries(responses)
    requires !cfg.enable
    ensures OnText(cfg, whitelist, s, m, responses, decode) == Handled(s, Disabled, [])
    ensures OnAt(cfg, whitelist, s, m, responses, decode) == Handled(s, Disabled, [])
    ensures OnMedia(cfg, whitelist, s, m, kind, uploadId, responses, decode) == Handled(s, Disabled, [])
  {
  }

  /** A missing Dify key, and for text and @-messages a missing TTS key,
      sends exactly one notice and ends the handler: nothing is charged,
      posted or recorded. A forwarded text meets the same checks as an
      @-message; a private media message checks only the Dify key. */
  lemma MissingKeyNotice(cfg: Config, whitelist: set<string>, s: Store, m: Message,
                         kind: MediaKind, uploadId: string, responses: seq<Response>,
                         decode: Decoder)
    requires Retries(responses)
    requires cfg.enable && m.msgId !in s.processed
    ensures cfg.apiKey == "" ==>
      OnAt(cfg, whitelist, s, m, responses, decode)
        == Handled(Say(s, m.fromWxid, MissingDifyKey), NoApiKey, [])
    ensures cfg.apiKey != "" && cfg.ttsApiKey == "" ==>
      OnAt(cfg, whitelist, s, m, responses, decode)
        == Handled(Say(s, m.fromWxid, MissingTtsKey), NoTtsKey, [])
    ensures RouteText(m.content, m.isGroup, cfg.commands, cfg.otherPluginCmd) == Forward ==>
      OnText(cfg, whitelist, s, m, responses, decode) == OnAt(cfg, whitelist, s, m, responses, decode)
    ensures !m.isGroup && cfg.apiKey == "" ==>
      OnMedia(cfg, whitelist, s, m, kind, uploadId, responses, decode)
        == Handled(Say(s, m.fromWxid, MissingDifyKey), NoApiKey, [])
  {
  }

  /** A group text whose first word is not a command is ignored: nothing is
      sent, charged or recorded. */
  lemma GroupChatterIgnored(cfg: Config, whitelist: set<string>, s: Store, m: Message,
                            responses: seq<Response>, decode: Decoder)
    requires Retries(responses)
    requires cfg.enable && m.msgId !in s.processed
    requires m.isGroup && FirstWord(m.content) !in cfg.commands
    ensures OnText(cfg, whitelist, s, m, responses, decode) == Handled(s, Ignored, [])
  {
  }

  /** A text that is a bare command gets the command tip and nothing else:
      no points gate, no Dify request, no record of its id. */
  lemma BareCommandGetsTip(cfg: Config, whitelist: set<string>, s: Store, m: Message,
                           responses: seq<Response>, decode: Decoder)
    requires Retries(responses)
    requires cfg.enable && m.msgId !in s.processed
    requires ' ' !in Strip(m.content) && Strip(m.content) in cfg.commands
    ensures OnText(cfg, whitelist, s, m, responses, decode)
         == Handled(s.(sent := s.sent + [Notice(m.fromWxid, CommandTip(cfg.commandTip))]), Tipped, [])
  {
  }

  /** A text that starts with another plugin's command (and is neither
      ignored nor a bare command) is left alone. */
  lemma OtherPluginCommandLeftAlone(cfg: Config, whitelist: set<string>, s: Store, m: Message,
                                    responses: seq<Response>, decode: Decoder)
    requires Retries(responses)
    requires cfg.enable && m.msgId !in s.processed
    requires !m.isGroup || FirstWord(m.content) in cfg.commands
    requires !(' ' !in Strip(m.content) && Strip(m.content) in cfg.commands)
    requires FirstWord(m.content) in cfg.otherPluginCmd
    ensures OnText(cfg, whitelist, s, m, responses, decode) == Handled(s, OtherPluginCmd, [])
  {
  }

  /** In the text handler, the message id is recorded exactly when the
      handler reaches its end (the points gate refused, or Dify was asked and
      did not raise), and nothing else is ever added. */
  lemma {:induction false} TextRecordsOnlyAtEnd(cfg: Config, whitelist: set<string>, s: Store,
                                                m: Message, responses: seq<Response>,
                                                decode: Decoder)
    requires Retries(responses)
    ensures var h := OnText(cfg, whitelist, s, m, responses, decode);
      && h.store.processed
         == (if h.outcome in {Refused, Forwarded} then s.processed + {m.msgId} else s.processed)
      && (m.msgId !in s.processed ==>
            (m.msgId in h.store.processed <==> h.outcome in {Refused, Forwarded}))
  {
    if Entry(cfg, s, m).None? && RouteText(m.content, m.isGroup, cfg.commands, cfg.otherPluginCmd) == Forward
       && KeyCheck(cfg, s, m, true).None? {
      SettleEffect(cfg, whitelist, s, m, m.content, [], responses, decode);
    }
  }

  /** In the text handler, points change only when Dify is asked, and then
      the sender pays exactly the price unless exempt, and nothing if
      exempt; nobody else pays. */
  lemma {:induction false} TextChargesOnlyWhenAsking(cfg: Config, whitelist: set<string>,
                                                     s: Store, m: Message,
                                                     responses: seq<Response>, decode: Decoder)
    requires Retries(responses)
    ensures var h := OnText(cfg, whitelist, s, m, responses, decode);
      && (h.outcome !in {Forwarded, Aborted} ==> h.store.points == s.points)
      && (h.asked == [] ==> h.store.points == s.points)
      && (Exempt(cfg, whitelist, m.senderWxid) ==> h.store.points == s.points)
      && (h.outcome in {Forwarded, Aborted} && !Exempt(cfg, whitelist, m.senderWxid) ==>
            Balance(h.store.points, m.senderWxid) == Balance(s.points, m.senderWxid) - cfg.price)
      && (forall u :: u != m.senderWxid ==> Balance(h.store.points, u) == Balance(s.points, u))
  {
    var h := OnText(cfg, whitelist, s, m, responses, decode);
    var e := Entry(cfg, s, m);
    if e.Some? {
      assert h == e.value && e.value.store == s;
    } else {
      var route := RouteText(m.content, m.isGroup, cfg.commands, cfg.otherPluginCmd);
      var k := KeyCheck(cfg, s, m, true);
      if route != Forward {
        assert h.store.points == s.points;
      } else if k.Some? {
        assert h == k.value && k.value.store.points == s.points;
      } else {
        assert h == Settle(cfg, whitelist, s, m, m.content, [], responses, decode);
        SettleEffect(cfg, whitelist, s, m, m.content, [], responses, decode);
      }
    }
  }

  /** In `handle_at`, the message id is recorded exactly when the handler
      reaches its end (the points gate refused, or Dify was asked and did
      not raise); points change only when Dify is asked, and then as the
      points gate says. */
  lemma {:induction false} AtRecordsAndChargesAtEnd(cfg: Config, whitelist: set<string>, s: Store,
                                                    m: Message, responses: seq<Response>,
                                                    decode: Decoder)
    requires Retries(responses)
    ensures var h := OnAt(cfg, whitelist, s, m, responses, decode);
      && h.store.processed
         == (if h.outcome in {Refused, Forwarded} then s.processed + {m.msgId} else s.processed)
      && (h.outcome !in {Forwarded, Aborted} ==> h.store.points == s.points)
      && (h.outcome in {Forwarded, Aborted} ==>
            h.store.points == PointGate(cfg, s.points, whitelist, m.senderWxid).points)
  {
    if Entry(cfg, s, m).None? && KeyCheck(cfg, s, m, true).None? {
      SettleEffect(cfg, whitelist, s, m, m.content, [], responses, decode);
    }
  }

  /** In the media handlers, the message id is recorded exactly when the
      handler reaches its end; a group message, a missing key or a duplicate
      records nothing. Points change only when Dify is asked, and then as the
      points gate says. */
  lemma {:induction false} MediaRecordsAndChargesAtEnd(cfg: Config, whitelist: set<string>,
                                                       s: Store, m: Message, kind: MediaKind,
                                                       uploadId: string, responses: seq<Response>,
                                                       decode: Decoder)
    requires Retries(responses)
    ensures var h := OnMedia(cfg, whitelist, s, m, kind, uploadId, responses, decode);
      && h.store.processed
         == (if h.outcome in {Refused, Forwarded} then s.processed + {m.msgId} else s.processed)
      && (h.outcome !in {Forwarded, Aborted} ==> h.store.points == s.points)
      && (h.outcome in {Forwarded, Aborted} ==>
            h.store.points == PointGate(cfg, s.points, whitelist, m.senderWxid).points)
  {
    if Entry(cfg, s, m).None? && !m.isGroup && KeyCheck(cfg, s, m, false).None? {
      SettleEffect(cfg, whitelist, s, m, " \n", [FileRef(FileType(kind), uploadId)], responses, decode);
    }
  }

  /** A media message in a group is dropped without any effect, and is not
      recorded either. */
  lemma GroupMediaIsNoOp(cfg: Config, whitelist: set<string>, s: Store, m: Message,
                         kind: MediaKind, uploadId: string, responses: seq<Response>,
                         decode: Decoder)
    requires Retries(responses)
    requires cfg.enable && m.msgId !in s.processed && m.isGroup
    ensures OnMedia(cfg, whitelist, s, m, kind, uploadId, responses, decode) == Handled(s, GroupMedia, [])
  {
  }

  /** The media handlers do not need a TTS key: with a Dify key they always
      reach the points gate; when it lets the message through, the first
      request carries the uploaded file and the stored conversation id, and
      a retry after a 404 carries no file. */
  lemma {:induction false} MediaReachesGate(cfg: Config, whitelist: set<string>, s: Store,
                                            m: Message, kind: MediaKind, uploadId: string,
                                            responses: seq<Response>, decode: Decoder)
    requires Retries(responses)
    requires cfg.enable && m.msgId !in s.processed && !m.isGroup && cfg.apiKey != ""
    ensures var h := OnMedia(cfg, whitelist, s, m, kind, uploadId, responses, decode);
      && h.outcome in {Refused, Forwarded, Aborted}
      && (h.outcome == Refused <==> h.asked == [])
      && (h.outcome != Refused ==>
            h.asked[0] == Request(" \n", Thread(s.threads, m.fromWxid), m.fromWxid,
                                  [FileRef(FileType(kind), uploadId)])
            && forall j :: 1 <= j < |h.asked| ==> h.asked[j].files == [])
  {
    SettleEffect(cfg, whitelist, s, m, " \n", [FileRef(FileType(kind), uploadId)], responses, decode);
    RetriesDropIdAndFiles(s.threads, m.fromWxid, " \n", [FileRef(FileType(kind), uploadId)], responses, decode);
  }
}
