/** The DifyTTS plugin object. Its state stands for the instance fields and
    the `XYBotDB` tables the handlers touch; every handler is proved to change
    that state exactly as the corresponding function of module Handlers says. */
module Plugin {
  import opened Types
  import opened Text
  import opened Routing
  import opened Points
  import opened Stream
  import opened Dify
  import opened Handlers

  class DifyTTS {
    const cfg: Config
    /** The database whitelist, which the plugin only reads. */
    const whitelist: set<string>
    /** The database points ledger. */
    var points: map<string, int>
    /** The database conversation ids, namespace "dify", keyed by chat. */
    var threads: map<string, string>
    /** `processed_message_ids`. */
    var processed: set<MsgId>
    /** Everything sent through the bot, in order. */
    var sent: seq<Notice>

    function State(): Store
      reads this
    {
      Store(points, threads, processed, sent)
    }

    constructor (cfg: Config, whitelist: set<string>, points: map<string, int>,
                 threads: map<string, string>)
      ensures this.cfg == cfg && this.whitelist == whitelist
      ensures State() == Store(points, threads, {}, [])
    {
      this.cfg := cfg;
      this.whitelist := whitelist;
      this.points := points;
      this.threads := threads;
      this.processed := {};
      this.sent := [];
    }

    /** `_check_point`. */
    method CheckPoint(m: Message) returns (ok: bool)
      modifies this`points, this`sent
      ensures var c := PointGate(cfg, old(points), whitelist, m.senderWxid);
        ok == c.ok && points == c.points
      ensures sent == old(sent) + (if ok then [] else [Notice(m.fromWxid, NotEnoughPoints(cfg.price))])
    {
      var wxid := m.senderWxid;
      if wxid in cfg.admins && cfg.adminIgnore {
        return true;
      } else if wxid in whitelist && cfg.whitelistIgnore {
        return true;
      } else {
        if Balance(points, wxid) < cfg.price {
          sent := sent + [Notice(m.fromWxid, NotEnoughPoints(cfg.price))];
          return false;
        }
        points := points[wxid := Balance(points, wxid) - cfg.price];
        return true;
      }
    }

    /** `dify`: returns the requests posted and whether an exception ended
        the call. */
    method Dify(m: Message, query: string, files: seq<FileRef>, responses: seq<Response>,
                decode: Decoder) returns (posted: seq<Request>, crashed: bool)
      requires Retries(responses)
      modifies this`threads, this`sent
      ensures var r := DifyRun(old(threads), m.fromWxid, query, files, responses, decode);
        threads == r.threads && sent == old(sent) + r.notices
        && posted == r.posted && crashed == r.crashed
    {
      var user := m.fromWxid;
      var attachments := files;
      var i := 0;
      posted := [];
      while responses[i].status == 404
        invariant 0 <= i < |responses|
        invariant posted == Posts(query, Thread(old(threads), user), user, files, i)
        invariant threads == if i == 0 then old(threads) else old(threads)[user := ""]
        invariant attachments == if i == 0 then files else []
        invariant sent == old(sent)
        decreases |responses| - i
      {
        posted := posted + [Request(query, Thread(threads, user), user, attachments)];
        // 404: forget the conversation and post again, without the files
        threads := threads[user := ""];
        attachments := [];
        i := i + 1;
      }
      assert i == |responses| - 1;
      var conversationId := Thread(threads, user);
      posted := posted + [Request(query, conversationId, user, attachments)];
      ghost var before := threads;
      ghost var ex := Finish(conversationId, responses[i], decode);
      crashed := Conclude(user, conversationId, responses[i], decode);
      assert DifyRun(old(threads), user, query, files, responses, decode)
          == DifyResult(Save(before, user, ex.save), Deliver(user, ex.notices), posted, ex.crashed);
    }

    /** The end of `dify`: what the final (non-404) response does to the
        stored conversation id of `user` and to the notices sent. */
    method Conclude(user: string, conversationId: string, resp: Response, decode: Decoder)
      returns (crashed: bool)
      modifies this`threads, this`sent
      ensures var ex := Finish(conversationId, resp, decode);
        && threads == Save(old(threads), user, ex.save)
        && sent == old(sent) + Deliver(user, ex.notices)
        && crashed == ex.crashed
    {
      crashed := false;
      if resp.status == 200 {
        var st := ReadStream(resp.lines, decode);
        crashed := EndStream(user, conversationId, st);
      } else if resp.status == 400 {
        sent := sent + [Notice(user, BadRequest)];
      } else if resp.status == 500 {
        sent := sent + [Notice(user, ServerError)];
      } else {
        sent := sent + [Notice(user, OtherStatus(resp.status))];
      }
    }

    /** After the stream loop `st` of a 200 response: its notices are sent,
        then a raise if `resp_json` was never bound, else the new id is
        saved and the answer sent. */
    method EndStream(user: string, conversationId: string, st: StreamState)
      returns (crashed: bool)
      modifies this`threads, this`sent
      ensures var ex := StreamEnd(conversationId, st);
        && threads == Save(old(threads), user, ex.save)
        && sent == old(sent) + Deliver(user, ex.notices)
        && crashed == ex.crashed
    {
      ghost var ex := StreamEnd(conversationId, st);
      crashed := false;
      sent := sent + Deliver(user, st.notices);
      if st.crashed || st.last.None? {
        crashed := true;
      } else {
        var newId := st.last.value.conversationId;
        if newId != "" && newId != conversationId {
          threads := threads[user := newId];
        }
        if st.answer != "" {
          DeliverSnoc(user, st.notices, Reply(st.answer));
          sent := sent + [Notice(user, Reply(st.answer))];
          assert ex.notices == st.notices + [Reply(st.answer)];
        } else {
          assert ex.notices == st.notices + [] == st.notices;
        }
      }
    }

    /** The shared end of the handlers: points gate, `dify`, record the id. */
    method Settle(m: Message, query: string, files: seq<FileRef>, responses: seq<Response>,
                  decode: Decoder) returns (outcome: Outcome, asked: seq<Request>)
      requires Retries(responses)
      modifies this`points, this`threads, this`processed, this`sent
      ensures Handled(State(), outcome, asked)
           == Handlers.Settle(cfg, whitelist, old(State()), m, query, files, responses, decode)
    {
      ghost var s := State();
      SettleEffect(cfg, whitelist, s, m, query, files, responses, decode);
      var ok := CheckPoint(m);
      if ok {
        var posted, crashed := Dify(m, query, files, responses, decode);
        if crashed {
          return Aborted, posted;
        }
        outcome, asked := Forwarded, posted;
      } else {
        outcome, asked := Refused, [];
      }
      processed := processed + {m.msgId};
    }

    /** `handle_text`; `asked` are the requests posted to Dify. */
    method HandleText(m: Message, responses: seq<Response>, decode: Decoder)
      returns (outcome: Outcome, asked: seq<Request>)
      requires Retries(responses)
      modifies this`points, this`threads, this`processed, this`sent
      ensures Handled(State(), outcome, asked) == OnText(cfg, whitelist, old(State()), m, responses, decode)
    {
      if !cfg.enable {
        return Disabled, [];
      }
      if m.msgId in processed {
        return Duplicate, [];
      }
      var route := RouteText(m.content, m.isGroup, cfg.commands, cfg.otherPluginCmd);
      if route == Ignore {
        return Ignored, [];
      } else if route == AnswerTip {
        sent := sent + [Notice(m.fromWxid, CommandTip(cfg.commandTip))];
        return Tipped, [];
      } else if route == LeaveToOther {
        return OtherPluginCmd, [];
      }
      if cfg.apiKey == "" {
        sent := sent + [Notice(m.fromWxid, MissingDifyKey)];
        return NoApiKey, [];
      }
      if cfg.ttsApiKey == "" {
        sent := sent + [Notice(m.fromWxid, MissingTtsKey)];
        return NoTtsKey, [];
      }
      outcome, asked := Settle(m, m.content, [], responses, decode);
    }

    /** `handle_at`. */
    method HandleAt(m: Message, responses: seq<Response>, decode: Decoder)
      returns (outcome: Outcome, asked: seq<Request>)
      requires Retries(responses)
      modifies this`points, this`threads, this`processed, this`sent
      ensures Handled(State(), outcome, asked) == OnAt(cfg, whitelist, old(State()), m, responses, decode)
    {
      if !cfg.enable {
        return Disabled, [];
      }
      if m.msgId in processed {
        return Duplicate, [];
      }
      if cfg.apiKey == "" {
        sent := sent + [Notice(m.fromWxid, MissingDifyKey)];
        return NoApiKey, [];
      }
      if cfg.ttsApiKey == "" {
        sent := sent + [Notice(m.fromWxid, MissingTtsKey)];
        return NoTtsKey, [];
      }
      outcome, asked := Settle(m, m.content, [], responses, decode);
    }

    /** `handle_voice`, `handle_image`, `handle_video`, `handle_file`. */
    method HandleMedia(m: Message, kind: MediaKind, uploadId: string, responses: seq<Response>,
                       decode: Decoder) returns (outcome: Outcome, asked: seq<Request>)
      requires Retries(responses)
      modifies this`points, this`threads, this`processed, this`sent
      ensures Handled(State(), outcome, asked)
           == OnMedia(cfg, whitelist, old(State()), m, kind, uploadId, responses, decode)
    {
      if !cfg.enable {
        return Disabled, [];
      }
      if m.msgId in processed {
        return Duplicate, [];
      }
      if m.isGroup {
        return GroupMedia, [];
      }
      if cfg.apiKey == "" {
        sent := sent + [Notice(m.fromWxid, MissingDifyKey)];
        return NoApiKey, [];
      }
      outcome, asked := Settle(m, " \n", [FileRef(FileType(kind), uploadId)], responses, decode);
    }
  }
}
