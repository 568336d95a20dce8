/**
  The webhook callback (callbackHandler in main.go) as a state machine over
  the per-identity session map.

  BotState is the whole state the handler touches: the session map, the chat
  service (fresh-id counter and the log of messages sent to the model) and
  the outbox of replies. Step is one event, Run a batch; the class Bot is the
  handler itself and is proved to follow Run.
*/
module Dispatcher {
  import opened Wrappers
  import opened Events
  import opened Gemini

  /**
    What the handler's behaviour depends on besides its state: the opaque
    model, the firstTime argument the call `send(cs, req)` leaves out (as a
    function of "the key had no entry before this event"), and the outcome of
    fetching an image by message id and describing it.
  */
  datatype Env = Env(
    model: (SessionId, seq<string>) -> Response,
    sendFirstTime: bool -> bool,
    describe: string -> Result<string, string>)

  datatype BotState = BotState(sessions: map<string, SessionId>, chat: Chat, outbox: seq<Reply>)

  /** Every session in the map and every session sent to was started by the chat service. */
  ghost predicate Consistent(s: BotState)
  {
    Issued(s.chat) && forall k :: k in s.sessions ==> s.sessions[k] < s.chat.nextId
  }

  /** The events after which callbackHandler returns: a text without the sentinel, or a reset. */
  predicate StopsBatch(e: Event)
  {
    e.MessageEvent? && e.message.TextMessage? && !Interpret(e.message.text).Content?
  }

  /**
    The text-message case: look up or create the key's session, then reset or
    forward. An ignored text changes nothing; otherwise the key, and only the
    key, is added to the map, and one reply goes out.
  */
  function TextStep(env: Env, s: BotState, token: string, src: Source, text: string): (r: (BotState, bool))
    ensures r.1 <==> !Interpret(text).Content?
    ensures Interpret(text).Ignored? ==> r.0 == s
    ensures !Interpret(text).Ignored? ==>
      && r.0.sessions.Keys == s.sessions.Keys + {IdentityKey(src)}
      && |r.0.outbox| == |s.outbox| + 1 && r.0.outbox[..|s.outbox|] == s.outbox
      && r.0.outbox[|s.outbox|].token == token
  {
    var cmd := Interpret(text);
    if cmd.Ignored? then (s, true)
    else
      var key := IdentityKey(src);
      var had := key in s.sessions;
      var (chat1, cs) := if had then (s.chat, s.sessions[key]) else Start(s.chat);
      var sessions1 := s.sessions[key := cs];
      if cmd.Reset? then
        var (chat2, renewed) := Start(chat1);
        (BotState(sessions1[key := renewed], chat2, s.outbox + [Reply(token, ReplyBody(Greeting, !had))]), true)
      else
        var (chat2, res) := SendOn(env.model, chat1, Some(cs), cmd.req, env.sendFirstTime(!had));
        (BotState(sessions1, chat2, s.outbox + [Reply(token, ReplyBody(ResponseText(res.candidates), !had))]), false)
  }

  /**
    One event of the batch (one pass of the loop body); the flag says whether
    the handler returns. Whatever the event, no key loses its entry, at most
    one reply is sent, and earlier messages to the model stay as they were.
  */
  function Step(env: Env, s: BotState, e: Event): (r: (BotState, bool))
    ensures r.1 == StopsBatch(e)
    ensures s.sessions.Keys <= r.0.sessions.Keys
    ensures |s.outbox| <= |r.0.outbox| <= |s.outbox| + 1 && r.0.outbox[..|s.outbox|] == s.outbox
    ensures |s.chat.forwarded| <= |r.0.chat.forwarded| && r.0.chat.forwarded[..|s.chat.forwarded|] == s.chat.forwarded
    ensures Consistent(s) ==> Consistent(r.0)
  {
    match e
    case MessageEvent(token, src, TextMessage(text)) => TextStep(env, s, token, src, text)
    case MessageEvent(token, _, StickerMessage(id, pkg, keywords, text)) =>
      var summary := StickerSummary(id, pkg, KeywordsText(keywords), text);
      (s.(outbox := s.outbox + [Reply(token, ReplyBody(summary, false))]), false)
    case MessageEvent(token, _, ImageMessage(id)) =>
      (s.(outbox := s.outbox + [Reply(token, ReplyBody(ImageReplyText(env.describe(id)), false))]), false)
    case _ => (s, false)
  }

  /**
    A batch: events in order until one makes the handler return. Across a
    batch the session map only gains keys, the replies and the messages sent
    to the model only grow, and there is at most one reply per event.
  */
  function Run(env: Env, s: BotState, events: seq<Event>): (t: BotState)
    ensures s.sessions.Keys <= t.sessions.Keys
    ensures |s.outbox| <= |t.outbox| <= |s.outbox| + |events| && t.outbox[..|s.outbox|] == s.outbox
    ensures |s.chat.forwarded| <= |t.chat.forwarded| && t.chat.forwarded[..|s.chat.forwarded|] == s.chat.forwarded
    decreases |events|
  {
    if events == [] then s
    else
      var (s1, stop) := Step(env, s, events[0]);
      if stop then s1 else Run(env, s1, events[1..])
  }

  // ---------------------------------------------------------------------------
  // Properties of a batch
  // ---------------------------------------------------------------------------

  /** A text without the sentinel ends the batch: no reply, no state change, later events unseen. */
  lemma UnprefixedTextEndsBatch(env: Env, s: BotState, token: string, src: Source, text: string, rest: seq<Event>)
    requires !StartsWith(text, Sentinel)
    ensures Run(env, s, [MessageEvent(token, src, TextMessage(text))] + rest) == s
  {
  }

  /** Nothing after an event that makes the handler return is processed, wherever that event stands. */
  lemma {:induction false} StoppingEventEndsBatch(env: Env, s: BotState, pre: seq<Event>, e: Event, rest: seq<Event>)
    requires StopsBatch(e)
    ensures Run(env, s, pre + [e] + rest) == Run(env, s, pre + [e])
    decreases |pre|
  {
    if pre == [] {
      assert ([e] + rest)[0] == e && [e][0] == e;
    } else {
      var (s1, stop) := Step(env, s, pre[0]);
      assert (pre + [e] + rest)[0] == pre[0] && (pre + [e])[0] == pre[0];
      assert (pre + [e] + rest)[1..] == pre[1..] + [e] + rest;
      assert (pre + [e])[1..] == pre[1..] + [e];
      if !stop {
        StoppingEventEndsBatch(env, s1, pre[1..], e, rest);
      }
    }
  }

  /** Video, unhandled message kinds, follow, postback, beacon and other events: logged only, the batch goes on. */
  lemma QuietEventContinues(env: Env, s: BotState, e: Event, rest: seq<Event>)
    requires !e.MessageEvent? || e.message.VideoMessage? || e.message.OtherMessage?
    ensures Run(env, s, [e] + rest) == Run(env, s, rest)
  {
  }

  /** Consistency holds after any batch that starts from a consistent state. */
  lemma {:induction false} RunConsistent(env: Env, s: BotState, events: seq<Event>)
    requires Consistent(s)
    ensures Consistent(Run(env, s, events))
    decreases |events|
  {
    if events != [] {
      var (s1, stop) := Step(env, s, events[0]);
      if !stop {
        RunConsistent(env, s1, events[1..]);
      }
    }
  }

  // ---------------------------------------------------------------------------
  // Properties of one event
  // ---------------------------------------------------------------------------

  /**
    Reset: the key's entry becomes a session distinct from every earlier one,
    other keys keep theirs, nothing is sent to the model, exactly one greeting
    is sent, primed exactly when the key had no entry, and the handler returns.
    A key with no entry gets two sessions, of which the map keeps the second.
  */
  lemma ResetStep(env: Env, s: BotState, token: string, src: Source, text: string)
    requires Consistent(s)
    requires Interpret(text).Reset?
    ensures var (t, stop) := Step(env, s, MessageEvent(token, src, TextMessage(text)));
      var key := IdentityKey(src);
      var had := key in s.sessions;
      && stop
      && t.sessions.Keys == s.sessions.Keys + {key}
      && (forall k :: k in s.sessions && k != key ==> t.sessions[k] == s.sessions[k])
      && (forall k :: k in s.sessions ==> t.sessions[key] != s.sessions[k])
      && (forall j :: 0 <= j < |s.chat.forwarded| ==> t.sessions[key] != s.chat.forwarded[j].0)
      && t.chat.forwarded == s.chat.forwarded
      && t.chat.nextId == s.chat.nextId + (if had then 1 else 2)
      && t.sessions[key] == t.chat.nextId - 1
      && t.outbox == s.outbox + [Reply(token, ReplyBody(Greeting, !had))]
      && (StartsWith(t.outbox[|s.outbox|].text, ReplyPriming) <==> !had)
  {
  }

  /**
    Content: an existing session is reused and the map is unchanged, otherwise
    one new session is inserted; the stripped text goes to that session, primed
    as the dispatcher's firstTime choice says, and the reply is the model's
    answer, primed exactly when the key had no entry. The batch goes on.
  */
  lemma ContentStep(env: Env, s: BotState, token: string, src: Source, text: string)
    requires Interpret(text).Content?
    ensures var (t, stop) := Step(env, s, MessageEvent(token, src, TextMessage(text)));
      var key := IdentityKey(src);
      var had := key in s.sessions;
      var id := if had then s.sessions[key] else s.chat.nextId;
      var sent := PrimedMessage(Interpret(text).req, env.sendFirstTime(!had));
      var answer := env.model(id, Transcript(s.chat.forwarded, id) + [sent]);
      && !stop
      && t.sessions == (if had then s.sessions else s.sessions[key := id])
      && t.chat.nextId == s.chat.nextId + (if had then 0 else 1)
      && t.chat.forwarded == s.chat.forwarded + [(id, sent)]
      && t.outbox == s.outbox + [Reply(token, ReplyBody(ResponseText(answer.candidates), !had))]
  {
  }

  /** A sticker gets its summary as the one reply; sessions and the model are untouched. */
  lemma StickerStep(env: Env, s: BotState, token: string, src: Source, id: string, pkg: string,
                    keywords: seq<string>, text: string)
    ensures var (t, stop) := Step(env, s, MessageEvent(token, src, StickerMessage(id, pkg, keywords, text)));
      && !stop
      && t.sessions == s.sessions && t.chat == s.chat
      && t.outbox == s.outbox + [Reply(token, StickerSummary(id, pkg, CommaEach(keywords), text))]
  {
    KeywordsTextIsCommaEach(keywords);
  }

  /** An image gets its description, or the fallback text with the error; sessions and the model are untouched. */
  lemma ImageStep(env: Env, s: BotState, token: string, src: Source, id: string)
    ensures var (t, stop) := Step(env, s, MessageEvent(token, src, ImageMessage(id)));
      && !stop
      && t.sessions == s.sessions && t.chat == s.chat
      && |t.outbox| == |s.outbox| + 1 && t.outbox[..|s.outbox|] == s.outbox
      && t.outbox[|s.outbox|].token == token
      && (env.describe(id).Success? ==> t.outbox[|s.outbox|].text == env.describe(id).value)
      && (env.describe(id).Failure? ==>
            StartsWith(t.outbox[|s.outbox|].text, ImageFallback)
            && t.outbox[|s.outbox|].text[|ImageFallback|..] == env.describe(id).error)
  {
  }

  /** A session that has not been started yet has been sent nothing. */
  lemma {:induction false} TranscriptOfUnstarted(log: seq<(SessionId, string)>, id: SessionId)
    requires forall j :: 0 <= j < |log| ==> log[j].0 < id
    ensures Transcript(log, id) == []
  {
    if log != [] {
      TranscriptOfUnstarted(log[..|log| - 1], id);
    }
  }

  /**
    First contact, then a second message from the same key: both go to the one
    new session, the first primed by the dispatcher's choice for a new key and
    the second by its choice for a known key; the second answer is the model's
    reply to exactly those two messages and is sent back unprimed.
  */
  lemma FirstContactThenRepeat(env: Env, s: BotState, t1: string, t2: string, src: Source,
                               text1: string, text2: string)
    requires Consistent(s)
    requires IdentityKey(src) !in s.sessions
    requires Interpret(text1).Content? && Interpret(text2).Content?
    ensures var events := [MessageEvent(t1, src, TextMessage(text1)), MessageEvent(t2, src, TextMessage(text2))];
      var t := Run(env, s, events);
      var n := s.chat.nextId;
      var m1 := PrimedMessage(Interpret(text1).req, env.sendFirstTime(true));
      var m2 := PrimedMessage(Interpret(text2).req, env.sendFirstTime(false));
      && t.sessions == s.sessions[IdentityKey(src) := n]
      && t.chat.forwarded == s.chat.forwarded + [(n, m1), (n, m2)]
      && |t.outbox| == |s.outbox| + 2
      && t.outbox[|s.outbox| + 1] == Reply(t2, ResponseText(env.model(n, [m1, m2]).candidates))
  {
    var e1 := MessageEvent(t1, src, TextMessage(text1));
    var e2 := MessageEvent(t2, src, TextMessage(text2));
    var key := IdentityKey(src);
    var n := s.chat.nextId;
    var m1 := PrimedMessage(Interpret(text1).req, env.sendFirstTime(true));
    ContentStep(env, s, t1, src, text1);
    var (s1, _) := Step(env, s, e1);
    TranscriptOfUnstarted(s.chat.forwarded, n);
    assert s1.sessions == s.sessions[key := n];
    assert s1.chat.forwarded == s.chat.forwarded + [(n, m1)];
    ContentStep(env, s1, t2, src, text2);
    TranscriptAppend(s.chat.forwarded, n, n, m1);
    assert Transcript(s1.chat.forwarded, n) == [m1];
    assert [e1, e2][1..] == [e2];
    assert Run(env, s1, [e2]) == Step(env, s1, e2).0;
    var m2 := PrimedMessage(Interpret(text2).req, env.sendFirstTime(false));
    assert [m1] + [m2] == [m1, m2];
    var t := Step(env, s1, e2).0;
    assert t.outbox == s1.outbox + [Reply(t2, ReplyBody(ResponseText(env.model(n, [m1, m2]).candidates), false))];
    assert Run(env, s, [e1, e2]) == t;
  }

  // ---------------------------------------------------------------------------
  // The handler
  // ---------------------------------------------------------------------------

  /** callbackHandler with its global session map, the chat client and the reply API. */
  class Bot {
    var sessions: map<string, SessionId>
    var outbox: seq<Reply>
    const chat: ChatService
    const sendFirstTime: bool -> bool
    const describe: string -> Result<string, string>

    function Environment(): Env
    {
      Env(chat.model, sendFirstTime, describe)
    }

    function State(): BotState
      reads this, chat
    {
      BotState(sessions, chat.Value(), outbox)
    }

    ghost predicate Valid()
      reads this, chat
    {
      Consistent(State())
    }

    constructor (model: (SessionId, seq<string>) -> Response, sendFirstTime: bool -> bool,
                 describe: string -> Result<string, string>)
      ensures Valid() && fresh(chat)
      ensures State() == BotState(map[], Chat(0, []), [])
      ensures chat.model == model && this.sendFirstTime == sendFirstTime && this.describe == describe
    {
      sessions, outbox := map[], [];
      chat := new ChatService(model);
      this.sendFirstTime, this.describe := sendFirstTime, describe;
    }

    /** replyText: one reply, primed when firstTime. */
    method ReplyText(replyToken: string, text: string, firstTime: bool)
      modifies this
      ensures outbox == old(outbox) + [Reply(replyToken, ReplyBody(text, firstTime))]
      ensures sessions == old(sessions)
    {
      var body := text;
      if firstTime {
        body := ReplyPriming + body;
      }
      outbox := outbox + [Reply(replyToken, body)];
    }

    /** The body of the handler's loop for one event; `stop` is true where the handler returns. */
    method HandleEvent(e: Event) returns (stop: bool)
      modifies this, chat
      ensures (State(), stop) == Step(Environment(), old(State()), e)
    {
      match e
      case MessageEvent(token, src, message) =>
        match message {
        case TextMessage(text) =>
          if !StartsWith(text, Sentinel) {
            return true;
          }
          var req := text[|Sentinel|..];
          var key := IdentityKey(src);
          var ok := key in sessions;
          var cs: SessionId;
          if ok {
            cs := sessions[key];
            assert sessions[key := cs] == sessions;
          } else {
            cs := chat.StartNewChatSession();
            sessions := sessions[key := cs];
          }
          if IsReset(req) {
            var firstTime := !ok;
            cs := chat.StartNewChatSession();
            sessions := sessions[key := cs];
            ReplyText(token, Greeting, firstTime);
            return true;
          }
          var res := chat.Send(Some(cs), req, sendFirstTime(!ok));
          var ret := PrintResponse(res);
          ReplyText(token, ret, !ok);
          return false;
        case StickerMessage(id, pkg, keywords, text) =>
          var kw := JoinKeywords(keywords);
          ReplyText(token, StickerSummary(id, pkg, kw, text), false);
          return false;
        case ImageMessage(id) =>
          var ret := ImageReplyText(describe(id));
          ReplyText(token, ret, false);
          return false;
        case VideoMessage(_) =>
          return false;
        case OtherMessage =>
          return false;
        }
      case FollowEvent =>
        return false;
      case PostbackEvent(_) =>
        return false;
      case BeaconEvent(_) =>
        return false;
      case OtherEvent =>
        return false;
    }

    /** The loop over the batch; a return inside it ends the whole batch. */
    method HandleBatch(events: seq<Event>)
      requires Valid()
      modifies this, chat
      ensures Valid()
      ensures State() == Run(Environment(), old(State()), events)
    {
      for i := 0 to |events|
        invariant Valid()
        invariant Run(Environment(), State(), events[i..]) == Run(Environment(), old(State()), events)
      {
        assert events[i..][0] == events[i] && events[i..][1..] == events[i + 1..];
        var stop := HandleEvent(events[i]);
        if stop {
          return;
        }
      }
    }
  }
}
