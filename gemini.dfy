/**
  The chat side of the bot (gemini.go): the chat service that hands out
  sessions and answers the messages sent to them, `send` with its priming
  rule and nil-session fallback, and `printResponse`.

  The generative model itself is opaque: it is the `model` function of a
  ChatService, which answers a session given everything that session has
  been sent so far.
*/
module Gemini {
  import opened Wrappers

  /** A chat session handle; sessions are numbered in the order they are started. */
  type SessionId = nat

  /** One part of a candidate, represented by its `%v` rendering. */
  datatype Part = Part(shown: string)

  datatype Candidate = Candidate(parts: seq<Part>)

  datatype Response = Response(candidates: seq<Candidate>)

  const SendPriming := "I am a helpful assistant with precise and logical thinking."

  // ---------------------------------------------------------------------------
  // send
  // ---------------------------------------------------------------------------

  /** The message `send` passes on: SendPriming glued to the front when firstTime, no separator. */
  function PrimedMessage(msg: string, firstTime: bool): (m: string)
    ensures firstTime ==> StartsWith(m, SendPriming) && m[|SendPriming|..] == msg
    ensures !firstTime ==> m == msg
  {
    if firstTime then SendPriming + msg else msg
  }

  /** When msg does not itself begin with the preamble, the preamble in what is sent reveals firstTime. */
  lemma SendPrimedIff(msg: string, firstTime: bool)
    requires !StartsWith(msg, SendPriming)
    ensures StartsWith(PrimedMessage(msg, firstTime), SendPriming) <==> firstTime
  {
  }

  /** The messages a session has been sent, oldest first. */
  function Transcript(log: seq<(SessionId, string)>, id: SessionId): seq<string>
  {
    if log == [] then []
    else
      var last := log[|log| - 1];
      Transcript(log[..|log| - 1], id) + (if last.0 == id then [last.1] else [])
  }

  lemma TranscriptAppend(log: seq<(SessionId, string)>, id: SessionId, other: SessionId, m: string)
    ensures Transcript(log + [(id, m)], id) == Transcript(log, id) + [m]
    ensures other != id ==> Transcript(log + [(id, m)], other) == Transcript(log, other)
  {
  }

  /** The state of the chat service: the next fresh session id and every message sent so far, in order. */
  datatype Chat = Chat(nextId: SessionId, forwarded: seq<(SessionId, string)>)

  /** Every message went to a session that had been started. */
  ghost predicate Issued(c: Chat)
  {
    forall j :: 0 <= j < |c.forwarded| ==> c.forwarded[j].0 < c.nextId
  }

  /** startNewChatSession: a session distinct from every one started before; nothing is sent. */
  function Start(c: Chat): (r: (Chat, SessionId))
    ensures r.0.forwarded == c.forwarded
    ensures c.nextId <= r.1 < r.0.nextId
    ensures Issued(c) ==> Issued(r.0) && forall j :: 0 <= j < |c.forwarded| ==> c.forwarded[j].0 != r.1
  {
    (c.(nextId := c.nextId + 1), c.nextId)
  }

  /**
    send(cs, msg, firstTime): a nil session is first replaced by a fresh one;
    exactly one message, primed as firstTime says, goes to the session, and the
    result is the model's answer to that session's conversation so far.
  */
  function SendOn(model: (SessionId, seq<string>) -> Response, c: Chat, cs: Option<SessionId>,
                  msg: string, firstTime: bool): (r: (Chat, Response))
    ensures cs.Some? ==> r.0.nextId == c.nextId
    ensures cs.None? ==> r.0.nextId == c.nextId + 1
    ensures var id := if cs.Some? then cs.value else c.nextId;
      && r.0.forwarded == c.forwarded + [(id, PrimedMessage(msg, firstTime))]
      && r.1 == model(id, Transcript(c.forwarded, id) + [PrimedMessage(msg, firstTime)])
    ensures Issued(c) && (cs.Some? ==> cs.value < c.nextId) ==> Issued(r.0)
  {
    var (c1, id) := if cs.None? then Start(c) else (c, cs.value);
    var forwarded := c1.forwarded + [(id, PrimedMessage(msg, firstTime))];
    TranscriptAppend(c1.forwarded, id, id, PrimedMessage(msg, firstTime));
    (c1.(forwarded := forwarded), model(id, Transcript(forwarded, id)))
  }

  /** The generative-model client: a fresh-id counter, the log of sent messages, and the opaque model. */
  class ChatService {
    var nextId: SessionId
    var forwarded: seq<(SessionId, string)>
    const model: (SessionId, seq<string>) -> Response

    function Value(): Chat
      reads this
    {
      Chat(nextId, forwarded)
    }

    constructor (model: (SessionId, seq<string>) -> Response)
      ensures this.model == model && Value() == Chat(0, [])
    {
      this.model := model;
      nextId, forwarded := 0, [];
    }

    method StartNewChatSession() returns (id: SessionId)
      modifies this
      ensures (Value(), id) == Start(old(Value()))
    {
      id := nextId;
      nextId := nextId + 1;
    }

    method Send(cs: Option<SessionId>, msg: string, firstTime: bool) returns (res: Response)
      modifies this
      ensures (Value(), res) == SendOn(model, old(Value()), cs, msg, firstTime)
    {
      var session: SessionId;
      if cs.None? {
        session := StartNewChatSession();
      } else {
        session := cs.value;
      }
      var m := msg;
      if firstTime {
        m := SendPriming + m;
      }
      forwarded := forwarded + [(session, m)];
      res := model(session, Transcript(forwarded, session));
    }
  }

  // ---------------------------------------------------------------------------
  // printResponse
  // ---------------------------------------------------------------------------

  /** The renderings of the parts, concatenated in order (the inner loop). */
  function PartsText(parts: seq<Part>): string
  {
    if parts == [] then "" else PartsText(parts[..|parts| - 1]) + parts[|parts| - 1].shown
  }

  /** The text of all candidates in order (the outer loop). */
  function ResponseText(cands: seq<Candidate>): string
  {
    if cands == [] then "" else ResponseText(cands[..|cands| - 1]) + PartsText(cands[|cands| - 1].parts)
  }

  /** Every part of every candidate, candidates in order and parts in order within each. */
  function AllParts(cands: seq<Candidate>): seq<Part>
  {
    if cands == [] then [] else cands[0].parts + AllParts(cands[1..])
  }

  lemma {:induction false} PartsTextAppend(a: seq<Part>, b: seq<Part>)
    ensures PartsText(a + b) == PartsText(a) + PartsText(b)
  {
    if b == [] {
      assert a + b == a;
    } else {
      assert (a + b)[..|a + b| - 1] == a + b[..|b| - 1];
      PartsTextAppend(a, b[..|b| - 1]);
    }
  }

  lemma {:induction false} AllPartsAppend(cands: seq<Candidate>, c: Candidate)
    ensures AllParts(cands + [c]) == AllParts(cands) + c.parts
  {
    if cands == [] {
      assert AllParts([c]) == c.parts + AllParts([]);
    } else {
      assert (cands + [c])[1..] == cands[1..] + [c];
      AllPartsAppend(cands[1..], c);
    }
  }

  /** printResponse is the concatenation of every part's rendering, with no separators. */
  lemma {:induction false} ResponseTextIsAllParts(cands: seq<Candidate>)
    ensures ResponseText(cands) == PartsText(AllParts(cands))
  {
    if cands != [] {
      var init, last := cands[..|cands| - 1], cands[|cands| - 1];
      ResponseTextIsAllParts(init);
      AllPartsAppend(init, last);
      assert init + [last] == cands;
      PartsTextAppend(AllParts(init), last.parts);
    }
  }

  lemma {:induction false} PartsTextEmptyIff(parts: seq<Part>)
    ensures PartsText(parts) == "" <==> forall i :: 0 <= i < |parts| ==> parts[i].shown == ""
  {
    if parts != [] {
      PartsTextEmptyIff(parts[..|parts| - 1]);
      assert forall i :: 0 <= i < |parts| - 1 ==> parts[..|parts| - 1][i] == parts[i];
    }
  }

  /** The text is empty exactly when every part renders empty; in particular with no candidates or no parts. */
  lemma ResponseTextEmptyIff(cands: seq<Candidate>)
    ensures ResponseText(cands) == "" <==> forall p :: p in AllParts(cands) ==> p.shown == ""
  {
    ResponseTextIsAllParts(cands);
    PartsTextEmptyIff(AllParts(cands));
  }

  lemma {:induction false} NoPartsNoText(cands: seq<Candidate>)
    requires forall i :: 0 <= i < |cands| ==> cands[i].parts == []
    ensures ResponseText(cands) == ""
  {
    if cands != [] {
      NoPartsNoText(cands[..|cands| - 1]);
    }
  }

  method PrintResponse(resp: Response) returns (ret: string)
    ensures ret == ResponseText(resp.candidates)
  {
    ret := "";
    var cands := resp.candidates;
    for i := 0 to |cands|
      invariant ret == ResponseText(cands[..i])
    {
      var parts := cands[i].parts;
      for j := 0 to |parts|
        invariant ret == ResponseText(cands[..i]) + PartsText(parts[..j])
      {
        assert parts[..j + 1][..j] == parts[..j];
        ret := ret + parts[j].shown;
      }
      assert parts[..|parts|] == parts;
      assert cands[..i + 1][..i] == cands[..i];
    }
    assert cands[..|cands|] == cands;
  }
}
