/**
  The inbound side of the LINE webhook handler (main.go): the shape of the
  events it receives, how a text payload is recognised as a command, how the
  identity key is derived from an event's source, and the texts it replies with.
*/
module Events {
  import opened Wrappers

  /** Where an event came from; UnknownSource stands for a nil or unsupported source. */
  datatype Source =
    | UserSource(userId: string)
    | GroupSource(groupId: string, userId: string)
    | RoomSource(roomId: string, userId: string)
    | UnknownSource

  /** The message carried by a MessageEvent. */
  datatype MessageContent =
    | TextMessage(text: string)
    | StickerMessage(stickerId: string, packageId: string, keywords: seq<string>, text: string)
    | ImageMessage(id: string)
    | VideoMessage(id: string)
    | OtherMessage

  /** A webhook event; OtherEvent is every event type the handler's switch has no case for. */
  datatype Event =
    | MessageEvent(replyToken: string, source: Source, message: MessageContent)
    | FollowEvent
    | PostbackEvent(data: string)
    | BeaconEvent(hwid: string)
    | OtherEvent

  /** One call of the reply API: the event's reply token and the text of the single text message. */
  datatype Reply = Reply(token: string, text: string)

  const Sentinel := "@#"
  const ReplyPriming := "You are a helpful assistant with precise and logical thinking. "
  const Greeting := "很高興初次見到你，我是Gemini，請問有什麼想了解的嗎？"
  const ImageFallback := "無法辨識圖片內容，請重新輸入:"
  const StickerLead := "收到貼圖訊息: "
  const PackageLabel := ", pkg: "
  const KeywordsLabel := " kw: "
  const TextLabel := "  text: "

  // ---------------------------------------------------------------------------
  // Command recognition
  // ---------------------------------------------------------------------------

  /**
    `c` equals the lower-case ASCII letter `lower` under Go's simple case
    folding: the letter, its upper-case form, or one of the two non-ASCII
    runes whose folding orbit contains an ASCII letter (U+017F with 's',
    U+212A with 'k').
  */
  predicate FoldsTo(c: char, lower: char)
    requires 'a' <= lower <= 'z'
  {
    || c == lower
    || c as int == lower as int - 32
    || (lower == 's' && c == '\U{017F}')
    || (lower == 'k' && c == '\U{212A}')
  }

  /** strings.EqualFold(req, "reset"): rune by rune, the same number of runes. */
  predicate IsReset(req: string)
  {
    && |req| == 5
    && FoldsTo(req[0], 'r') && FoldsTo(req[1], 'e') && FoldsTo(req[2], 's')
    && FoldsTo(req[3], 'e') && FoldsTo(req[4], 't')
  }

  /** What the handler makes of a text payload. */
  datatype Command = Ignored | Reset | Content(req: string)

  /**
    HasPrefix/TrimPrefix followed by the EqualFold test: text without the
    sentinel is ignored; otherwise exactly one leading sentinel is removed and
    the remainder is either the reset command or content to forward.
  */
  function Interpret(text: string): (c: Command)
    ensures c.Ignored? <==> !StartsWith(text, Sentinel)
    ensures c.Reset? <==> StartsWith(text, Sentinel) && IsReset(text[|Sentinel|..])
    ensures c.Content? ==> Sentinel + c.req == text && !IsReset(c.req)
  {
    if !StartsWith(text, Sentinel) then Ignored
    else
      var req := text[|Sentinel|..];
      assert Sentinel + req == text;
      if IsReset(req) then Reset else Content(req)
  }

  /** Only one leading sentinel is removed; the reset test ignores case, Unicode folding included. */
  lemma InterpretExamples()
    ensures Interpret("hello") == Ignored
    ensures Interpret("@#reset") == Reset
    ensures Interpret("@#RESET") == Reset
    ensures Interpret("@#re\U{017F}et") == Reset
    ensures Interpret("@#hi there") == Content("hi there")
    ensures Interpret("@#@#x") == Content("@#x")
    ensures Interpret("@#reset ") == Content("reset ")
  {
    assert "hello"[..2] != Sentinel by { assert "hello"[0] == 'h'; }
    assert "@#@#x"[2..] == "@#x";
    assert "@#hi there"[2..] == "hi there";
    assert "@#reset "[2..] == "reset ";
  }

  function AsciiLower(c: char): char
  {
    if 'A' <= c <= 'Z' then (c as int + 32) as char else c
  }

  /** On ASCII input the reset test is plain case-insensitive comparison with "reset". */
  lemma IsResetOnAscii(req: string)
    requires forall i :: 0 <= i < |req| ==> req[i] as int < 128
    ensures IsReset(req) <==> (|req| == 5 && forall i :: 0 <= i < 5 ==> AsciiLower(req[i]) == "reset"[i])
  {
  }

  // ---------------------------------------------------------------------------
  // Identity key
  // ---------------------------------------------------------------------------

  /** The key into the session map: the source's UserId field for all three supported kinds, "" otherwise. */
  function IdentityKey(src: Source): (key: string)
    ensures src.UnknownSource? ==> key == ""
    ensures !src.UnknownSource? ==> key == src.userId
  {
    match src
    case UserSource(u) => u
    case GroupSource(_, u) => u
    case RoomSource(_, u) => u
    case UnknownSource => ""
  }

  // ---------------------------------------------------------------------------
  // Reply texts
  // ---------------------------------------------------------------------------

  /** The text replyText sends: primed with ReplyPriming exactly when firstTime. */
  function ReplyBody(text: string, firstTime: bool): (r: string)
    ensures firstTime ==> StartsWith(r, ReplyPriming) && r[|ReplyPriming|..] == text
    ensures !firstTime ==> r == text
  {
    if firstTime then ReplyPriming + text else text
  }

  /** When the text does not itself begin with the preamble, the preamble in the reply reveals firstTime. */
  lemma ReplyPrimedIff(text: string, firstTime: bool)
    requires !StartsWith(text, ReplyPriming)
    ensures StartsWith(ReplyBody(text, firstTime), ReplyPriming) <==> firstTime
  {
  }

  /** The keyword list the sticker loop accumulates: `kw = kw + "," + k` for each keyword in order. */
  function KeywordsText(ks: seq<string>): string
  {
    if ks == [] then "" else KeywordsText(ks[..|ks| - 1]) + "," + ks[|ks| - 1]
  }

  /** Reference reading of the keyword list: every keyword preceded by one comma, front to back. */
  function CommaEach(ks: seq<string>): (r: string)
    ensures ks == [] ==> r == ""
    ensures ks != [] ==> |r| > 0 && r[0] == ','
  {
    if ks == [] then "" else "," + ks[0] + CommaEach(ks[1..])
  }

  lemma {:induction false} CommaEachAppend(ks: seq<string>, k: string)
    ensures CommaEach(ks + [k]) == CommaEach(ks) + "," + k
  {
    if ks != [] {
      assert (ks + [k])[1..] == ks[1..] + [k];
      CommaEachAppend(ks[1..], k);
    }
  }

  /** The accumulated keyword list is exactly each keyword preceded by ",", and "" when there are none. */
  lemma {:induction false} KeywordsTextIsCommaEach(ks: seq<string>)
    ensures KeywordsText(ks) == CommaEach(ks)
  {
    if ks != [] {
      var init := ks[..|ks| - 1];
      KeywordsTextIsCommaEach(init);
      CommaEachAppend(init, ks[|ks| - 1]);
      assert init + [ks[|ks| - 1]] == ks;
    }
  }

  /** The sticker loop of the handler. */
  method JoinKeywords(ks: seq<string>) returns (kw: string)
    ensures kw == KeywordsText(ks)
  {
    kw := "";
    for i := 0 to |ks|
      invariant kw == KeywordsText(ks[..i])
    {
      assert ks[..i + 1][..i] == ks[..i];
      kw := kw + "," + ks[i];
    }
    assert ks[..|ks|] == ks;
  }

  /** `s[at..]` begins with `sub`. */
  predicate OccursAt(sub: string, s: string, at: nat)
  {
    at + |sub| <= |s| && s[at..at + |sub|] == sub
  }

  /**
    The fmt.Sprintf of the sticker reply: it shows the sticker id, the package
    id, the keyword list and the sticker text, in that order, at the positions
    the format string puts them.
  */
  function StickerSummary(stickerId: string, packageId: string, kw: string, text: string): (r: string)
    ensures var p := |StickerLead| + |stickerId| + |PackageLabel|;
      var k := p + |packageId| + |KeywordsLabel|;
      var t := k + |kw| + |TextLabel|;
      && StartsWith(r, StickerLead)
      && OccursAt(stickerId, r, |StickerLead|)
      && OccursAt(packageId, r, p)
      && OccursAt(kw, r, k)
      && OccursAt(text, r, t)
      && t + |text| == |r|
  {
    StickerLead + stickerId + PackageLabel + packageId + KeywordsLabel + kw + TextLabel + text
  }

  /** The reply for an image: the description, or the fallback text followed by the error. */
  function ImageReplyText(described: Result<string, string>): (r: string)
    ensures described.Success? ==> r == described.value
    ensures described.Failure? ==> StartsWith(r, ImageFallback) && r[|ImageFallback|..] == described.error
  {
    match described
    case Success(d) => d
    case Failure(err) => ImageFallback + err
  }
}
