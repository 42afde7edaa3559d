// What an OpenAI upstream reads in the messages sent to it: who speaks, the words and
// pictures in order, the calls made and the call answered; and that this is what the
// Anthropic conversation says.
module Readings {
  import opened Wrappers
  import opened JsonValue
  import opened Machine
  import Q = Request

  // ----- the reader of OpenAI messages -----

  // `Wordless` is a text part whose text is no string, `Odd` a content that is neither a
  // string nor a list nor null.
  datatype Piece = Words(text: string) | Picture(url: string) | Wordless(value: Json) | Odd(value: Json)

  datatype Call = Call(index: int, id: string, name: string, arguments: string)

  datatype Reading = Reading(role: string, pieces: seq<Piece>, calls: seq<Call>, answers: Option<string>)

  function TextPiece(text: Json): Piece {
    if text.Str? then Words(text.s) else Wordless(text)
  }

  function ReadPart(p: Json): Piece {
    if p.GetStr("type") == Some("image_url") then Picture(p.GetOrNull("image_url").GetStr("url").GetOr(""))
    else TextPiece(p.GetOrNull("text"))
  }

  function ReadParts(parts: seq<Json>): seq<Piece> {
    seq(|parts|, i requires 0 <= i < |parts| => ReadPart(parts[i]))
  }

  function ReadContent(content: Json): seq<Piece> {
    match content
    case Null => []
    case Str(s) => [Words(s)]
    case Arr(parts) => ReadParts(parts)
    case _ => [Odd(content)]
  }

  function ReadCall(c: Json): Call {
    var fn := if c.GetStr("type") == Some("function") then c.GetOrNull("function") else Null;
    var index := if c.Get("index").Some? && c.Get("index").value.Int? then c.Get("index").value.n else -1;
    Call(index, c.GetStr("id").GetOr("?"), fn.GetStr("name").GetOr("?"), fn.GetStr("arguments").GetOr("?"))
  }

  function ReadCalls(calls: seq<Json>): seq<Call> {
    seq(|calls|, i requires 0 <= i < |calls| => ReadCall(calls[i]))
  }

  function Read(m: Json): Reading {
    Reading(
      m.GetStr("role").GetOr("?"), ReadContent(m.GetOrNull("content")),
      ReadCalls(m.GetArr("tool_calls").GetOr([])), m.GetStr("tool_call_id"))
  }

  function ReadAll(messages: seq<Json>): seq<Reading> {
    seq(|messages|, i requires 0 <= i < |messages| => Read(messages[i]))
  }

  // ----- what an Anthropic conversation says -----

  datatype Kind = Text | Image | Thought | ToolUse | ToolResult | Unknown

  // A block that names no type counts as text.
  function KindOf(b: Json): Kind {
    match b.Get("type")
    case Some(Str(t)) =>
      if t == "text" then Text
      else if t == "image" then Image
      else if t == "thinking" || t == "redacted_thinking" then Thought
      else if t == "tool_use" then ToolUse
      else if t == "tool_result" then ToolResult
      else Unknown
    case _ => Text
  }

  predicate NamesText(b: Json) {
    b.Get("type") == Some(Str("text"))
  }

  // Texts on lines of their own.
  function Lined(texts: seq<string>): string {
    if texts == [] then ""
    else if |texts| == 1 then texts[0]
    else Lined(texts[..|texts| - 1]) + "\n" + texts[|texts| - 1]
  }

  function TextOf(b: Json): seq<string> {
    match b.Get("text")
    case Some(Str(t)) => [t]
    case _ => []
  }

  function Texts(blocks: seq<Json>): seq<string> {
    FlatMap((b: Json) => if KindOf(b) == Text then TextOf(b) else [], blocks)
  }

  // Where only blocks that name themselves text count.
  function NamedTexts(blocks: seq<Json>): seq<string> {
    FlatMap((b: Json) => if NamesText(b) then TextOf(b) else [], blocks)
  }

  function Flat(content: Json): string {
    match content
    case Str(s) => s
    case Arr(blocks) => Lined(NamedTexts(blocks))
    case _ => ""
  }

  function Url(b: Json): string {
    var source := b.GetOrNull("source");
    "data:" + source.GetStr("media_type").GetOr("image/png") + ";base64," + source.GetStr("data").GetOr("")
  }

  function Uncached(b: Json): Json {
    if b.Obj? then Obj(map k | k in b.fields && k != "cache_control" :: b.fields[k]) else b
  }

  // A block of a turn: a thought is not sent, what OpenAI has no word for is printed.
  function Pieces(show: Q.JsonPrinter, b: Json): seq<Piece> {
    match KindOf(b)
    case Text => [TextPiece(b.GetOrNull("text"))]
    case Image => [Picture(Url(b))]
    case Thought => []
    case ToolResult => [Words(Flat(b.GetOrNull("content")))]
    case _ => [Words(show(Uncached(b)))]
  }

  function AllPieces(show: Q.JsonPrinter, blocks: seq<Json>): seq<Piece> {
    FlatMap((b: Json) => Pieces(show, b), blocks)
  }

  // A block of a tool result: everything but text and images is printed.
  function ResultPiece(show: Q.JsonPrinter, b: Json): Piece {
    match KindOf(b)
    case Text => TextPiece(b.GetOrNull("text"))
    case Image => Picture(Url(b))
    case _ => Words(show(b))
  }

  function ResultPieces(show: Q.JsonPrinter, content: Json): seq<Piece> {
    match content
    case Str(s) => [Words(s)]
    case Arr(blocks) => seq(|blocks|, i requires 0 <= i < |blocks| => ResultPiece(show, blocks[i]))
    case _ => [Words("")]
  }

  // A tool result; a failed one is marked if it is nothing but words.
  function Answer(show: Q.JsonPrinter, b: Json): Reading {
    var pieces := ResultPieces(show, b.GetOrNull("content"));
    var marked := b.Get("is_error") == Some(Bool(true)) && |pieces| == 1 && pieces[0].Words?;
    Reading("tool", if marked then [Words("Error: " + pieces[0].text)] else pieces, [], Some(b.GetStr("tool_use_id").GetOr("")))
  }

  function Answers(show: Q.JsonPrinter, results: seq<Json>): seq<Reading> {
    seq(|results|, i requires 0 <= i < |results| => Answer(show, results[i]))
  }

  function CallOf(show: Q.JsonPrinter, b: Json, index: nat): Call {
    Call(index, b.GetStr("id").GetOr(""), b.GetStr("name").GetOr(""), show(b.Get("input").GetOr(Obj(map[]))))
  }

  function OfKind(blocks: seq<Json>, kind: Kind): seq<Json> {
    FlatMap((b: Json) => if KindOf(b) == kind then [b] else [], blocks)
  }

  function NotOfKind(blocks: seq<Json>, kind: Kind): seq<Json> {
    FlatMap((b: Json) => if KindOf(b) == kind then [] else [b], blocks)
  }

  // A turn of blocks that stays one message.
  function Speech(show: Q.JsonPrinter, role: string, blocks: seq<Json>): Reading {
    var pieces := if forall b :: b in blocks ==> NamesText(b) then [Words(Lined(Texts(blocks)))] else AllPieces(show, blocks);
    Reading(role, pieces, [], None)
  }

  function AssistantSays(show: Q.JsonPrinter, blocks: seq<Json>): seq<Reading> {
    var uses, aloud := OfKind(blocks, ToolUse), NotOfKind(blocks, Thought);
    if uses != [] then
      var words := if Texts(blocks) == [] then [] else [Words(Lined(Texts(blocks)))];
      [Reading("assistant", words, seq(|uses|, i requires 0 <= i < |uses| => CallOf(show, uses[i], i)), None)]
    else if aloud == [] then []
    else [Speech(show, "assistant", aloud)]
  }

  // Results answer first, the rest follows.
  function OthersSay(show: Q.JsonPrinter, role: string, blocks: seq<Json>): seq<Reading> {
    var results, rest := OfKind(blocks, ToolResult), AllPieces(show, NotOfKind(blocks, ToolResult));
    if results == [] then [Speech(show, role, blocks)]
    else Answers(show, results) + if rest == [] then [] else [Reading("user", rest, [], None)]
  }

  function TurnSays(show: Q.JsonPrinter, turn: Json): seq<Reading> {
    var role := turn.GetStr("role").GetOr("user");
    match turn.Get("content")
    case Some(Arr(blocks)) => if role == "assistant" then AssistantSays(show, blocks) else OthersSay(show, role, blocks)
    case Some(Str(s)) => [Reading(role, [Words(s)], [], None)]
    case Some(Null) => [Reading(role, [], [], None)]
    case Some(v) => [Reading(role, [Odd(v)], [], None)]
    case None => [Reading(role, [Words("")], [], None)]
  }

  function SystemSays(anthropic: Json): seq<Reading> {
    var text := Flat(anthropic.GetOrNull("system"));
    if text == "" then [] else [Reading("system", [Words(text)], [], None)]
  }

  function ConversationSays(show: Q.JsonPrinter, anthropic: Json): seq<Reading> {
    SystemSays(anthropic) + FlatMap((turn: Json) => TurnSays(show, turn), anthropic.GetArr("messages").GetOr([]))
  }

  // ----- the two agree -----

  lemma {:induction false} JoinsLines(texts: seq<string>)
    ensures Join(texts, "\n") == Lined(texts)
  {
    if |texts| >= 2 {
      JoinsLines(texts[..|texts| - 1]);
      JoinLast(texts[..|texts| - 1], texts[|texts| - 1]);
      assert texts[..|texts| - 1] + [texts[|texts| - 1]] == texts;
    }
  }

  lemma {:induction false} JoinLast(texts: seq<string>, last: string)
    requires texts != []
    ensures Join(texts + [last], "\n") == Join(texts, "\n") + "\n" + last
  {
    if |texts| == 1 {
      assert (texts + [last])[1..] == [last];
    } else {
      JoinLast(texts[1..], last);
      assert (texts + [last])[1..] == texts[1..] + [last];
      assert texts[0] + "\n" + (Join(texts[1..], "\n") + "\n" + last) == texts[0] + "\n" + Join(texts[1..], "\n") + "\n" + last;
    }
  }

  lemma KindIsType(b: Json)
    ensures (KindOf(b) == ToolUse) == Q.IsToolUse(b)
    ensures (KindOf(b) == ToolResult) == Q.IsToolResult(b)
    ensures (KindOf(b) == Thought) == Q.IsThinking(b)
    ensures (KindOf(b) == Text) == (Q.BlockType(b) == "text")
    ensures (KindOf(b) == Image) == (Q.BlockType(b) == "image")
    ensures NamesText(b) == (b.GetStr("type") == Some("text"))
  {
  }

  lemma {:induction false} SameMap<I, O>(f: I -> seq<O>, g: I -> seq<O>, xs: seq<I>)
    requires forall x :: x in xs ==> f(x) == g(x)
    ensures FlatMap(f, xs) == FlatMap(g, xs)
  {
    if xs != [] {
      assert xs[|xs| - 1] in xs && forall x :: x in xs[..|xs| - 1] ==> x in xs;
      SameMap(f, g, xs[..|xs| - 1]);
    }
  }

  lemma TextsAre(blocks: seq<Json>)
    ensures Texts(blocks) == FlatMap(Q.SaidText, blocks)
    ensures NamedTexts(blocks) == FlatMap(Q.TextOf, blocks)
    ensures OfKind(blocks, ToolUse) == Q.Uses(blocks)
    ensures NotOfKind(blocks, Thought) == Q.WithoutThinking(blocks)
    ensures NotOfKind(blocks, ToolResult) == Q.Others(blocks)
  {
    forall b ensures KindOf(b) == ToolUse <==> Q.IsToolUse(b)
      ensures KindOf(b) == ToolResult <==> Q.IsToolResult(b)
      ensures KindOf(b) == Thought <==> Q.IsThinking(b)
      ensures KindOf(b) == Text <==> Q.BlockType(b) == "text"
      ensures NamesText(b) <==> b.GetStr("type") == Some("text")
    {
      KindIsType(b);
    }
    hide KindOf, Q.BlockType, NamesText, FlatMap, Q.IsToolUse, Q.IsToolResult, Q.IsThinking;
    SameMap((b: Json) => if KindOf(b) == Text then TextOf(b) else [], Q.SaidText, blocks);
    SameMap((b: Json) => if NamesText(b) then TextOf(b) else [], Q.TextOf, blocks);
    SameMap((b: Json) => if KindOf(b) == ToolUse then [b] else [], Q.KeepUse, blocks);
    SameMap((b: Json) => if KindOf(b) == Thought then [] else [b], Q.Unthinking, blocks);
    SameMap((b: Json) => if KindOf(b) == ToolResult then [] else [b], Q.KeepOther, blocks);
  }

  lemma FlatIs(content: Json)
    ensures Flat(content) == Q.ExtractText(content)
  {
    hide FlatMap, Lined, Join;
    if content.Arr? {
      TextsAre(content.items);
      JoinsLines(NamedTexts(content.items));
    }
  }

  lemma ReadsTextPart(text: Json)
    ensures ReadPart(Q.TextPart(text)) == TextPiece(text)
  {
  }

  lemma ReadsImagePart(b: Json)
    ensures ReadPart(Q.ImagePart(b)) == Picture(Url(b))
  {
    var m := Q.ImagePart(b);
    assert m.GetStr("type") == Some("image_url");
    assert m.GetOrNull("image_url").GetStr("url").Some?;
  }

  lemma StripKeeps(b: Json)
    ensures var s := Q.StripCacheControl(b);
            && Uncached(b) == s && KindOf(s) == KindOf(b) && Url(s) == Url(b)
            && s.GetOrNull("text") == b.GetOrNull("text") && s.GetOrNull("content") == b.GetOrNull("content")
  {
    if b.Obj? {
      assert Uncached(b).fields == Q.StripCacheControl(b).fields;
    }
  }

  lemma ReadOne(p: Json)
    ensures ReadParts([p]) == [ReadPart(p)] && ReadParts([]) == []
  {
  }

  lemma ReadsPart(show: Q.JsonPrinter, b: Json)
    requires KindOf(b) != ToolResult
    ensures ReadParts(Q.Part(show, b)) == Pieces(show, b)
  {
    var s := Q.StripCacheControl(b);
    StripKeeps(b);
    KindIsType(s);
    ReadsTextPart(s.GetOrNull("text"));
    ReadsImagePart(s);
    ReadsTextPart(Str(show(s)));
    if Q.Part(show, b) != [] {
      ReadOne(Q.Part(show, b)[0]);
    }
    hide ReadPart, Q.TextPart, Q.ImagePart, Url, Q.StripCacheControl, Uncached;
  }

  lemma ReadsMessagePart(show: Q.JsonPrinter, b: Json)
    ensures ReadParts(Q.MessagePart(show, b)) == Pieces(show, b)
  {
    hide Q.Part, ReadPart, Q.TextPart, Q.StripCacheControl;
    var s := Q.StripCacheControl(b);
    StripKeeps(b);
    KindIsType(s);
    if KindOf(b) == ToolResult {
      FlatIs(s.GetOrNull("content"));
      ReadsTextPart(Str(Q.ExtractText(s.GetOrNull("content"))));
      ReadOne(Q.MessagePart(show, b)[0]);
    } else {
      ReadsPart(show, b);
    }
    hide KindOf, Flat, Q.ExtractText;
  }

  lemma ReadsTwo(a: seq<Json>, b: seq<Json>)
    ensures ReadParts(a + b) == ReadParts(a) + ReadParts(b)
  {
    hide ReadPart;
  }

  lemma {:induction false} ReadsMessageParts(show: Q.JsonPrinter, blocks: seq<Json>)
    ensures ReadParts(Q.MessageParts(show, blocks)) == AllPieces(show, blocks)
  {
    hide Q.MessagePart, Pieces, ReadPart;
    if blocks != [] {
      var before, b := blocks[..|blocks| - 1], blocks[|blocks| - 1];
      ReadsMessageParts(show, before);
      ReadsMessagePart(show, b);
      ReadsTwo(Q.MessageParts(show, before), Q.MessagePart(show, b));
    }
  }

  lemma {:induction false} ReadsOtherParts(show: Q.JsonPrinter, blocks: seq<Json>)
    requires forall b :: b in blocks ==> KindOf(b) != ToolResult
    ensures ReadParts(Q.Parts(show, blocks)) == AllPieces(show, blocks)
  {
    hide Q.Part, Pieces, ReadPart, KindOf;
    if blocks != [] {
      var before, b := blocks[..|blocks| - 1], blocks[|blocks| - 1];
      assert b in blocks && forall x :: x in before ==> x in blocks;
      ReadsOtherParts(show, before);
      ReadsPart(show, b);
      ReadsTwo(Q.Parts(show, before), Q.Part(show, b));
    }
  }

  lemma ReadsResultPart(show: Q.JsonPrinter, b: Json)
    ensures ReadPart(Q.ResultPart(show, b)) == ResultPiece(show, b)
    ensures Q.ResultPart(show, b).GetStr("text") == if ResultPiece(show, b).Words? then Some(ResultPiece(show, b).text) else None
  {
    KindIsType(b);
    hide KindOf, Q.BlockType;
    ReadsTextPart(b.GetOrNull("text"));
    ReadsTextPart(Str(show(b)));
    ReadsImagePart(b);
    hide Url;
  }

  // A content that is one text reads alike in either form.
  lemma ReadsResultContent(show: Q.JsonPrinter, content: Json)
    ensures var c := Q.ResultContent(show, content);
            && ReadContent(c) == ResultPieces(show, content)
            && (c.Str? <==> |ResultPieces(show, content)| == 1 && ResultPieces(show, content)[0].Words?)
  {
    hide ReadPart, Q.ResultPart, ResultPiece;
    if content.Arr? {
      forall i | 0 <= i < |content.items|
        ensures ReadPart(Q.ResultPart(show, content.items[i])) == ResultPiece(show, content.items[i])
      {
        ReadsResultPart(show, content.items[i]);
      }
      if |content.items| == 1 {
        ReadsResultPart(show, content.items[0]);
      }
    }
  }

  lemma ReadsAnswer(show: Q.JsonPrinter, b: Json)
    ensures Read(Q.ToolMessage(show, b)) == Answer(show, b)
  {
    ReadsResultContent(show, b.GetOrNull("content"));
    hide Q.ResultContent, ResultPieces, ReadPart;
    var m := Q.ToolMessage(show, b);
    assert m.GetStr("role") == Some("tool") && m.GetArr("tool_calls").None?;
    assert m.GetStr("tool_call_id") == Some(b.GetStr("tool_use_id").GetOr(""));
  }

  lemma ReadsMessage(role: string, content: Json)
    ensures Read(Q.Message(role, content)) == Reading(role, ReadContent(content), [], None)
  {
    hide ReadContent;
    var m := Q.Message(role, content);
    assert m.GetStr("role") == Some(role) && m.GetArr("tool_calls").None?;
  }

  lemma ReadAllTwo(a: seq<Json>, b: seq<Json>)
    ensures ReadAll(a + b) == ReadAll(a) + ReadAll(b)
  {
    hide Read;
  }

  lemma {:induction false} ReadsAnswers(show: Q.JsonPrinter, blocks: seq<Json>)
    ensures ReadAll(Q.ToolMessages(show, blocks)) == Answers(show, OfKind(blocks, ToolResult))
  {
    hide KindOf, Q.IsToolResult, Q.ToolMessage, Read, Answer;
    if blocks != [] {
      var before, b := blocks[..|blocks| - 1], blocks[|blocks| - 1];
      ReadsAnswers(show, before);
      KindIsType(b);
      ReadsAnswer(show, b);
      ReadAllTwo(Q.ToolMessages(show, before), Q.KeepResult(show, b));
    }
  }

  lemma ReadsFollowUp(show: Q.JsonPrinter, others: seq<Json>)
    requires forall b :: b in others ==> KindOf(b) != ToolResult
    ensures var pieces := AllPieces(show, others);
            ReadAll(Q.FollowUp(show, others)) == if pieces == [] then [] else [Reading("user", pieces, [], None)]
  {
    hide Read, AllPieces, Q.Message, Q.Parts, KindOf, ReadPart;
    ReadsOtherParts(show, others);
    ReadsMessage("user", Arr(Q.Parts(show, others)));
  }

  lemma {:induction false} RestHasNoResults(blocks: seq<Json>)
    ensures forall b :: b in NotOfKind(blocks, ToolResult) ==> KindOf(b) != ToolResult
  {
    hide KindOf;
    if blocks != [] {
      RestHasNoResults(blocks[..|blocks| - 1]);
    }
  }

  lemma PlainTexts(blocks: seq<Json>)
    requires forall b :: b in blocks ==> NamesText(b)
    ensures Texts(blocks) == FlatMap(Q.PlainText, blocks)
  {
    SameMap((b: Json) => if KindOf(b) == Text then TextOf(b) else [], Q.PlainText, blocks);
  }

  lemma AllNamed(blocks: seq<Json>)
    ensures Q.HasNonText(blocks) <==> !forall b :: b in blocks ==> NamesText(b)
  {
    forall b ensures NamesText(b) <==> b.GetStr("type") == Some("text") {
      KindIsType(b);
    }
    hide NamesText;
  }

  lemma ReadsSpeech(show: Q.JsonPrinter, role: string, blocks: seq<Json>)
    ensures Read(Q.PlainMessage(show, role, Some(Arr(blocks)))) == Speech(show, role, blocks)
  {
    hide Read, NamesText, Texts, AllPieces, Q.MessageParts, FlatMap, Join, Lined, ReadParts, Q.HasNonText, Q.PlainText;
    AllNamed(blocks);
    ReadsMessage(role, Q.PlainContent(show, Some(Arr(blocks))));
    if Q.HasNonText(blocks) {
      ReadsMessageParts(show, blocks);
    } else {
      PlainTexts(blocks);
      JoinsLines(Texts(blocks));
    }
  }

  lemma ReadsCall(show: Q.JsonPrinter, b: Json, i: nat)
    ensures ReadCall(Q.ToolCall(show, b, i)) == CallOf(show, b, i)
  {
    var c := Q.ToolCall(show, b, i);
    assert c.Get("function").Some? && c.GetStr("id") == Some(b.GetStr("id").GetOr(""));
    assert c.GetStr("type") == Some("function") && c.Get("index") == Some(Int(i));
  }

  lemma ReadsCalls(show: Q.JsonPrinter, uses: seq<Json>)
    ensures ReadCalls(Q.ToolCalls(show, uses)) == seq(|uses|, i requires 0 <= i < |uses| => CallOf(show, uses[i], i))
  {
    hide ReadCall, CallOf, Q.ToolCall;
    forall i | 0 <= i < |uses|
      ensures ReadCall(Q.ToolCall(show, uses[i], i)) == CallOf(show, uses[i], i)
    {
      ReadsCall(show, uses[i], i);
    }
  }

  lemma ReadsCallsMessage(content: Json, calls: seq<Json>)
    ensures Read(Q.CallsMessage(content, calls)) == Reading("assistant", ReadContent(content), ReadCalls(calls), None)
  {
    hide ReadContent, ReadCalls;
    var m := Q.CallsMessage(content, calls);
    assert m.GetStr("role") == Some("assistant") && m.GetArr("tool_calls") == Some(calls);
  }

  lemma ReadsAssistant(show: Q.JsonPrinter, blocks: seq<Json>)
    ensures ReadAll(Q.ExpandAssistant(show, blocks)) == AssistantSays(show, blocks)
  {
    TextsAre(blocks);
    JoinsLines(Texts(blocks));
    ReadsCallsMessage(Q.SaidContent(Texts(blocks)), Q.ToolCalls(show, Q.Uses(blocks)));
    ReadsCalls(show, Q.Uses(blocks));
    ReadsSpeech(show, "assistant", Q.WithoutThinking(blocks));
    hide Read, Q.CallsMessage, Q.PlainMessage, Q.ToolCalls, ReadCalls, CallOf, Speech, Texts, OfKind, NotOfKind, Q.Uses,
         Q.WithoutThinking, FlatMap, Join, Lined, ReadParts;
  }

  lemma ReadsOthers(show: Q.JsonPrinter, role: string, blocks: seq<Json>)
    ensures ReadAll(Q.ExpandUser(show, role, blocks)) == OthersSay(show, role, blocks)
  {
    hide Read, Answer, Speech, OfKind, NotOfKind, Q.Others, AllPieces, Q.ToolMessages, Q.FollowUp, Q.PlainMessage, KindOf;
    var results, rest := OfKind(blocks, ToolResult), NotOfKind(blocks, ToolResult);
    TextsAre(blocks);
    ReadsAnswers(show, blocks);
    RestHasNoResults(blocks);
    ReadsFollowUp(show, rest);
    ReadsSpeech(show, role, blocks);
    ReadAllTwo(Q.ToolMessages(show, blocks), Q.FollowUp(show, rest));
  }

  // A turn whose content is no list.
  lemma ReadsPlain(show: Q.JsonPrinter, role: string, content: Option<Json>)
    requires content.Some? ==> !content.value.Arr?
    ensures Read(Q.PlainMessage(show, role, content)) ==
            Reading(role, match content case None => [Words("")] case Some(v) => ReadContent(v), [], None)
  {
    hide Q.Message, Read, ReadParts;
    ReadsMessage(role, Q.PlainContent(show, content));
  }

  lemma ReadsTurn(show: Q.JsonPrinter, turn: Json)
    ensures ReadAll(Q.ExpandTurn(show)(turn)) == TurnSays(show, turn)
  {
    hide Q.ExpandAssistant, Q.ExpandUser, AssistantSays, OthersSay, ReadParts, Q.PlainMessage, Read;
    var role, content := Q.Role(turn), turn.Get("content");
    if content.Some? && content.value.Arr? {
      ReadsAssistant(show, content.value.items);
      ReadsOthers(show, role, content.value.items);
    } else {
      ReadsPlain(show, role, content);
    }
  }

  lemma ReadsSystem(anthropic: Json)
    ensures ReadAll(Q.SystemMessages(anthropic)) == SystemSays(anthropic)
  {
    hide Flat, Q.ExtractText, Q.Message, Read;
    var system := anthropic.GetOrNull("system");
    FlatIs(system);
    ReadsMessage("system", Str(Flat(system)));
    NoSystem();
  }

  lemma NoSystem()
    ensures Flat(Null) == ""
  {
  }

  lemma {:induction false} ReadsTurns(show: Q.JsonPrinter, turns: seq<Json>)
    ensures ReadAll(FlatMap(Q.ExpandTurn(show), turns)) == FlatMap((turn: Json) => TurnSays(show, turn), turns)
  {
    hide Q.ExpandTurn, TurnSays, Read;
    if turns != [] {
      var before, turn := turns[..|turns| - 1], turns[|turns| - 1];
      ReadsTurns(show, before);
      ReadsTurn(show, turn);
      ReadAllTwo(FlatMap(Q.ExpandTurn(show), before), Q.ExpandTurn(show)(turn));
    }
  }

  // The upstream reads, message for message, what the conversation says: nothing is lost,
  // added, reordered or put into another's mouth.
  lemma ReadsWhatIsSaid(show: Q.JsonPrinter, anthropic: Json)
    ensures ReadAll(Q.Messages(show, anthropic)) == ConversationSays(show, anthropic)
  {
    hide Q.ExpandTurn, TurnSays, Read, FlatMap, Q.SystemMessages, SystemSays;
    var turns := anthropic.GetArr("messages").GetOr([]);
    ReadsSystem(anthropic);
    ReadsTurns(show, turns);
    ReadAllTwo(Q.SystemMessages(anthropic), FlatMap(Q.ExpandTurn(show), turns));
  }

  // ----- no text is lost -----

  ghost predicate Occurs(text: string, within: string) {
    exists before, after :: before + text + after == within
  }

  lemma OccursIn(text: string, before: string, after: string)
    ensures Occurs(text, before + text + after)
  {
  }

  lemma OccursLonger(text: string, within: string, after: string)
    requires Occurs(text, within)
    ensures Occurs(text, within + after)
  {
    var left, right :| left + text + right == within;
    assert left + text + (right + after) == within + after;
  }

  lemma {:induction false} OccursLined(texts: seq<string>, text: string)
    requires text in texts
    ensures Occurs(text, Lined(texts))
  {
    if |texts| == 1 {
      OccursIn(text, "", "");
      assert "" + text + "" == text;
    } else {
      var before, last := texts[..|texts| - 1], texts[|texts| - 1];
      if text == last {
        OccursIn(text, Lined(before) + "\n", "");
        assert Lined(before) + "\n" + text + "" == Lined(texts);
      } else {
        OccursLined(before, text);
        OccursLonger(text, Lined(before), "\n" + last);
        assert Lined(before) + ("\n" + last) == Lined(texts);
      }
    }
  }

  ghost predicate Heard(readings: seq<Reading>, text: string) {
    exists r, p :: r in readings && p in r.pieces && p.Words? && Occurs(text, p.text)
  }

  lemma TextsHave(blocks: seq<Json>, b: Json, text: string)
    requires b in blocks && KindOf(b) == Text && TextOf(b) == [text]
    ensures text in Texts(blocks)
    ensures b in NotOfKind(blocks, Thought) && b in NotOfKind(blocks, ToolResult)
  {
    InFlatMap((b: Json) => if KindOf(b) == Text then TextOf(b) else [], blocks, text);
    InFlatMap((b: Json) => if KindOf(b) == Thought then [] else [b], blocks, b);
    InFlatMap((b: Json) => if KindOf(b) == ToolResult then [] else [b], blocks, b);
    hide KindOf, FlatMap;
  }

  lemma PiecesHave(show: Q.JsonPrinter, blocks: seq<Json>, b: Json, text: string)
    requires b in blocks && KindOf(b) == Text && TextOf(b) == [text]
    ensures Words(text) in AllPieces(show, blocks)
  {
    assert Pieces(show, b) == [Words(text)];
    hide Pieces, FlatMap;
    InFlatMap((b: Json) => Pieces(show, b), blocks, Words(text));
  }

  lemma SpeechHas(show: Q.JsonPrinter, role: string, blocks: seq<Json>, b: Json, text: string)
    requires b in blocks && KindOf(b) == Text && TextOf(b) == [text]
    ensures Heard([Speech(show, role, blocks)], text)
  {
    PiecesHave(show, blocks, b, text);
    TextsHave(blocks, b, text);
    OccursLined(Texts(blocks), text);
    OccursIn(text, "", "");
    assert "" + text + "" == text;
    hide KindOf, TextOf, Texts, AllPieces, Lined, Occurs;
    var r := Speech(show, role, blocks);
    assert r in [r];
    var p := if forall b :: b in blocks ==> NamesText(b) then Words(Lined(Texts(blocks))) else Words(text);
    assert p in r.pieces;
  }

  // Whoever speaks and whatever stands beside it, the text of every text block is in the
  // words the upstream reads.
  lemma NoTextIsLost(show: Q.JsonPrinter, turn: Json, blocks: seq<Json>, b: Json, text: string)
    requires turn.Get("content") == Some(Arr(blocks)) && b in blocks
    requires KindOf(b) == Text && b.GetStr("text") == Some(text)
    ensures Heard(ReadAll(Q.ExpandTurn(show)(turn)), text)
  {
    hide Q.ExpandTurn, ReadAll, Speech, Texts, AllPieces, KindOf, Lined, Occurs, OfKind, NotOfKind;
    ReadsTurn(show, turn);
    TextsHave(blocks, b, text);
    OccursLined(Texts(blocks), text);
    var aloud, rest := NotOfKind(blocks, Thought), NotOfKind(blocks, ToolResult);
    SpeechHas(show, "assistant", aloud, b, text);
    SpeechHas(show, turn.GetStr("role").GetOr("user"), blocks, b, text);
    PiecesHave(show, rest, b, text);
    OccursIn(text, "", "");
    assert "" + text + "" == text;
    HeardInTurn(show, turn, blocks, text);
  }

  lemma HeardInTurn(show: Q.JsonPrinter, turn: Json, blocks: seq<Json>, text: string)
    requires turn.Get("content") == Some(Arr(blocks))
    requires text in Texts(blocks) && Occurs(text, Lined(Texts(blocks))) && Occurs(text, text)
    requires Words(text) in AllPieces(show, NotOfKind(blocks, ToolResult))
    requires NotOfKind(blocks, Thought) != [] ==> Heard([Speech(show, "assistant", NotOfKind(blocks, Thought))], text)
    requires NotOfKind(blocks, Thought) != []
    requires Heard([Speech(show, turn.GetStr("role").GetOr("user"), blocks)], text)
    ensures Heard(TurnSays(show, turn), text)
  {
    hide Speech, Texts, AllPieces, KindOf, Lined, Occurs, OfKind, NotOfKind, Answers, CallOf;
    var says := TurnSays(show, turn);
    var role := turn.GetStr("role").GetOr("user");
    if role == "assistant" && OfKind(blocks, ToolUse) != [] {
      assert Words(Lined(Texts(blocks))) in says[0].pieces && says[0] in says;
    } else if role != "assistant" && OfKind(blocks, ToolResult) != [] {
      var last := says[|says| - 1];
      assert Words(text) in last.pieces && last in says;
    }
  }
}
