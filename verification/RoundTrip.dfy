// An assistant turn sent to OpenAI and read back as if it were a completion.
module RoundTrip {
  import opened Wrappers
  import opened JsonValue
  import opened Machine
  import opened Request
  import R = Response

  // The blocks an assistant turn is made of when it does not show its thinking.
  datatype Said = Text(text: string) | Use(id: string, name: string, input: Json)

  function SaidJson(s: Said): Json {
    match s
    case Text(text) => R.TextJson(text)
    case Use(id, name, input) => R.ToolUseJson(Str(id), Str(name), input)
  }

  function Blocks(said: seq<Said>): seq<Json> {
    seq(|said|, i requires 0 <= i < |said| => SaidJson(said[i]))
  }

  // A completion whose only choice says `message`.
  function Completion(message: Json): Json {
    Obj(map["choices" := Arr([Obj(map["message" := message])])])
  }

  function TextIn(s: Said): seq<string> {
    if s.Text? then [s.text] else []
  }

  function UseIn(s: Said): seq<Said> {
    if s.Use? then [s] else []
  }

  function Texts(said: seq<Said>): seq<string> {
    FlatMap(TextIn, said)
  }

  function UsesIn(said: seq<Said>): seq<Said> {
    FlatMap(UseIn, said)
  }

  // The turn as it comes back: its texts joined, then its tool uses.
  function Normal(said: seq<Said>): seq<Said> {
    var text := Join(Texts(said), "\n");
    (if text != "" || UsesIn(said) == [] then [Text(text)] else []) + UsesIn(said)
  }

  // Text at most once, first and not empty; or an empty text alone.
  predicate IsNormal(said: seq<Said>) {
    || said == [Text("")]
    || (|said| > 0 && (forall i :: 0 < i < |said| ==> said[i].Use?) && (said[0].Text? ==> said[0].text != ""))
  }

  // ----- reading the blocks -----

  lemma ReadSaid(s: Said)
    ensures SaidText(SaidJson(s)) == TextIn(s)
    ensures KeepUse(SaidJson(s)) == Blocks(UseIn(s))
    ensures !IsThinking(SaidJson(s))
    ensures SaidJson(s).GetStr("type") == Some("text") <==> s.Text?
    ensures s.Text? ==> PlainText(SaidJson(s)) == [s.text]
  {
    if s.Use? {
      assert SaidJson(s).GetStr("type") == Some("tool_use");
    } else {
      assert SaidJson(s).GetStr("type") == Some("text");
    }
  }

  lemma {:induction false} ReadBlocks(said: seq<Said>)
    ensures FlatMap(SaidText, Blocks(said)) == Texts(said)
    ensures Uses(Blocks(said)) == Blocks(UsesIn(said))
    ensures WithoutThinking(Blocks(said)) == Blocks(said)
  {
    hide SaidJson, KeepUse, SaidText, IsThinking;
    if said != [] {
      var before, s := said[..|said| - 1], said[|said| - 1];
      ReadBlocks(before);
      ReadSaid(s);
      assert Blocks(said)[..|said| - 1] == Blocks(before);
    }
  }

  lemma {:induction false} OnlyTexts(said: seq<Said>)
    requires UsesIn(said) == []
    ensures !HasNonText(Blocks(said))
    ensures FlatMap(PlainText, Blocks(said)) == Texts(said)
  {
    hide SaidJson, PlainText;
    if said != [] {
      var before, s := said[..|said| - 1], said[|said| - 1];
      OnlyTexts(before);
      ReadSaid(s);
      assert Blocks(said)[..|said| - 1] == Blocks(before);
      assert Blocks(said) == Blocks(before) + [SaidJson(s)];
    }
  }

  // ----- reading the answer -----

  lemma ReadChoice(read: JsonReader, message: Json)
    ensures R.Choice(Completion(message)).GetOrNull("message") == message
  {
    var choice := Obj(map["message" := message]);
    assert Completion(message).GetArr("choices") == Some([choice]);
  }

  lemma ReadCall(read: JsonReader, show: JsonPrinter, s: Said, index: nat)
    requires s.Use? && read(show(s.input)) == Some(s.input)
    ensures R.ToolUse(read, ToolCall(show, SaidJson(s), index)) == SaidJson(s)
  {
    var b := SaidJson(s);
    assert b.GetStr("id") == Some(s.id) && b.GetStr("name") == Some(s.name) && b.Get("input") == Some(s.input);
  }

  ghost predicate Reads(read: JsonReader, show: JsonPrinter, said: seq<Said>) {
    forall s :: s in said && s.Use? ==> read(show(s.input)) == Some(s.input)
  }

  lemma ReadCalls(read: JsonReader, show: JsonPrinter, uses: seq<Said>)
    requires Reads(read, show, uses) && forall s :: s in uses ==> s.Use?
    ensures R.ToolUses(read, ToolCalls(show, Blocks(uses))) == Blocks(uses)
  {
    hide SaidJson, ToolCall, R.ToolUse;
    forall i | 0 <= i < |uses|
      ensures R.ToolUse(read, ToolCall(show, SaidJson(uses[i]), i)) == SaidJson(uses[i])
    {
      ReadCall(read, show, uses[i], i);
    }
  }

  lemma UsesAreUses(said: seq<Said>)
    ensures forall s :: s in UsesIn(said) ==> s.Use? && s in said
  {
    forall s | s in UsesIn(said) ensures s.Use? && s in said {
      InFlatMap(UseIn, said, s);
    }
  }

  lemma CallsMessageReads(content: Json, calls: seq<Json>)
    ensures var m := CallsMessage(content, calls);
            && Reasoning(m) == None
            && m.GetStr("content") == content.AsStr()
            && m.GetArr("tool_calls") == Some(calls)
  {
  }

  lemma MessageReads(content: Json)
    ensures var m := Message("assistant", content);
            && Reasoning(m) == None
            && m.GetStr("content") == content.AsStr()
            && m.GetArr("tool_calls") == None
  {
  }

  function Sent(show: JsonPrinter, said: seq<Said>): seq<Json> {
    Expand(show, "assistant", Some(Arr(Blocks(said))))
  }

  lemma NoTextIsEmpty(said: seq<Said>)
    ensures Texts(said) == [] ==> Join(Texts(said), "\n") == ""
  {
  }

  lemma BlocksOfNormal(said: seq<Said>)
    ensures var text := Join(Texts(said), "\n");
            Blocks(Normal(said)) ==
            (if text != "" || UsesIn(said) == [] then [R.TextJson(text)] else []) + Blocks(UsesIn(said))
  {
    hide R.TextJson, R.ToolUseJson, Texts, UsesIn, Join;
  }

  lemma CallsComeBack(read: JsonReader, show: JsonPrinter, said: seq<Said>)
    requires UsesIn(said) != [] && Reads(read, show, said)
    ensures |Sent(show, said)| == 1
    ensures R.MessageBlocks(read, Sent(show, said)[0]) == Blocks(Normal(said))
  {
    hide SaidJson, CallsMessage, Texts, UsesIn, Join, Reasoning, FlatMap, ToolCalls;
    ReadBlocks(said);
    BlocksOfNormal(said);
    var content := SaidContent(Texts(said));
    var calls := ToolCalls(show, Blocks(UsesIn(said)));
    CallsMessageReads(content, calls);
    UsesAreUses(said);
    ReadCalls(read, show, UsesIn(said));
    NoTextIsEmpty(said);
  }

  lemma TextsComeBack(read: JsonReader, show: JsonPrinter, said: seq<Said>)
    requires said != [] && UsesIn(said) == []
    ensures |Sent(show, said)| == 1
    ensures var blocks := R.MessageBlocks(read, Sent(show, said)[0]);
            (if blocks == [] then [R.TextJson("")] else blocks) == Blocks(Normal(said))
  {
    hide SaidJson, Message, Texts, UsesIn, Join, Reasoning, FlatMap, HasNonText;
    ReadBlocks(said);
    BlocksOfNormal(said);
    OnlyTexts(said);
    MessageReads(Str(Join(Texts(said), "\n")));
  }

  // What comes back is the turn in normal form.
  lemma ComesBackNormal(read: JsonReader, show: JsonPrinter, said: seq<Said>)
    requires said != [] && Reads(read, show, said)
    ensures |Sent(show, said)| == 1
    ensures R.ContentBlocks(read, Completion(Sent(show, said)[0])) == Blocks(Normal(said))
  {
    hide Sent, R.MessageBlocks, SaidJson, UsesIn, Completion;
    if UsesIn(said) != [] {
      CallsComeBack(read, show, said);
      assert |Normal(said)| > 0;
    } else {
      TextsComeBack(read, show, said);
    }
    ReadChoice(read, Sent(show, said)[0]);
  }

  // ----- normal form -----

  lemma {:induction false} AllUses(said: seq<Said>)
    requires forall s :: s in said ==> s.Use?
    ensures Texts(said) == [] && UsesIn(said) == said
  {
    if said != [] {
      var before, s := said[..|said| - 1], said[|said| - 1];
      assert said == before + [s] && s in said;
      AllUses(before);
    }
  }

  lemma NormalIsNormal(said: seq<Said>)
    requires said != []
    ensures Normal(said) == said <==> IsNormal(said)
  {
    hide Normal, IsNormal;
    if IsNormal(said) {
      IsNormalStays(said);
    }
    if Normal(said) == said {
      NormalHasShape(said);
    }
  }

  lemma NormalHasShape(said: seq<Said>)
    requires said != [] && Normal(said) == said
    ensures IsNormal(said)
  {
    UsesAreUses(said);
    hide Texts, UsesIn, Join;
    var text, uses := Join(Texts(said), "\n"), UsesIn(said);
    if text != "" || uses == [] {
      assert said == [Text(text)] + uses;
      forall i | 0 < i < |said| ensures said[i].Use? {
        assert said[i] == uses[i - 1];
      }
    } else {
      assert said == uses && forall i :: 0 <= i < |said| ==> said[i] in uses;
    }
  }

  lemma TextThenUses(text: string, uses: seq<Said>)
    requires forall s :: s in uses ==> s.Use?
    ensures Texts([Text(text)] + uses) == [text] && UsesIn([Text(text)] + uses) == uses
  {
    AllUses(uses);
    FlatMapConcat(TextIn, [Text(text)], uses);
    FlatMapConcat(UseIn, [Text(text)], uses);
    FlatMapOne(TextIn, Text(text));
    FlatMapOne(UseIn, Text(text));
  }

  lemma IsNormalStays(said: seq<Said>)
    requires said != [] && IsNormal(said)
    ensures Normal(said) == said
  {
    hide Texts, UsesIn;
    if said[0].Use? {
      AllUses(said);
    } else {
      var text, uses := said[0].text, said[1..];
      assert said == [Text(text)] + uses;
      TextThenUses(text, uses);
      assert Join([text], "\n") == text;
    }
  }

  lemma UseIsRead(id: Json, name: Json, input: Json)
    ensures var b := R.ToolUseJson(id, name, input);
            b.Get("id") == Some(id) && b.Get("name") == Some(name) && b.Get("input") == Some(input)
  {
  }

  lemma TextIsRead(text: string)
    ensures R.TextJson(text).GetStr("text") == Some(text)
  {
  }

  lemma SaidIsRead(a: Said, b: Said)
    requires SaidJson(a) == SaidJson(b)
    ensures a == b
  {
    ReadSaid(a);
    ReadSaid(b);
    hide R.TextJson, R.ToolUseJson;
    if a.Use? {
      UseIsRead(Str(a.id), Str(a.name), a.input);
      UseIsRead(Str(b.id), Str(b.name), b.input);
    } else {
      TextIsRead(a.text);
      TextIsRead(b.text);
    }
  }

  lemma BlocksAreRead(a: seq<Said>, b: seq<Said>)
    requires Blocks(a) == Blocks(b)
    ensures a == b
  {
    hide SaidJson;
    assert |Blocks(a)| == |a| && |Blocks(b)| == |b|;
    forall i | 0 <= i < |a| ensures a[i] == b[i] {
      assert Blocks(a)[i] == Blocks(b)[i];
      SaidIsRead(a[i], b[i]);
    }
  }

  // The turn comes back as it was if and only if its text, if any, is one block before the
  // tool uses; provided the inputs of its calls survive printing and reading.
  lemma ToolCallsRoundTrip(read: JsonReader, show: JsonPrinter, said: seq<Said>)
    requires said != [] && Reads(read, show, said)
    ensures |Sent(show, said)| == 1
    ensures R.ContentBlocks(read, Completion(Sent(show, said)[0])) == Blocks(said) <==> IsNormal(said)
  {
    hide Sent, R.ContentBlocks, Normal, IsNormal, Blocks, Reads, Completion;
    ComesBackNormal(read, show, said);
    NormalIsNormal(said);
    if Blocks(Normal(said)) == Blocks(said) {
      BlocksAreRead(Normal(said), said);
    }
  }
}
