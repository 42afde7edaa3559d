// Anthropic lets a plain string stand for a single text block, as the content of a turn, of
// a tool result and of the system prompt; and what a failed tool result looks like upstream.
module Shorthand {
  import opened Wrappers
  import opened JsonValue
  import opened Machine
  import opened Request
  import R = Response

  lemma TextBlockReads(text: string)
    ensures var b := R.TextJson(text);
            && b.GetStr("type") == Some("text") && b.GetStr("text") == Some(text) && b.Get("text") == Some(Str(text))
            && BlockType(b) == "text" && !IsToolUse(b) && !IsToolResult(b) && !IsThinking(b)
  {
    assert R.TextJson(text).GetStr("type") == Some("text");
  }

  lemma OneBlock(show: JsonPrinter, b: Json)
    requires b.GetStr("type") == Some("text") && b.GetStr("text").Some?
    ensures FlatMap(TextOf, [b]) == FlatMap(PlainText, [b]) == [b.GetStr("text").value]
    ensures Uses([b]) == [] && WithoutThinking([b]) == [b] && ToolMessages(show, [b]) == [] && !HasNonText([b])
  {
    hide ToolMessage;
    assert BlockType(b) == "text";
    FlatMapOne(TextOf, b);
    FlatMapOne(PlainText, b);
    FlatMapOne(KeepUse, b);
    FlatMapOne(Unthinking, b);
    FlatMapOne((b: Json) => KeepResult(show, b), b);
  }

  lemma JoinOne(s: string)
    ensures Join([s], "\n") == s
  {
  }

  // In a turn of any role.
  lemma TurnShorthand(show: JsonPrinter, role: string, text: string)
    ensures Expand(show, role, Some(Arr([R.TextJson(text)]))) == Expand(show, role, Some(Str(text)))
  {
    hide R.TextJson, FlatMap, Uses, WithoutThinking, ToolMessages, HasNonText, Message, Join;
    TextBlockReads(text);
    OneBlock(show, R.TextJson(text));
    JoinOne(text);
  }

  // In the system prompt.
  lemma SystemShorthand(text: string)
    ensures ExtractText(Arr([R.TextJson(text)])) == ExtractText(Str(text))
  {
    hide R.TextJson, FlatMap, Join;
    TextBlockReads(text);
    OneBlock(_ => "", R.TextJson(text));
    JoinOne(text);
  }

  // In a tool result.
  lemma ResultShorthand(show: JsonPrinter, text: string)
    ensures ResultContent(show, Arr([R.TextJson(text)])) == ResultContent(show, Str(text))
  {
    hide R.TextJson;
    TextBlockReads(text);
    PartReads(Str(text));
  }

  lemma PartReads(text: Json)
    ensures TextPart(text).GetStr("text") == text.AsStr()
  {
  }

  lemma ImageHasNoText(b: Json)
    ensures ImagePart(b).GetStr("text") == None
  {
  }

  // ----- failed tool results -----

  // One block that is, or is printed as, text.
  predicate IsOneText(blocks: seq<Json>) {
    && |blocks| == 1
    && match BlockType(blocks[0])
       case "text" => blocks[0].GetStr("text").Some?
       case "image" => false
       case _ => true
  }

  // The result reaches OpenAI as a string.
  predicate IsTextual(content: Json) {
    content.Arr? ==> IsOneText(content.items)
  }

  lemma TextualMeans(show: JsonPrinter, content: Json)
    ensures ResultContent(show, content).Str? <==> IsTextual(content)
  {
    hide TextPart, ImagePart;
    if content.Arr? && |content.items| == 1 {
      var b := content.items[0];
      ImageHasNoText(b);
      PartReads(b.GetOrNull("text"));
      PartReads(Str(show(b)));
    }
  }

  function Flagged(b: Json, failed: bool): Json
    requires b.Obj?
  {
    Obj(b.fields["is_error" := Bool(failed)])
  }

  lemma FlagReads(b: Json, failed: bool)
    requires b.Obj?
    ensures var f := Flagged(b, failed);
            && f.Get("is_error") == Some(Bool(failed))
            && f.GetOrNull("content") == b.GetOrNull("content")
            && f.GetStr("tool_use_id") == b.GetStr("tool_use_id")
  {
  }

  function ToolMessageOf(id: string, content: Json): Json {
    Obj(map["role" := Str("tool"), "tool_call_id" := Str(id), "content" := content])
  }

  lemma MessageOf(show: JsonPrinter, b: Json, failed: bool)
    requires b.Obj?
    ensures var c := ResultContent(show, b.GetOrNull("content"));
            ToolMessage(show, Flagged(b, failed)) ==
            ToolMessageOf(b.GetStr("tool_use_id").GetOr(""), if failed && c.Str? then Str("Error: " + c.s) else c)
  {
    hide ResultContent, Flagged;
    FlagReads(b, failed);
  }

  lemma ContentOf(id: string, content: Json)
    ensures ToolMessageOf(id, content).Get("content") == Some(content)
  {
  }

  // A failed result can be told from a successful one upstream if and only if its content
  // reaches OpenAI as a string: a list of parts carries no mark.
  lemma FailureIsMarked(show: JsonPrinter, b: Json)
    requires b.Obj?
    ensures ToolMessage(show, Flagged(b, true)) != ToolMessage(show, Flagged(b, false)) <==>
            IsTextual(b.GetOrNull("content"))
  {
    hide ToolMessage, Flagged, ResultContent, ToolMessageOf, IsTextual;
    var c := ResultContent(show, b.GetOrNull("content"));
    var id := b.GetStr("tool_use_id").GetOr("");
    MessageOf(show, b, true);
    MessageOf(show, b, false);
    TextualMeans(show, b.GetOrNull("content"));
    ContentOf(id, c);
    if c.Str? {
      ContentOf(id, Str("Error: " + c.s));
      assert |"Error: " + c.s| == 7 + |c.s|;
    }
  }
}
