// The translation of an Anthropic conversation into OpenAI messages: one turn may become
// none, one or several messages.
module Request {
  import opened Wrappers
  import opened JsonValue
  import opened Machine

  // Printing a document as JSON text.
  type JsonPrinter = Json -> string

  // ----- blocks -----

  // A block without a type counts as text, except where the source asks for the type itself.
  function BlockType(b: Json): string {
    b.GetStr("type").GetOr("text")
  }

  predicate IsToolUse(b: Json) {
    BlockType(b) == "tool_use"
  }

  predicate IsToolResult(b: Json) {
    BlockType(b) == "tool_result"
  }

  predicate IsThinking(b: Json) {
    BlockType(b) in {"thinking", "redacted_thinking"}
  }

  function StripCacheControl(v: Json): Json {
    if v.Obj? then Obj(v.fields - {"cache_control"}) else v
  }

  function TextPart(text: Json): Json {
    Obj(map["type" := Str("text"), "text" := text])
  }

  function ImagePart(b: Json): Json {
    var source := b.GetOrNull("source");
    Obj(map[
      "type" := Str("image_url"),
      "image_url" := Obj(map["url" := Str(
        "data:" + source.GetStr("media_type").GetOr("image/png") +
        ";base64," + source.GetStr("data").GetOr(""))])])
  }

  // The text blocks that have a text: `filter_map` as a function to a sequence.
  function TextOf(b: Json): seq<string> {
    if b.GetStr("type") == Some("text") && b.GetStr("text").Some? then [b.GetStr("text").value] else []
  }

  function ExtractText(content: Json): string {
    match content
    case Str(s) => s
    case Arr(blocks) => Join(FlatMap(TextOf, blocks), "\n")
    case _ => ""
  }

  // ----- what a block contributes to the content of a message -----

  // In a user turn beside tool results. A thinking block contributes nothing.
  function Part(show: JsonPrinter, b: Json): seq<Json> {
    var stripped := StripCacheControl(b);
    match BlockType(stripped)
    case "text" => [TextPart(stripped.GetOrNull("text"))]
    case "image" => [ImagePart(stripped)]
    case "thinking" => []
    case "redacted_thinking" => []
    case _ => [TextPart(Str(show(stripped)))]
  }

  function Parts(show: JsonPrinter, blocks: seq<Json>): seq<Json> {
    FlatMap((b: Json) => Part(show, b), blocks)
  }

  // In any other turn.
  function MessagePart(show: JsonPrinter, b: Json): seq<Json> {
    var stripped := StripCacheControl(b);
    if IsToolResult(stripped) then [TextPart(Str(ExtractText(stripped.GetOrNull("content"))))]
    else Part(show, b)
  }

  function MessageParts(show: JsonPrinter, blocks: seq<Json>): seq<Json> {
    FlatMap((b: Json) => MessagePart(show, b), blocks)
  }

  // In a tool result.
  function ResultPart(show: JsonPrinter, b: Json): Json {
    match BlockType(b)
    case "text" => TextPart(b.GetOrNull("text"))
    case "image" => ImagePart(b)
    case _ => TextPart(Str(show(b)))
  }

  // A single text part collapses to its text.
  function ResultContent(show: JsonPrinter, content: Json): Json {
    match content
    case Str(s) => Str(s)
    case Arr(blocks) =>
      var parts := seq(|blocks|, i requires 0 <= i < |blocks| => ResultPart(show, blocks[i]));
      if |parts| == 1 && parts[0].GetStr("text").Some? then Str(parts[0].GetStr("text").value)
      else Arr(parts)
    case _ => Str("")
  }

  // ----- messages -----

  function Message(role: string, content: Json): Json {
    Obj(map["role" := Str(role), "content" := content])
  }

  // Whether some block says, by its type or by having none, that it is not text.
  predicate HasNonText(blocks: seq<Json>) {
    exists b :: b in blocks && b.GetStr("type") != Some("text")
  }

  function PlainText(b: Json): seq<string> {
    if b.GetStr("text").Some? then [b.GetStr("text").value] else []
  }

  function PlainContent(show: JsonPrinter, content: Option<Json>): Json {
    match content
    case None => Str("")
    case Some(Arr(blocks)) =>
      if HasNonText(blocks) then Arr(MessageParts(show, blocks))
      else Str(Join(FlatMap(PlainText, blocks), "\n"))
    case Some(v) => v
  }

  function PlainMessage(show: JsonPrinter, role: string, content: Option<Json>): Json {
    Message(role, PlainContent(show, content))
  }

  // ----- assistant turns -----

  function SaidText(b: Json): seq<string> {
    if BlockType(b) == "text" && b.GetStr("text").Some? then [b.GetStr("text").value] else []
  }

  function KeepUse(b: Json): seq<Json> {
    if IsToolUse(b) then [b] else []
  }

  function Uses(blocks: seq<Json>): seq<Json> {
    FlatMap(KeepUse, blocks)
  }

  function ToolCall(show: JsonPrinter, b: Json, index: nat): Json {
    Obj(map[
      "id" := Str(b.GetStr("id").GetOr("")),
      "type" := Str("function"),
      "index" := Int(index),
      "function" := Obj(map[
        "name" := Str(b.GetStr("name").GetOr("")),
        "arguments" := Str(show(b.Get("input").GetOr(EMPTY_OBJECT)))])])
  }

  function ToolCalls(show: JsonPrinter, uses: seq<Json>): seq<Json> {
    seq(|uses|, i requires 0 <= i < |uses| => ToolCall(show, uses[i], i))
  }

  function CallsMessage(content: Json, calls: seq<Json>): Json {
    Obj(map["role" := Str("assistant"), "content" := content, "tool_calls" := Arr(calls)])
  }

  function SaidContent(texts: seq<string>): Json {
    if texts == [] then Null else Str(Join(texts, "\n"))
  }

  function Unthinking(b: Json): seq<Json> {
    if IsThinking(b) then [] else [b]
  }

  function WithoutThinking(blocks: seq<Json>): seq<Json> {
    FlatMap(Unthinking, blocks)
  }

  function ExpandAssistant(show: JsonPrinter, blocks: seq<Json>): seq<Json> {
    if Uses(blocks) != [] then
      [CallsMessage(SaidContent(FlatMap(SaidText, blocks)), ToolCalls(show, Uses(blocks)))]
    else if WithoutThinking(blocks) == [] then []
    else [PlainMessage(show, "assistant", Some(Arr(WithoutThinking(blocks))))]
  }

  // ----- turns that may answer tool calls -----

  function ToolMessage(show: JsonPrinter, b: Json): Json {
    var content := ResultContent(show, b.GetOrNull("content"));
    var failed := var e := b.Get("is_error"); if e.Some? then e.value.AsBool().GetOr(false) else false;
    Obj(map[
      "role" := Str("tool"),
      "tool_call_id" := Str(b.GetStr("tool_use_id").GetOr("")),
      "content" := if failed && content.Str? then Str("Error: " + content.s) else content])
  }

  function KeepResult(show: JsonPrinter, b: Json): seq<Json> {
    if IsToolResult(b) then [ToolMessage(show, b)] else []
  }

  function ToolMessages(show: JsonPrinter, blocks: seq<Json>): seq<Json> {
    FlatMap((b: Json) => KeepResult(show, b), blocks)
  }

  function KeepOther(b: Json): seq<Json> {
    if IsToolResult(b) then [] else [b]
  }

  function Others(blocks: seq<Json>): seq<Json> {
    FlatMap(KeepOther, blocks)
  }

  // What the user says beside the results, if anything is left of it.
  function FollowUp(show: JsonPrinter, others: seq<Json>): seq<Json> {
    if Parts(show, others) == [] then [] else [Message("user", Arr(Parts(show, others)))]
  }

  function ExpandUser(show: JsonPrinter, role: string, blocks: seq<Json>): seq<Json> {
    if ToolMessages(show, blocks) != [] then
      ToolMessages(show, blocks) + FollowUp(show, Others(blocks))
    else [PlainMessage(show, role, Some(Arr(blocks)))]
  }

  // ----- turns and conversations -----

  function Expand(show: JsonPrinter, role: string, content: Option<Json>): seq<Json> {
    if content.Some? && content.value.Arr? then
      if role == "assistant" then ExpandAssistant(show, content.value.items)
      else ExpandUser(show, role, content.value.items)
    else [PlainMessage(show, role, content)]
  }

  function Role(msg: Json): string {
    msg.GetStr("role").GetOr("user")
  }

  function ExpandTurn(show: JsonPrinter): Json -> seq<Json> {
    (msg: Json) => Expand(show, Role(msg), msg.Get("content"))
  }

  function SystemMessages(anthropic: Json): seq<Json> {
    var system := anthropic.Get("system");
    if system.Some? && ExtractText(system.value) != "" then [Message("system", Str(ExtractText(system.value)))]
    else []
  }

  // The `messages` of the OpenAI request.
  function Messages(show: JsonPrinter, anthropic: Json): seq<Json> {
    SystemMessages(anthropic) + FlatMap(ExpandTurn(show), anthropic.GetArr("messages").GetOr([]))
  }

  // ----- the code -----

  lemma OneMoreCall(show: JsonPrinter, blocks: seq<Json>, i: nat)
    requires i < |blocks|
    ensures var before := Uses(blocks[..i]);
            && Uses(blocks[..i + 1]) == before + KeepUse(blocks[i])
            && ToolCalls(show, Uses(blocks[..i + 1])) ==
               if IsToolUse(blocks[i]) then ToolCalls(show, before) + [ToolCall(show, blocks[i], |before|)]
               else ToolCalls(show, before)
  {
    hide ToolCall;
    FlatMapOneMore(KeepUse, blocks, i);
  }

  method ConvertAssistantBlocks(show: JsonPrinter, blocks: seq<Json>) returns (messages: seq<Json>)
    ensures messages == ExpandAssistant(show, blocks)
  {
    hide FlatMap, CallsMessage, PlainMessage, ToolCall, SaidContent;
    var hasToolUse := false;
    var texts: seq<string>, calls: seq<Json> := [], [];
    var callIndex := 0;
    Nothing(show);
    for i := 0 to |blocks|
      invariant texts == FlatMap(SaidText, blocks[..i])
      invariant calls == ToolCalls(show, Uses(blocks[..i]))
      invariant callIndex == |calls| && hasToolUse == (calls != [])
    {
      var b := blocks[i];
      FlatMapOneMore(SaidText, blocks, i);
      OneMoreCall(show, blocks, i);
      match BlockType(b)
      case "text" =>
        if b.GetStr("text").Some? {
          texts := texts + [b.GetStr("text").value];
        }
      case "tool_use" =>
        hasToolUse := true;
        calls := calls + [ToolCall(show, b, callIndex)];
        callIndex := callIndex + 1;
      case _ =>
    }
    assert blocks[..|blocks|] == blocks;
    if hasToolUse {
      return [CallsMessage(SaidContent(texts), calls)];
    }
    var filtered := DropThinking(blocks);
    messages := if filtered != [] then [PlainMessage(show, "assistant", Some(Arr(filtered)))] else [];
  }

  lemma Nothing(show: JsonPrinter)
    ensures FlatMap(SaidText, []) == [] && ToolCalls(show, Uses([])) == []
    ensures WithoutThinking([]) == [] && ToolMessages(show, []) == [] && Others([]) == []
  {
  }

  method DropThinking(blocks: seq<Json>) returns (filtered: seq<Json>)
    ensures filtered == WithoutThinking(blocks)
  {
    hide FlatMap;
    filtered := [];
    Nothing(_ => "");
    for i := 0 to |blocks|
      invariant filtered == WithoutThinking(blocks[..i])
    {
      FlatMapOneMore(Unthinking, blocks, i);
      var t := blocks[i].GetStr("type").GetOr("");
      if t != "thinking" && t != "redacted_thinking" {
        filtered := filtered + [blocks[i]];
      }
    }
    assert blocks[..|blocks|] == blocks;
  }

  method SplitResults(show: JsonPrinter, blocks: seq<Json>) returns (results: seq<Json>, others: seq<Json>)
    ensures results == ToolMessages(show, blocks) && others == Others(blocks)
  {
    hide FlatMap, ToolMessage;
    results, others := [], [];
    Nothing(show);
    for i := 0 to |blocks|
      invariant results == ToolMessages(show, blocks[..i]) && others == Others(blocks[..i])
    {
      FlatMapOneMore((b: Json) => KeepResult(show, b), blocks, i);
      FlatMapOneMore(KeepOther, blocks, i);
      if BlockType(blocks[i]) == "tool_result" {
        results := results + [ToolMessage(show, blocks[i])];
      } else {
        others := others + [blocks[i]];
      }
    }
    assert blocks[..|blocks|] == blocks;
  }

  method ConvertAnthropicMessageExpanded(show: JsonPrinter, role: string, content: Option<Json>)
    returns (messages: seq<Json>)
    ensures messages == Expand(show, role, content)
  {
    hide FlatMap, PlainMessage, Message, Part;
    if content.Some? && content.value.Arr? {
      var blocks := content.value.items;
      if role == "assistant" {
        messages := ConvertAssistantBlocks(show, blocks);
        return;
      }
      var results, others := SplitResults(show, blocks);
      if results != [] {
        messages := results;
        if others != [] {
          var parts := Parts(show, others);
          if parts != [] {
            messages := messages + [Message("user", Arr(parts))];
          }
        } else {
          NoParts(show);
        }
        return;
      }
    }
    messages := [PlainMessage(show, role, content)];
  }

  lemma NoParts(show: JsonPrinter)
    ensures Parts(show, []) == []
  {
  }

  method ExpandTurns(show: JsonPrinter, msgs: seq<Json>) returns (messages: seq<Json>)
    ensures messages == FlatMap(ExpandTurn(show), msgs)
  {
    hide FlatMap, Expand;
    messages := [];
    NoTurns(show);
    for i := 0 to |msgs|
      invariant messages == FlatMap(ExpandTurn(show), msgs[..i])
    {
      FlatMapOneMore(ExpandTurn(show), msgs, i);
      var expanded := ConvertAnthropicMessageExpanded(show, Role(msgs[i]), msgs[i].Get("content"));
      messages := messages + expanded;
    }
    assert msgs[..|msgs|] == msgs;
  }

  // The `messages` field of `anthropic_request_to_openai`.
  method AnthropicRequestMessages(show: JsonPrinter, anthropic: Json) returns (messages: seq<Json>)
    ensures messages == Messages(show, anthropic)
  {
    hide FlatMap, Message, ExpandTurn, ExtractText;
    messages := [];
    var system := anthropic.Get("system");
    if system.Some? {
      var text := ExtractText(system.value);
      if text != "" {
        messages := messages + [Message("system", Str(text))];
      }
    }
    NoTurns(show);
    var msgs := anthropic.GetArr("messages");
    if msgs.Some? {
      var expanded := ExpandTurns(show, msgs.value);
      messages := messages + expanded;
    }
  }

  lemma NoTurns(show: JsonPrinter)
    ensures FlatMap(ExpandTurn(show), []) == []
  {
  }
}
