// The non-streaming translation of an OpenAI completion to an Anthropic message.
module Response {
  import opened Wrappers
  import opened JsonValue

  function ThinkingJson(text: string): Json {
    Obj(map["type" := Str("thinking"), "thinking" := Str(text)])
  }

  function TextJson(text: string): Json {
    Obj(map["type" := Str("text"), "text" := Str(text)])
  }

  function ToolUseJson(id: Json, name: Json, input: Json): Json {
    Obj(map["type" := Str("tool_use"), "id" := id, "name" := name, "input" := input])
  }

  function Function(tc: Json): Json {
    tc.GetOrNull("function")
  }

  // Arguments that are missing, not a string or not JSON read as the empty object.
  function InputOf(read: JsonReader, tc: Json): Json {
    var arguments := Function(tc).GetStr("arguments");
    if arguments.Some? then read(arguments.value).GetOr(EMPTY_OBJECT) else EMPTY_OBJECT
  }

  function ToolUse(read: JsonReader, tc: Json): Json {
    ToolUseJson(tc.GetOrNull("id"), Function(tc).GetOrNull("name"), InputOf(read, tc))
  }

  function ToolUses(read: JsonReader, tcs: seq<Json>): seq<Json> {
    seq(|tcs|, i requires 0 <= i < |tcs| => ToolUse(read, tcs[i]))
  }

  function MessageBlocks(read: JsonReader, msg: Json): seq<Json> {
    var reasoning, text, tools := Reasoning(msg).GetOr(""), msg.GetStr("content").GetOr(""), msg.GetArr("tool_calls").GetOr([]);
    (if reasoning != "" then [ThinkingJson(reasoning)] else []) +
    (if text != "" then [TextJson(text)] else []) +
    ToolUses(read, tools)
  }

  function Choice(openai: Json): Json {
    var choices := openai.GetArr("choices").GetOr([]);
    if |choices| > 0 then choices[0] else Null
  }

  // An Anthropic message is never without content.
  function ContentBlocks(read: JsonReader, openai: Json): seq<Json> {
    var blocks := MessageBlocks(read, Choice(openai).GetOrNull("message"));
    if blocks == [] then [TextJson("")] else blocks
  }

  function StopReasonOf(openai: Json): string {
    StopReason(Choice(openai).GetStr("finish_reason").GetOr("stop"))
  }

  function Usage(openai: Json): Json {
    var usage := openai.GetOrNull("usage");
    Obj(map[
      "input_tokens" := usage.Get("prompt_tokens").GetOr(Int(0)),
      "output_tokens" := usage.Get("completion_tokens").GetOr(Int(0))])
  }

  function MessageJson(msgId: string, content: seq<Json>, model: Json, stopReason: string, stopSequence: Json, usage: Json): Json {
    Obj(map[
      "id" := Str(msgId),
      "type" := Str("message"),
      "role" := Str("assistant"),
      "content" := Arr(content),
      "model" := model,
      "stop_reason" := Str(stopReason),
      "stop_sequence" := stopSequence,
      "usage" := usage])
  }

  function AnthropicMessage(read: JsonReader, openai: Json, msgId: string): Json {
    MessageJson(
      msgId, ContentBlocks(read, openai), openai.GetOrNull("model"), StopReasonOf(openai),
      openai.GetOrNull("usage").GetOrNull("stop_sequence"), Usage(openai))
  }

  lemma OneMoreToolUse(read: JsonReader, tcs: seq<Json>, i: nat)
    requires i < |tcs|
    ensures ToolUses(read, tcs[..i + 1]) == ToolUses(read, tcs[..i]) + [ToolUse(read, tcs[i])]
  {
  }

  lemma NoToolUses(read: JsonReader)
    ensures ToolUses(read, []) == []
  {
  }

  method ConvertToolCall(read: JsonReader, tc: Json) returns (r: Json)
    ensures r == ToolUse(read, tc)
  {
    hide ToolUseJson;
    var input := EMPTY_OBJECT;
    var fn := tc.Get("function");
    if fn.Some? {
      var arguments := fn.value.GetStr("arguments");
      if arguments.Some? {
        input := read(arguments.value).GetOr(EMPTY_OBJECT);
      }
    }
    var name := if fn.Some? then fn.value.GetOrNull("name") else Null;
    r := ToolUseJson(tc.GetOrNull("id"), name, input);
  }

  // The blocks of one message, pushed one after the other.
  method PushBlocks(read: JsonReader, msg: Json) returns (content: seq<Json>)
    ensures content == MessageBlocks(read, msg)
  {
    hide Reasoning, ThinkingJson, TextJson, ToolUse, ToolUses;
    NoToolUses(read);
    content := [];
    var reasoning := Reasoning(msg);
    if reasoning.Some? && reasoning.value != "" {
      content := content + [ThinkingJson(reasoning.value)];
    }
    var text := msg.GetStr("content");
    if text.Some? && text.value != "" {
      content := content + [TextJson(text.value)];
    }
    ghost var prose := content;
    var toolCalls := msg.GetArr("tool_calls");
    if toolCalls.Some? {
      var tcs := toolCalls.value;
      for i := 0 to |tcs|
        invariant content == prose + ToolUses(read, tcs[..i])
      {
        var toolUse := ConvertToolCall(read, tcs[i]);
        content := content + [toolUse];
        OneMoreToolUse(read, tcs, i);
      }
      assert tcs[..|tcs|] == tcs;
    }
  }

  // `msgId` is the random message id.
  method OpenAiResponseToAnthropic(read: JsonReader, openai: Json, msgId: string) returns (r: Json)
    ensures r == AnthropicMessage(read, openai, msgId)
  {
    hide MessageJson, TextJson, Usage, StopReason;
    var choice: Option<Json> := None;
    var choices := openai.GetArr("choices");
    if choices.Some? && |choices.value| > 0 {
      choice := Some(choices.value[0]);
    }
    var message := if choice.Some? then choice.value.Get("message") else None;
    var content: seq<Json> := [];
    if message.Some? {
      content := PushBlocks(read, message.value);
    }
    assert content == MessageBlocks(read, Choice(openai).GetOrNull("message"));
    if content == [] {
      content := content + [TextJson("")];
    }
    assert content == ContentBlocks(read, openai);
    var finish := if choice.Some? then choice.value.GetStr("finish_reason") else None;
    var stopReason := if finish.Some? then StopReason(finish.value) else "end_turn";
    assert stopReason == StopReasonOf(openai) by { EndTurn(); }
    var usage := openai.Get("usage");
    r := MessageJson(
      msgId, content, openai.GetOrNull("model"), stopReason,
      if usage.Some? then usage.value.GetOrNull("stop_sequence") else Null, Usage(openai));
  }

  lemma EndTurn()
    ensures StopReason("stop") == "end_turn"
  {
  }
}
