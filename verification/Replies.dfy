// A non-streaming answer as a client reads it. What an OpenAI upstream replies, printed as
// JSON, comes out as the Anthropic message that says the same.
module Replies {
  import opened Wrappers
  import opened JsonValue
  import opened Records
  import R = Response
  import E = Endings

  // ----- what the upstream replies -----

  // A call's id and name are passed on as they are, whatever they are.
  datatype Call = Call(id: Field, name: Field, args: Option<string>)

  datatype Reply = Reply(
    reasoning: string, content: string, calls: seq<Call>, finish: Option<string>,
    model: Field, prompt: Field, completion: Field, stopSequence: Field)

  // How a reply is written where it has nothing to say, and what else the objects hold.
  datatype ReplyStyle = ReplyStyle(
    reasoning: ReasoningStyle, content: Field, noCalls: Field, finish: Field, args: Field,
    more: seq<Json>, message: Fields, choice: Fields, usage: Fields, others: Fields)

  predicate NoString(v: Field) {
    v.Some? ==> !v.value.Str?
  }

  predicate StyleFits(s: ReplyStyle) {
    ReasoningFits(s.reasoning) && NoText(s.content) && NoList(s.noCalls) && NoString(s.finish) && NoString(s.args)
  }

  function PrintCall(c: Call, s: ReplyStyle): Json {
    var fn := Obj(Put(Put(map[], "name", c.name), "arguments", StrField(c.args, s.args)));
    Obj(Put(Put(map[], "id", c.id), "function", Some(fn)))
  }

  function PrintCalls(calls: seq<Call>, s: ReplyStyle): seq<Json> {
    seq(|calls|, i requires 0 <= i < |calls| => PrintCall(calls[i], s))
  }

  function PrintMessage(r: Reply, s: ReplyStyle): Json {
    var calls := if r.calls == [] then s.noCalls else Some(Arr(PrintCalls(r.calls, s)));
    Obj(Put(Put(PrintReasoning(s.message, r.reasoning, s.reasoning), "content", TextField(r.content, s.content)), "tool_calls", calls))
  }

  function PrintReply(r: Reply, s: ReplyStyle): Json {
    var choice := Obj(Put(Put(s.choice, "message", Some(PrintMessage(r, s))), "finish_reason", StrField(r.finish, s.finish)));
    var usage := Obj(Put(Put(Put(s.usage, "prompt_tokens", r.prompt), "completion_tokens", r.completion), "stop_sequence", r.stopSequence));
    Obj(Put(Put(Put(s.others, "choices", Some(Arr([choice] + s.more))), "model", r.model), "usage", Some(usage)))
  }

  // ----- what the client reads -----

  datatype Block = Thinking(text: string) | Text(text: string) | Use(id: Json, name: Json, input: Json) | Strange

  datatype Received = Received(
    id: Json, kind: Json, role: Json, model: Json, content: seq<Block>, stopReason: Json, stopSequence: Json,
    inputTokens: Json, outputTokens: Json)

  function ReadBlock(b: Json): Block {
    match b.GetOrNull("type")
    case Str(kind) =>
      if kind == "thinking" && b.GetStr("thinking").Some? then Thinking(b.GetStr("thinking").value)
      else if kind == "text" && b.GetStr("text").Some? then Text(b.GetStr("text").value)
      else if kind == "tool_use" then Use(b.GetOrNull("id"), b.GetOrNull("name"), b.GetOrNull("input"))
      else Strange
    case _ => Strange
  }

  function ReadBlocks(blocks: seq<Json>): seq<Block> {
    seq(|blocks|, i requires 0 <= i < |blocks| => ReadBlock(blocks[i]))
  }

  function ReadMessage(m: Json): Received {
    var usage := m.GetOrNull("usage");
    Received(
      m.GetOrNull("id"), m.GetOrNull("type"), m.GetOrNull("role"), m.GetOrNull("model"),
      ReadBlocks(m.GetArr("content").GetOr([])), m.GetOrNull("stop_reason"), m.GetOrNull("stop_sequence"),
      usage.GetOrNull("input_tokens"), usage.GetOrNull("output_tokens"))
  }

  // ----- that it is the reply -----

  function UseOf(read: JsonReader, c: Call): Block {
    var input := if c.args.Some? && read(c.args.value).Some? then read(c.args.value).value else Obj(map[]);
    Use(c.id.GetOr(Null), c.name.GetOr(Null), input)
  }

  function UsesOf(read: JsonReader, calls: seq<Call>): seq<Block> {
    seq(|calls|, i requires 0 <= i < |calls| => UseOf(read, calls[i]))
  }

  function Said(read: JsonReader, r: Reply): seq<Block> {
    var all := (if r.reasoning == "" then [] else [Thinking(r.reasoning)]) + (if r.content == "" then [] else [Text(r.content)]) +
               UsesOf(read, r.calls);
    if all == [] then [Text("")] else all
  }

  function Conveyed(read: JsonReader, r: Reply, msgId: string): Received {
    Received(
      Str(msgId), Str("message"), Str("assistant"), r.model.GetOr(Null), Said(read, r),
      Str(E.Mapped(r.finish.GetOr("stop"))), r.stopSequence.GetOr(Null), r.prompt.GetOr(Int(0)), r.completion.GetOr(Int(0)))
  }

  lemma ReadsUse(read: JsonReader, c: Call, s: ReplyStyle)
    requires NoString(s.args)
    ensures ReadBlock(R.ToolUse(read, PrintCall(c, s))) == UseOf(read, c)
  {
    var tc := PrintCall(c, s);
    assert R.Function(tc).GetStr("arguments") == c.args;
    assert R.Function(tc).GetOrNull("name") == c.name.GetOr(Null) && tc.GetOrNull("id") == c.id.GetOr(Null);
    hide PrintCall, R.Function;
    var b := R.ToolUse(read, tc);
    assert b.GetOrNull("type") == Str("tool_use");
  }

  lemma ReadsProse(text: string)
    ensures ReadBlock(R.ThinkingJson(text)) == Thinking(text) && ReadBlock(R.TextJson(text)) == Text(text)
  {
    assert R.ThinkingJson(text).GetOrNull("type") == Str("thinking");
    assert R.TextJson(text).GetOrNull("type") == Str("text");
  }

  lemma ReadsUses(read: JsonReader, calls: seq<Call>, s: ReplyStyle)
    requires NoString(s.args)
    ensures ReadBlocks(R.ToolUses(read, PrintCalls(calls, s))) == UsesOf(read, calls)
  {
    hide ReadBlock, UseOf, PrintCall, R.ToolUse;
    forall i | 0 <= i < |calls|
      ensures ReadBlock(R.ToolUse(read, PrintCall(calls[i], s))) == UseOf(read, calls[i])
    {
      ReadsUse(read, calls[i], s);
    }
  }

  lemma MessageSays(r: Reply, s: ReplyStyle)
    requires StyleFits(s)
    ensures var m := PrintMessage(r, s);
            && Reasoning(m).GetOr("") == r.reasoning && m.GetStr("content").GetOr("") == r.content
            && m.GetArr("tool_calls").GetOr([]) == PrintCalls(r.calls, s)
  {
    hide PrintCall;
    ReadsReasoning(s.message, r.reasoning, s.reasoning);
  }

  lemma ReadsTwo(a: seq<Json>, b: seq<Json>)
    ensures ReadBlocks(a + b) == ReadBlocks(a) + ReadBlocks(b)
  {
    hide ReadBlock;
  }

  lemma ReadsWords(text: string, thought: bool)
    ensures var b := if thought then R.ThinkingJson(text) else R.TextJson(text);
            ReadBlocks(if text != "" then [b] else []) ==
            if text == "" then [] else [if thought then Thinking(text) else Text(text)]
  {
    hide R.ThinkingJson, R.TextJson, ReadBlock;
    ReadsProse(text);
  }

  lemma SaidParts(read: JsonReader, msg: Json, reasoning: seq<Json>, text: seq<Json>, uses: seq<Json>)
    requires reasoning == if Reasoning(msg).GetOr("") != "" then [R.ThinkingJson(Reasoning(msg).GetOr(""))] else []
    requires text == if msg.GetStr("content").GetOr("") != "" then [R.TextJson(msg.GetStr("content").GetOr(""))] else []
    requires uses == R.ToolUses(read, msg.GetArr("tool_calls").GetOr([]))
    ensures ReadBlocks(R.MessageBlocks(read, msg)) == ReadBlocks(reasoning) + ReadBlocks(text) + ReadBlocks(uses)
  {
    hide Reasoning, R.ThinkingJson, R.TextJson, R.ToolUses, ReadBlocks;
    ReadsTwo(reasoning + text, uses);
    ReadsTwo(reasoning, text);
  }

  lemma ReadsContent(read: JsonReader, r: Reply, s: ReplyStyle)
    requires StyleFits(s)
    ensures var blocks := R.MessageBlocks(read, PrintMessage(r, s));
            ReadBlocks(if blocks == [] then [R.TextJson("")] else blocks) == Said(read, r)
  {
    hide PrintMessage, PrintCalls, Reasoning, R.ThinkingJson, R.TextJson, R.ToolUses, UsesOf, ReadBlock, R.MessageBlocks;
    var msg := PrintMessage(r, s);
    MessageSays(r, s);
    ReadsUses(read, r.calls, s);
    ReadsWords(r.reasoning, true);
    ReadsWords(r.content, false);
    ReadsProse("");
    SaidParts(read, msg,
              if r.reasoning != "" then [R.ThinkingJson(r.reasoning)] else [],
              if r.content != "" then [R.TextJson(r.content)] else [], R.ToolUses(read, PrintCalls(r.calls, s)));
  }

  lemma ChoiceHas(message: Json, finish: Option<string>, blank: Field, others: Fields)
    requires NoString(blank)
    ensures var choice := Obj(Put(Put(others, "message", Some(message)), "finish_reason", StrField(finish, blank)));
            choice.GetOrNull("message") == message && choice.GetStr("finish_reason") == finish
  {
  }

  lemma UsageHas(prompt: Field, completion: Field, stopSequence: Field, others: Fields)
    ensures var usage := Obj(Put(Put(Put(others, "prompt_tokens", prompt), "completion_tokens", completion), "stop_sequence", stopSequence));
            && usage.Get("prompt_tokens") == prompt && usage.Get("completion_tokens") == completion
            && usage.Get("stop_sequence") == stopSequence
  {
  }

  lemma TopHas(choices: seq<Json>, model: Field, usage: Json, others: Fields)
    ensures var openai := Obj(Put(Put(Put(others, "choices", Some(Arr(choices))), "model", model), "usage", Some(usage)));
            && openai.GetArr("choices") == Some(choices) && openai.Get("model") == model && openai.Get("usage") == Some(usage)
  {
  }

  lemma ReplyHas(r: Reply, s: ReplyStyle)
    requires StyleFits(s)
    ensures var openai := PrintReply(r, s);
            && R.Choice(openai).GetOrNull("message") == PrintMessage(r, s)
            && R.Choice(openai).GetStr("finish_reason") == r.finish
            && openai.GetOrNull("model") == r.model.GetOr(Null)
            && openai.GetOrNull("usage").GetOrNull("stop_sequence") == r.stopSequence.GetOr(Null)
            && openai.GetOrNull("usage").Get("prompt_tokens") == r.prompt
            && openai.GetOrNull("usage").Get("completion_tokens") == r.completion
  {
    hide PrintMessage, Put, StrField;
    var choice := Obj(Put(Put(s.choice, "message", Some(PrintMessage(r, s))), "finish_reason", StrField(r.finish, s.finish)));
    var usage := Obj(Put(Put(Put(s.usage, "prompt_tokens", r.prompt), "completion_tokens", r.completion), "stop_sequence", r.stopSequence));
    ChoiceHas(PrintMessage(r, s), r.finish, s.finish, s.choice);
    UsageHas(r.prompt, r.completion, r.stopSequence, s.usage);
    TopHas([choice] + s.more, r.model, usage, s.others);
  }

  lemma MessageHas(msgId: string, content: seq<Json>, model: Json, stopReason: string, stopSequence: Json, input: Json, output: Json)
    ensures var usage := Obj(map["input_tokens" := input, "output_tokens" := output]);
            ReadMessage(R.MessageJson(msgId, content, model, stopReason, stopSequence, usage)) ==
            Received(Str(msgId), Str("message"), Str("assistant"), model, ReadBlocks(content), Str(stopReason), stopSequence, input, output)
  {
    hide ReadBlocks;
    var usage := Obj(map["input_tokens" := input, "output_tokens" := output]);
    assert usage.GetOrNull("input_tokens") == input && usage.GetOrNull("output_tokens") == output;
    var m := R.MessageJson(msgId, content, model, stopReason, stopSequence, usage);
    assert m.GetOrNull("id") == Str(msgId) && m.GetOrNull("type") == Str("message") && m.GetOrNull("role") == Str("assistant");
    assert m.GetOrNull("model") == model && m.Get("content") == Some(Arr(content)) && m.GetOrNull("stop_reason") == Str(stopReason);
    assert m.GetOrNull("stop_sequence") == stopSequence && m.GetOrNull("usage") == usage;
  }

  // Whatever an upstream replies, and however it writes it, the client reads it: reasoning,
  // text and calls in this order, the mapped stop reason, and the token counts.
  lemma ReplyIsConveyed(read: JsonReader, r: Reply, s: ReplyStyle, msgId: string)
    requires StyleFits(s)
    ensures ReadMessage(R.AnthropicMessage(read, PrintReply(r, s), msgId)) == Conveyed(read, r, msgId)
  {
    hide StyleFits, PrintReply, PrintMessage, R.MessageBlocks, R.MessageJson, ReadMessage, ReadBlocks, R.TextJson, Said, StopReason, E.Mapped, R.Choice;
    ReplyHas(r, s);
    ReadsContent(read, r, s);
    E.StopReasonIsMapped(r.finish.GetOr("stop"));
    var openai := PrintReply(r, s);
    MessageHas(
      msgId, R.ContentBlocks(read, openai), openai.GetOrNull("model"), R.StopReasonOf(openai),
      openai.GetOrNull("usage").GetOrNull("stop_sequence"), r.prompt.GetOr(Int(0)), r.completion.GetOr(Int(0)));
  }

  // A reply without a choice becomes one empty text.
  lemma NothingReplied(read: JsonReader, openai: Json)
    requires Choiceless(openai)
    ensures ReadBlocks(R.ContentBlocks(read, openai)) == [Text("")] && R.StopReasonOf(openai) == "end_turn"
  {
    assert R.Choice(openai) == Null;
    assert R.MessageBlocks(read, Null) == [];
    ReadsProse("");
  }
}
