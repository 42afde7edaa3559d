// The stream converter as the mutable object the route holds, each method proved to be the
// transition of the same kind in `Converter`.
module StreamConverter {
  import opened Bytes
  import opened Wrappers
  import opened JsonValue
  import opened Machine
  import opened Text
  import C = Converter

  // Reading a JSON document from text; None is a syntax error.
  type TextReader = seq<byte> -> Option<Json>

  // The byte cap on unfinished input, and the line prefixes and marker the converter knows.
  const MAX_LINE_BUFFER: nat := 1024 * 1024
  const EVENT_PREFIX: seq<byte> := [0x65, 0x76, 0x65, 0x6E, 0x74, 0x3A, 0x20]  // "event: "
  const DATA_PREFIX: seq<byte> := [0x64, 0x61, 0x74, 0x61, 0x3A, 0x20]         // "data: "
  const DONE: seq<byte> := [0x5B, 0x44, 0x4F, 0x4E, 0x45, 0x5D]                // "[DONE]"

  // What one line means to the converter: nothing, a record, or the end marker.
  function LineInputs(read: TextReader, raw: seq<byte>): seq<C.Input> {
    var line := TrimCr(raw);
    if EVENT_PREFIX <= line then []
    else if DATA_PREFIX <= line then
      var payload := line[|DATA_PREFIX|..];
      if Trim(payload) == DONE then [C.Done]
      else
        var value := read(payload);
        if value.Some? then [C.Data(C.ReadChunk(value.value))] else []
    else []
  }

  function LinesInputs(read: TextReader, lines: seq<seq<byte>>): seq<C.Input> {
    FlatMap((raw: seq<byte>) => LineInputs(read, raw), lines)
  }

  // The converter with its line buffer.
  datatype Buffered = Buffered(state: C.State, line: seq<byte>)

  const INITIAL := Buffered(C.INITIAL, [])

  // What a chunk of text feeds the converter, and what stays in the line buffer.
  function ChunkInputs(read: TextReader, line: seq<byte>, raw: seq<byte>): (seq<C.Input>, seq<byte>) {
    var text := line + raw;
    if |text| > MAX_LINE_BUFFER then ([C.Overflow], [])
    else (LinesInputs(read, Lines(text)), Rest(text))
  }

  function Convert(search: C.SearchOrder, read: TextReader, b: Buffered, raw: seq<byte>): Step<Buffered, C.Event> {
    var (inputs, rest) := ChunkInputs(read, b.line, raw);
    var t := Run(C.OpStep(search), b.state, C.OpsOf(inputs));
    Step(Buffered(t.state, rest), t.events)
  }

  function ConvertStep(search: C.SearchOrder, read: TextReader): (Buffered, seq<byte>) -> Step<Buffered, C.Event> {
    (b: Buffered, raw: seq<byte>) => Convert(search, read, b, raw)
  }

  lemma NoCalls(tcs: seq<Json>)
    ensures C.CallOps(C.ReadFragments(tcs[..0])) == []
  {
  }

  lemma OneMoreCall(tcs: seq<Json>, i: nat)
    requires i < |tcs|
    ensures [C.Seal] + C.CallOps(C.ReadFragments(tcs[..i + 1])) ==
            [C.Seal] + C.CallOps(C.ReadFragments(tcs[..i])) + [C.Call(C.ReadFragment(tcs[i]))]
  {
    hide C.ReadFragment;
  }

  // The operations of a record's delta, as they are read from it.
  function DeltaOps(delta: Json): seq<C.Op> {
    var tools := delta.GetArr("tool_calls");
    [C.Reason(Reasoning(delta).GetOr("")), C.Content(delta.GetStr("content").GetOr(""))] +
    C.ToolOps(if tools.Some? then Some(C.ReadFragments(tools.value)) else None)
  }

  lemma TwoWords(search: C.SearchOrder, s: C.State, reasoning: string, content: string)
    ensures var a := C.OnReasoning(s, reasoning);
            var b := C.OnContent(a.state, content);
            Run(C.OpStep(search), s, [C.Reason(reasoning), C.Content(content)]) == Step(b.state, a.events + b.events)
  {
    hide C.OnReasoning, C.OnContent;
    RunOne(C.OpStep(search), s, C.Reason(reasoning));
    RunSnoc(C.OpStep(search), s, [C.Reason(reasoning)], C.Content(content));
    assert [C.Reason(reasoning)] + [C.Content(content)] == [C.Reason(reasoning), C.Content(content)];
  }

  // The operations a value has the converter run, skipping what would do nothing.
  function ValueOps(value: Json): seq<C.Op> {
    var choice := C.FirstChoice(value);
    var delta := if choice.Some? then choice.value.Get("delta") else None;
    [C.Begin] + (if delta.Some? then DeltaOps(delta.value) else []) +
    C.FinishOps(if choice.Some? then C.ReadFinish(choice.value) else None)
  }

  // A record without a delta: the two empty words it stands for do nothing.
  lemma NoDelta(search: C.SearchOrder, s: C.State, finish: seq<C.Op>)
    ensures Run(C.OpStep(search), s, [C.Begin, C.Reason(""), C.Content("")] + finish) ==
            Run(C.OpStep(search), s, [C.Begin] + finish)
  {
    hide C.OnReasoning, C.OnContent, C.Start;
    NoWords(C.Start(s).state);
    RunThree(C.OpStep(search), s, C.Begin, C.Reason(""), C.Content(""));
    RunOne(C.OpStep(search), s, C.Begin);
    assert Run(C.OpStep(search), s, [C.Begin, C.Reason(""), C.Content("")]) == C.Start(s);
    RunConcat(C.OpStep(search), s, [C.Begin, C.Reason(""), C.Content("")], finish);
    RunConcat(C.OpStep(search), s, [C.Begin], finish);
  }

  lemma Regroup(a: C.Op, b: C.Op, c: C.Op, tools: seq<C.Op>, finish: seq<C.Op>)
    ensures [a, b, c] + tools + finish == [a] + ([b, c] + tools) + finish
    ensures [a, b, c] + [] + finish == [a, b, c] + finish && [a] + [] + finish == [a] + finish
  {
  }

  lemma RecordWithDelta(value: Json)
    requires C.FirstChoice(value).Some? && C.FirstChoice(value).value.Get("delta").Some?
    ensures C.ChunkOps(C.ReadChunk(value)) == ValueOps(value)
  {
    hide C.ReadFragments, Reasoning, C.ReadFinish, C.FinishOps, C.FirstChoice, C.ToolOps;
    var c := C.ReadChunk(value);
    Regroup(C.Begin, C.Reason(c.reasoning), C.Content(c.content), C.ToolOps(c.tools), C.FinishOps(c.finish));
  }

  lemma RecordWithoutDelta(value: Json)
    requires C.FirstChoice(value).Some? ==> C.FirstChoice(value).value.Get("delta").None?
    ensures var finish := C.FinishOps(C.ReadChunk(value).finish);
            && C.ChunkOps(C.ReadChunk(value)) == [C.Begin, C.Reason(""), C.Content("")] + finish
            && ValueOps(value) == [C.Begin] + finish
  {
    hide C.ReadFragments, Reasoning, C.ReadFinish, C.FinishOps, C.FirstChoice, DeltaOps;
    Regroup(C.Begin, C.Reason(""), C.Content(""), [], C.FinishOps(C.ReadChunk(value).finish));
  }

  lemma SameRun(search: C.SearchOrder, s: C.State, value: Json)
    ensures Run(C.OpStep(search), s, C.ChunkOps(C.ReadChunk(value))) == Run(C.OpStep(search), s, ValueOps(value))
  {
    hide C.ChunkOps, ValueOps, C.ReadChunk, C.FirstChoice, Run, C.OnOp;
    if C.FirstChoice(value).Some? && C.FirstChoice(value).value.Get("delta").Some? {
      RecordWithDelta(value);
    } else {
      RecordWithoutDelta(value);
      NoDelta(search, s, C.FinishOps(C.ReadChunk(value).finish));
    }
  }

  lemma NoWords(s: C.State)
    ensures C.OnReasoning(s, "") == C.OnContent(s, "") == Step(s, [])
  {
  }

  lemma NoTools(ops: seq<C.Op>)
    ensures ops + C.ToolOps(None) == ops
  {
  }

  lemma NoLines(read: TextReader)
    ensures LinesInputs(read, []) == []
  {
  }

  lemma EmptyRun(search: C.SearchOrder, s: C.State)
    ensures C.OpsOf([]) == [] && Run(C.OpStep(search), s, C.OpsOf([])) == Step(s, [])
  {
  }

  lemma CloseIsOp(search: C.SearchOrder, s: C.State)
    ensures C.OnOp(search, s, C.Close) == C.CloseStream(s)
  {
  }

  lemma OverflowRun(search: C.SearchOrder, s: C.State)
    ensures var t := C.CloseStream(s);
            Run(C.OpStep(search), s, C.OpsOf([C.Overflow])) == Step(t.state, [C.OverflowError] + t.events)
  {
    hide C.CloseStream;
    FlatMapOne(C.InputOps, C.Overflow);
    RunOne(C.OpStep(search), s, C.Warn);
    RunSnoc(C.OpStep(search), s, [C.Warn], C.Close);
    assert [C.Warn] + [C.Close] == [C.Warn, C.Close];
  }

  lemma FirstInputs(read: TextReader, line: seq<byte>, lines: seq<seq<byte>>)
    ensures LinesInputs(read, [line] + lines) == LineInputs(read, line) + LinesInputs(read, lines)
  {
    hide LineInputs;
    var f := (raw: seq<byte>) => LineInputs(read, raw);
    FlatMapConcat(f, [line], lines);
    FlatMapOne(f, line);
  }

  lemma AppendRun(search: C.SearchOrder, s: C.State, xs: seq<C.Input>, ys: seq<C.Input>)
    ensures var a := Run(C.OpStep(search), s, C.OpsOf(xs));
            var b := Run(C.OpStep(search), a.state, C.OpsOf(ys));
            Run(C.OpStep(search), s, C.OpsOf(xs + ys)) == Step(b.state, a.events + b.events)
  {
    hide C.OnOp, C.InputOps;
    FlatMapConcat(C.InputOps, xs, ys);
    RunConcat(C.OpStep(search), s, C.OpsOf(xs), C.OpsOf(ys));
  }

  class OpenAIToAnthropicStreamConverter {
    const search: C.SearchOrder
    const read: TextReader

    var messageStarted: bool
    var messageEnded: bool
    var contentBlockIndex: nat
    var textBlockOpen: bool
    var thinkingBlockOpen: bool
    var toolBlocks: map<nat, C.Slot>
    var toolBlockOrder: seq<nat>
    var nextToolSlot: nat
    var lastToolSlot: Option<nat>
    var lineBuffer: seq<byte>

    constructor (search: C.SearchOrder, read: TextReader)
      ensures this.search == search && this.read == read
      ensures Contents() == INITIAL
    {
      this.search, this.read := search, read;
      messageStarted, messageEnded := false, false;
      contentBlockIndex := 0;
      textBlockOpen, thinkingBlockOpen := false, false;
      toolBlocks, toolBlockOrder := map[], [];
      nextToolSlot, lastToolSlot := 0, None;
      lineBuffer := [];
    }

    ghost function State(): C.State
      reads this
    {
      C.State(messageStarted, messageEnded, contentBlockIndex, textBlockOpen, thinkingBlockOpen,
              toolBlocks, toolBlockOrder, nextToolSlot, lastToolSlot)
    }

    ghost function Contents(): Buffered
      reads this
    {
      Buffered(State(), lineBuffer)
    }

    method StopThinking() returns (events: seq<C.Event>)
      modifies this
      ensures Step(State(), events) == C.CloseThinking(old(State())) && lineBuffer == old(lineBuffer)
    {
      events := [];
      if thinkingBlockOpen {
        thinkingBlockOpen := false;
        events := [C.BlockStop(contentBlockIndex)];
        contentBlockIndex := contentBlockIndex + 1;
      }
    }

    method StopText() returns (events: seq<C.Event>)
      modifies this
      ensures Step(State(), events) == C.CloseText(old(State())) && lineBuffer == old(lineBuffer)
    {
      events := [];
      if textBlockOpen {
        textBlockOpen := false;
        events := [C.BlockStop(contentBlockIndex)];
        contentBlockIndex := contentBlockIndex + 1;
      }
    }

    method ProcessReasoning(reasoning: string) returns (events: seq<C.Event>)
      modifies this
      ensures Step(State(), events) == C.OnReasoning(old(State()), reasoning) && lineBuffer == old(lineBuffer)
    {
      events := [];
      if reasoning != "" {
        if !thinkingBlockOpen {
          events := StopText();
          thinkingBlockOpen := true;
          events := events + [C.BlockStart(contentBlockIndex, C.ThinkingBlock)];
        }
        events := events + [C.BlockDelta(contentBlockIndex, C.ThinkingDelta(reasoning))];
      }
    }

    method ProcessContent(content: string) returns (events: seq<C.Event>)
      modifies this
      ensures Step(State(), events) == C.OnContent(old(State()), content) && lineBuffer == old(lineBuffer)
    {
      events := [];
      if content != "" {
        events := StopThinking();
        if !textBlockOpen {
          textBlockOpen := true;
          events := events + [C.BlockStart(contentBlockIndex, C.TextBlock)];
        }
        events := events + [C.BlockDelta(contentBlockIndex, C.TextDelta(content))];
      }
    }

    method FindToolSlot(id: string) returns (r: Option<nat>)
      ensures r == C.FindSlot(search(toolBlocks), toolBlocks, id)
    {
      var keys := search(toolBlocks);
      for i := 0 to |keys|
        invariant C.FindSlot(keys, toolBlocks, id) == C.FindSlot(keys[i..], toolBlocks, id)
      {
        if keys[i] in toolBlocks && toolBlocks[keys[i]].id == id {
          return Some(keys[i]);
        }
        assert keys[i..][1..] == keys[i + 1..];
      }
      return None;
    }

    // The slot of a fragment; a slot number is drawn for an id not seen before.
    method ResolveSlot(f: C.Fragment) returns (slot: nat)
      modifies this
      ensures slot == C.Resolve(search, old(State()), f).0
      ensures State() == C.Touch(search, old(State()), f) && lineBuffer == old(lineBuffer)
    {
      if f.index.Some? {
        slot := f.index.value;
      } else if f.id.Some? {
        var found := FindToolSlot(f.id.value);
        if found.Some? {
          slot := found.value;
        } else {
          slot := nextToolSlot;
          nextToolSlot := nextToolSlot + 1;
        }
      } else {
        slot := lastToolSlot.GetOr(0);
      }
      lastToolSlot := Some(slot);
    }

    method StartToolBlock(slot: nat, f: C.Fragment) returns (events: seq<C.Event>)
      modifies this
      ensures Step(State(), events) == C.OpenCall(old(State()), slot, f) && lineBuffer == old(lineBuffer)
    {
      var id: string;
      if f.id.Some? {
        id := f.id.value;
      } else {
        id := "call_synth_" + C.Decimal(nextToolSlot);
        nextToolSlot := nextToolSlot + 1;
      }
      var blockIndex := contentBlockIndex;
      contentBlockIndex := contentBlockIndex + 1;
      if slot !in toolBlockOrder {
        toolBlockOrder := toolBlockOrder + [slot];
      }
      events := [C.BlockStart(blockIndex, C.ToolBlock(id, f.name))];
      toolBlocks := toolBlocks[slot := C.Slot(id, blockIndex)];
    }

    method ProcessToolCall(tc: Json) returns (events: seq<C.Event>)
      modifies this
      ensures Step(State(), events) == C.OnFragment(search, old(State()), C.ReadFragment(tc))
      ensures lineBuffer == old(lineBuffer)
    {
      var f := C.ReadFragment(tc);
      var slot := ResolveSlot(f);
      var isNewCall := C.IsNewCall(toolBlocks, slot, f.id);
      events := [];
      if isNewCall {
        events := StartToolBlock(slot, f);
      }
      if f.args != "" {
        if slot in toolBlocks {
          events := events + [C.BlockDelta(toolBlocks[slot].block, C.InputJson(f.args))];
        }
      }
    }

    // Both kinds of prose block, thinking first.
    method StopProse() returns (events: seq<C.Event>)
      modifies this
      ensures Step(State(), events) == C.SealProse(old(State())) && lineBuffer == old(lineBuffer)
    {
      events := StopThinking();
      var more := StopText();
      events := events + more;
    }

    method ProcessToolCalls(tcs: seq<Json>) returns (events: seq<C.Event>)
      modifies this
      ensures Step(State(), events) == Run(C.OpStep(search), old(State()), C.ToolOps(Some(C.ReadFragments(tcs))))
      ensures lineBuffer == old(lineBuffer)
    {
      hide C.OnFragment, C.SealProse, C.ReadFragment, Run, C.CallOps, C.ReadFragments;
      ghost var before := State();
      events := StopProse();
      RunOne(C.OpStep(search), before, C.Seal);
      assert C.CallOps(C.ReadFragments(tcs[..0])) == [] by { NoCalls(tcs); }
      assert [C.Seal] + [] == [C.Seal];
      for i := 0 to |tcs|
        invariant Step(State(), events) == Run(C.OpStep(search), before, [C.Seal] + C.CallOps(C.ReadFragments(tcs[..i])))
        invariant lineBuffer == old(lineBuffer)
      {
        ghost var ops := [C.Seal] + C.CallOps(C.ReadFragments(tcs[..i]));
        var next := ProcessToolCall(tcs[i]);
        events := events + next;
        RunSnoc(C.OpStep(search), before, ops, C.Call(C.ReadFragment(tcs[i])));
        OneMoreCall(tcs, i);
      }
      assert tcs[..|tcs|] == tcs;
    }

    method ProcessDelta(delta: Json) returns (events: seq<C.Event>)
      modifies this
      ensures Step(State(), events) == Run(C.OpStep(search), old(State()), DeltaOps(delta))
      ensures lineBuffer == old(lineBuffer)
    {
      hide C.OnReasoning, C.OnContent, C.ToolOps, C.ReadFragments, Run;
      ghost var before := State();
      var reasoning, content := Reasoning(delta).GetOr(""), delta.GetStr("content").GetOr("");
      events := ProcessReasoning(reasoning);
      var more := ProcessContent(content);
      events := events + more;
      ghost var ops: seq<C.Op> := [C.Reason(reasoning), C.Content(content)];
      TwoWords(search, before, reasoning, content);
      assert Step(State(), events) == Run(C.OpStep(search), before, ops);
      var toolCalls := delta.GetArr("tool_calls");
      if toolCalls.Some? {
        var tools := ProcessToolCalls(toolCalls.value);
        events := events + tools;
        RunConcat(C.OpStep(search), before, ops, C.ToolOps(Some(C.ReadFragments(toolCalls.value))));
      } else {
        NoTools(ops);
      }
    }

    method ProcessOpenAiChunk(value: Json) returns (events: seq<C.Event>)
      modifies this
      ensures Step(State(), events) == Run(C.OpStep(search), old(State()), C.ChunkOps(C.ReadChunk(value)))
      ensures lineBuffer == old(lineBuffer)
    {
      hide C.CloseWithReason, DeltaOps, C.ReadFinish, C.ReadChunk, C.ChunkOps, Run;
      ghost var before := State();
      events := [];
      if !messageStarted {
        messageStarted := true;
        events := [C.MessageStart];
      }
      RunOne(C.OpStep(search), before, C.Begin);
      ghost var ops: seq<C.Op> := [C.Begin];
      assert Step(State(), events) == Run(C.OpStep(search), before, ops);
      var choice := C.FirstChoice(value);
      var delta := if choice.Some? then choice.value.Get("delta") else None;
      if delta.Some? {
        var words := ProcessDelta(delta.value);
        events := events + words;
        RunConcat(C.OpStep(search), before, ops, DeltaOps(delta.value));
        ops := ops + DeltaOps(delta.value);
      }
      var reason := if choice.Some? then C.ReadFinish(choice.value) else None;
      if reason.Some? {
        var closing := CloseWithStopReason(reason.value);
        events := events + closing;
        RunSnoc(C.OpStep(search), before, ops, C.Finish(reason.value));
        ops := ops + [C.Finish(reason.value)];
      }
      assert ops == ValueOps(value);
      SameRun(search, before, value);
    }

    method CloseOpenBlocks() returns (events: seq<C.Event>)
      modifies this
      ensures Step(State(), events) == C.CloseOpenBlocks(old(State())) && lineBuffer == old(lineBuffer)
    {
      hide C.SealProse;
      events := StopProse();
      ghost var prose := events;
      for i := 0 to |toolBlockOrder|
        invariant events == prose + C.ToolStops(toolBlocks, toolBlockOrder[..i])
      {
        var slot := toolBlockOrder[i];
        assert toolBlockOrder[..i + 1][..i] == toolBlockOrder[..i];
        if slot in toolBlocks {
          events := events + [C.BlockStop(toolBlocks[slot].block)];
        }
      }
      assert toolBlockOrder[..|toolBlockOrder|] == toolBlockOrder;
    }

    method CloseWithStopReason(reason: string) returns (events: seq<C.Event>)
      modifies this
      ensures Step(State(), events) == C.CloseWithReason(old(State()), reason) && lineBuffer == old(lineBuffer)
    {
      if messageEnded {
        return [];
      }
      messageEnded := true;
      events := CloseOpenBlocks();
      events := events + [C.MessageDelta(StopReason(reason)), C.MessageStop];
    }

    method CloseStream() returns (events: seq<C.Event>)
      modifies this
      ensures Step(State(), events) == C.CloseStream(old(State())) && lineBuffer == old(lineBuffer)
    {
      if messageStarted {
        events := CloseWithStopReason("stop");
      } else {
        events := [];
      }
    }
  
    method ConvertChunk(raw: seq<byte>) returns (events: seq<C.Event>)
      modifies this
      ensures Step(Contents(), events) == Convert(search, read, old(Contents()), raw)
    {
      hide C.OnOp, Rest, Lines, FindNewline, C.InputOps, Run, LinesInputs;
      ghost var before := State();
      lineBuffer := lineBuffer + raw;
      if |lineBuffer| > MAX_LINE_BUFFER {
        lineBuffer := [];
        var closing := CloseStream();
        events := [C.OverflowError] + closing;
        OverflowRun(search, before);
        return;
      }
      events := [];
      ghost var text := lineBuffer;
      ghost var inputs: seq<C.Input> := [];
      assert LinesInputs(read, []) == [] by { NoLines(read); }
      assert C.OpsOf([]) == [];
      EmptyRun(search, before);
      while LF in lineBuffer
        invariant messageStarted == State().started
        invariant LinesInputs(read, Lines(text)) == inputs + LinesInputs(read, Lines(lineBuffer))
        invariant Rest(text) == Rest(lineBuffer)
        invariant Step(State(), events) == Run(C.OpStep(search), before, C.OpsOf(inputs))
        decreases |lineBuffer|
      {
        var pos := FindNewline(lineBuffer);
        NewlineFound(lineBuffer);
        var raw := lineBuffer[..pos];
        FirstLine(lineBuffer, pos);
        FirstInputs(read, raw, Lines(lineBuffer[pos + 1..]));
        lineBuffer := lineBuffer[pos + 1..];
        var next := ProcessLine(raw);
        events := events + next;
        AppendRun(search, before, inputs, LineInputs(read, raw));
        inputs := inputs + LineInputs(read, raw);
      }
      UnbrokenLine(lineBuffer);
      NoLines(read);
      assert LinesInputs(read, Lines(text)) == inputs;
      assert ChunkInputs(read, old(lineBuffer), raw) == (inputs, lineBuffer);
    }

    method ProcessLine(raw: seq<byte>) returns (events: seq<C.Event>)
      modifies this
      ensures Step(State(), events) == Run(C.OpStep(search), old(State()), C.OpsOf(LineInputs(read, raw)))
      ensures lineBuffer == old(lineBuffer)
    {
      hide C.OnOp, C.ChunkOps, Run, TrimCr, Trim;
      EmptyRun(search, State());
      events := [];
      var line := TrimCr(raw);
      if EVENT_PREFIX <= line {
        return;
      }
      if DATA_PREFIX <= line {
        var payload := line[|DATA_PREFIX|..];
        if Trim(payload) == DONE {
          FlatMapOne(C.InputOps, C.Done);
          RunOne(C.OpStep(search), State(), C.Close);
          CloseIsOp(search, State());
          events := CloseStream();
          return;
        }
        var value := read(payload);
        if value.Some? {
          FlatMapOne(C.InputOps, C.Data(C.ReadChunk(value.value)));
          events := ProcessOpenAiChunk(value.value);
        }
      }
    }
  }
}
