// The OpenAI-to-Anthropic stream converter as a state machine on values: what one parsed
// upstream record, a [DONE] marker or a line overflow does to the converter's fields and
// which events it emits. `StreamConverter` is the mutable object proved against it.
module Converter {
  import opened Wrappers
  import opened JsonValue
  import opened Machine

  // ----- what the converter reads from one upstream record -----

  // One element of `delta.tool_calls`. An empty id is no id; a missing name or missing
  // arguments read as the empty string.
  datatype Fragment = Fragment(index: Option<nat>, id: Option<string>, name: string, args: string)

  // One upstream record. An absent, non-string or empty reasoning or content delta is "";
  // an absent, empty or literal "null" finish reason is None. A present but empty
  // tool_calls array is different from an absent one: it closes open prose blocks.
  datatype Chunk = Chunk(reasoning: string, content: string, tools: Option<seq<Fragment>>, finish: Option<string>)

  function ReadFragment(tc: Json): Fragment {
    var index := tc.Get("index");
    var id := tc.GetStr("id");
    var fn := tc.Get("function");
    Fragment(
      if index.Some? then index.value.AsU64() else None,
      if id.Some? && id.value != "" then id else None,
      if fn.Some? then fn.value.GetStr("name").GetOr("") else "",
      if fn.Some? then fn.value.GetStr("arguments").GetOr("") else "")
  }

  function ReadFragments(tcs: seq<Json>): seq<Fragment> {
    seq(|tcs|, i requires 0 <= i < |tcs| => ReadFragment(tcs[i]))
  }

  function FirstChoice(value: Json): Option<Json> {
    var choices := value.GetArr("choices");
    if choices.Some? && |choices.value| > 0 then Some(choices.value[0]) else None
  }

  function ReadFinish(choice: Json): Option<string> {
    var finish := choice.GetStr("finish_reason");
    if finish.Some? && finish.value != "null" && finish.value != "" then finish else None
  }

  function ReadChunk(value: Json): Chunk {
    var choice := FirstChoice(value);
    if choice.None? then Chunk("", "", None, None)
    else
      var finish := ReadFinish(choice.value);
      var delta := choice.value.Get("delta");
      if delta.None? then Chunk("", "", None, finish)
      else
        var tools := delta.value.GetArr("tool_calls");
        Chunk(
          Reasoning(delta.value).GetOr(""),
          delta.value.GetStr("content").GetOr(""),
          if tools.Some? then Some(ReadFragments(tools.value)) else None,
          finish)
  }

  // ----- what the converter emits -----

  datatype Block = TextBlock | ThinkingBlock | ToolBlock(id: string, name: string)

  datatype Delta = TextDelta(text: string) | ThinkingDelta(thinking: string) | InputJson(json: string)

  datatype Event =
    | MessageStart
    | BlockStart(index: nat, block: Block)
    | BlockDelta(index: nat, delta: Delta)
    | BlockStop(index: nat)
    | MessageDelta(stopReason: string)
    | MessageStop
    | OverflowError

  // ----- state -----

  datatype Slot = Slot(id: string, block: nat)

  datatype State = State(
    started: bool, ended: bool,
    next: nat,                     // content_block_index
    textOpen: bool, thinkingOpen: bool,
    slots: map<nat, Slot>,         // tool_blocks
    order: seq<nat>,               // tool_block_order
    nextSlot: nat, lastSlot: Option<nat>)

  const INITIAL := State(false, false, 0, false, false, map[], [], 0, None)

  // The order in which the slot table happens to be searched: a hash map promises none,
  // so every theorem holds for every such function (or for every one that lists the keys).
  type SearchOrder = map<nat, Slot> -> seq<nat>

  ghost predicate ListsKeys(search: SearchOrder) {
    forall m, k :: k in m ==> k in search(m)
  }

  type Transition = Step<State, Event>

  // ----- transitions -----

  function Start(s: State): Transition {
    if s.started then Step(s, []) else Step(s.(started := true), [MessageStart])
  }

  function CloseThinking(s: State): Transition {
    if s.thinkingOpen then Step(s.(thinkingOpen := false, next := s.next + 1), [BlockStop(s.next)])
    else Step(s, [])
  }

  function CloseText(s: State): Transition {
    if s.textOpen then Step(s.(textOpen := false, next := s.next + 1), [BlockStop(s.next)])
    else Step(s, [])
  }

  function SealProse(s: State): Transition {
    var a := CloseThinking(s);
    var b := CloseText(a.state);
    Step(b.state, a.events + b.events)
  }

  function OpenThinking(s: State): Transition {
    if s.thinkingOpen then Step(s, [])
    else
      var c := CloseText(s);
      Step(c.state.(thinkingOpen := true), c.events + [BlockStart(c.state.next, ThinkingBlock)])
  }

  function OpenText(s: State): Transition {
    var c := CloseThinking(s);
    if c.state.textOpen then c
    else Step(c.state.(textOpen := true), c.events + [BlockStart(c.state.next, TextBlock)])
  }

  function OnReasoning(s: State, text: string): Transition {
    if text == "" then Step(s, [])
    else
      var c := OpenThinking(s);
      Step(c.state, c.events + [BlockDelta(c.state.next, ThinkingDelta(text))])
  }

  function OnContent(s: State, text: string): Transition {
    if text == "" then Step(s, [])
    else
      var c := OpenText(s);
      Step(c.state, c.events + [BlockDelta(c.state.next, TextDelta(text))])
  }

  // The first slot, in search order, that holds `id`.
  function FindSlot(keys: seq<nat>, slots: map<nat, Slot>, id: string): Option<nat> {
    if keys == [] then None
    else if keys[0] in slots && slots[keys[0]].id == id then Some(keys[0])
    else FindSlot(keys[1..], slots, id)
  }

  // Which slot a fragment belongs to, and whether a fresh slot number was drawn for it.
  function Resolve(search: SearchOrder, s: State, f: Fragment): (r: (nat, bool)) {
    if f.index.Some? then (f.index.value, false)
    else if f.id.Some? then
      var found := FindSlot(search(s.slots), s.slots, f.id.value);
      if found.Some? then (found.value, false) else (s.nextSlot, true)
    else (s.lastSlot.GetOr(0), false)
  }

  // A fragment opens a new call unless its slot is occupied and it carries either no id or
  // the slot's own id.
  predicate IsNewCall(slots: map<nat, Slot>, slot: nat, id: Option<string>) {
    if slot in slots then id.Some? && slots[slot].id != id.value else true
  }

  function Decimal(n: nat): string {
    if n < 10 then [('0' as int + n) as char]
    else Decimal(n / 10) + [('0' as int + n % 10) as char]
  }

  function OpenCall(s: State, slot: nat, f: Fragment): Transition {
    var id := if f.id.Some? then f.id.value else "call_synth_" + Decimal(s.nextSlot);
    Step(
      s.(nextSlot := if f.id.Some? then s.nextSlot else s.nextSlot + 1,
         next := s.next + 1,
         order := if slot in s.order then s.order else s.order + [slot],
         slots := s.slots[slot := Slot(id, s.next)]),
      [BlockStart(s.next, ToolBlock(id, f.name))])
  }

  // Resolution recorded in the state: the slot becomes the most recently active one.
  function Touch(search: SearchOrder, s: State, f: Fragment): State {
    var (slot, drawn) := Resolve(search, s, f);
    s.(lastSlot := Some(slot), nextSlot := if drawn then s.nextSlot + 1 else s.nextSlot)
  }

  // The fragment's effect once its slot is known.
  function Deliver(s: State, slot: nat, f: Fragment): Transition {
    var c := if IsNewCall(s.slots, slot, f.id) then OpenCall(s, slot, f) else Step(s, []);
    if f.args == "" then c
    else Step(c.state, c.events + [BlockDelta(c.state.slots[slot].block, InputJson(f.args))])
  }

  function OnFragment(search: SearchOrder, s: State, f: Fragment): Transition {
    Deliver(Touch(search, s, f), Resolve(search, s, f).0, f)
  }

  // One stop event per recorded slot, in the order the slots were first used.
  function ToolStops(slots: map<nat, Slot>, order: seq<nat>): seq<Event> {
    if order == [] then []
    else
      ToolStops(slots, order[..|order| - 1]) +
      (var k := order[|order| - 1]; if k in slots then [BlockStop(slots[k].block)] else [])
  }

  function CloseOpenBlocks(s: State): Transition {
    var a := SealProse(s);
    Step(a.state, a.events + ToolStops(a.state.slots, a.state.order))
  }

  function CloseWithReason(s: State, reason: string): Transition {
    if s.ended then Step(s, [])
    else
      var a := CloseOpenBlocks(s.(ended := true));
      Step(a.state, a.events + [MessageDelta(StopReason(reason)), MessageStop])
  }

  function CloseStream(s: State): Transition {
    if s.started then CloseWithReason(s, "stop") else Step(s, [])
  }

  // ----- records as runs of small operations -----

  // The things the converter does one after the other while it reads its input. Seal is
  // the closing of open prose blocks before the first tool fragment of a record; Warn is
  // the error event of a line overflow.
  datatype Op =
    | Begin
    | Reason(text: string)
    | Content(text: string)
    | Seal
    | Call(fragment: Fragment)
    | Finish(reason: string)
    | Close
    | Warn

  function OnOp(search: SearchOrder, s: State, op: Op): Transition {
    match op
    case Begin => Start(s)
    case Reason(text) => OnReasoning(s, text)
    case Content(text) => OnContent(s, text)
    case Seal => SealProse(s)
    case Call(f) => OnFragment(search, s, f)
    case Finish(reason) => CloseWithReason(s, reason)
    case Close => CloseStream(s)
    case Warn => Step(s, [OverflowError])
  }

  function OpStep(search: SearchOrder): (State, Op) -> Transition {
    (s: State, op: Op) => OnOp(search, s, op)
  }

  function CallOps(fs: seq<Fragment>): seq<Op> {
    seq(|fs|, i requires 0 <= i < |fs| => Call(fs[i]))
  }

  function ToolOps(tools: Option<seq<Fragment>>): seq<Op> {
    if tools.None? then [] else [Seal] + CallOps(tools.value)
  }

  function FinishOps(finish: Option<string>): seq<Op> {
    if finish.None? then [] else [Finish(finish.value)]
  }

  // One upstream record.
  function ChunkOps(c: Chunk): seq<Op> {
    [Begin, Reason(c.reasoning), Content(c.content)] + ToolOps(c.tools) + FinishOps(c.finish)
  }

  // What a record's operations yield, operation by operation.
  lemma FlatMapChunk<O>(f: Op -> seq<O>, c: Chunk)
    ensures FlatMap(f, ChunkOps(c)) ==
            f(Begin) + f(Reason(c.reasoning)) + f(Content(c.content)) + FlatMap(f, ToolOps(c.tools)) +
            (if c.finish.Some? then f(Finish(c.finish.value)) else [])
  {
    var prose := [Begin, Reason(c.reasoning), Content(c.content)];
    FlatMapThree(f, Begin, Reason(c.reasoning), Content(c.content));
    FlatMapConcat(f, prose, ToolOps(c.tools));
    if c.finish.Some? {
      FlatMapOne(f, Finish(c.finish.value));
      FlatMapConcat(f, prose + ToolOps(c.tools), FinishOps(c.finish));
    } else {
      assert prose + ToolOps(c.tools) + FinishOps(c.finish) == prose + ToolOps(c.tools);
    }
  }

  lemma FlatMapTools<O>(f: Op -> seq<O>, fs: seq<Fragment>)
    ensures FlatMap(f, ToolOps(Some(fs))) == f(Seal) + FlatMap(f, CallOps(fs))
  {
    FlatMapOne(f, Seal);
    FlatMapConcat(f, [Seal], CallOps(fs));
  }

  // What a run feeds the converter: a parsed record, the [DONE] marker, or its line buffer
  // growing past the cap.
  datatype Input = Data(chunk: Chunk) | Done | Overflow

  function InputOps(i: Input): seq<Op> {
    match i
    case Data(c) => ChunkOps(c)
    case Done => [Close]
    case Overflow => [Warn, Close]
  }

  function OpsOf(inputs: seq<Input>): seq<Op> {
    FlatMap(InputOps, inputs)
  }

  // A run fed one input more.
  lemma RunOneMore(search: SearchOrder, s: State, before: seq<Input>, i: Input)
    ensures var a := Run(OpStep(search), s, OpsOf(before));
            var b := Run(OpStep(search), a.state, InputOps(i));
            && OpsOf(before + [i]) == OpsOf(before) + InputOps(i)
            && Run(OpStep(search), s, OpsOf(before + [i])) == Step(b.state, a.events + b.events)
  {
    hide OnOp, InputOps;
    assert (before + [i])[..|before|] == before;
    RunConcat(OpStep(search), s, OpsOf(before), InputOps(i));
  }
}
