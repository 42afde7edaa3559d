// Nothing the upstream says is lost, repeated or reordered: the payloads of the emitted
// deltas are the fragments of the input, on every run and even after message_stop.
module Payloads {
  import opened Wrappers
  import opened Machine
  import opened Converter

  // The payload of an emitted event, if it is a delta.
  function Emitted(e: Event): seq<Delta> {
    if e.BlockDelta? then [e.delta] else []
  }

  // The non-empty pieces of text, reasoning and arguments in a record, in the order a
  // record is read.
  function Said(i: Input): seq<Delta> {
    if !i.Data? then []
    else
      var c := i.chunk;
      (if c.reasoning != "" then [ThinkingDelta(c.reasoning)] else []) +
      (if c.content != "" then [TextDelta(c.content)] else []) +
      (if c.tools.Some? then FlatMap(Arguments, c.tools.value) else [])
  }

  function Arguments(f: Fragment): seq<Delta> {
    if f.args != "" then [InputJson(f.args)] else []
  }

  function OpSays(op: Op): seq<Delta> {
    match op
    case Reason(text) => if text != "" then [ThinkingDelta(text)] else []
    case Content(text) => if text != "" then [TextDelta(text)] else []
    case Call(f) => Arguments(f)
    case _ => []
  }

  lemma EmittedMany(xs: seq<Event>, e: Event)
    ensures FlatMap(Emitted, xs + [e]) == FlatMap(Emitted, xs) + Emitted(e)
  {
    assert (xs + [e])[..|xs|] == xs;
  }

  lemma {:induction false} StopsSayNothing(slots: map<nat, Slot>, order: seq<nat>)
    ensures FlatMap(Emitted, ToolStops(slots, order)) == []
  {
    if order != [] {
      var done, k := order[..|order| - 1], order[|order| - 1];
      StopsSayNothing(slots, done);
      if k in slots {
        EmittedMany(ToolStops(slots, done), BlockStop(slots[k].block));
      } else {
        assert ToolStops(slots, order) == ToolStops(slots, done);
      }
    }
  }

  lemma SealSaysNothing(s: State)
    ensures FlatMap(Emitted, SealProse(s).events) == []
    ensures FlatMap(Emitted, CloseThinking(s).events) == FlatMap(Emitted, CloseText(s).events) == []
  {
    var a := CloseThinking(s);
    FlatMapOne(Emitted, BlockStop(s.next));
    FlatMapOne(Emitted, BlockStop(a.state.next));
    FlatMapConcat(Emitted, a.events, CloseText(a.state).events);
  }

  lemma ReasonSays(s: State, text: string)
    ensures FlatMap(Emitted, OnReasoning(s, text).events) == OpSays(Reason(text))
  {
    if text != "" {
      var c := OpenThinking(s);
      SealSaysNothing(s);
      EmittedMany(CloseText(s).events, BlockStart(c.state.next, ThinkingBlock));
      EmittedMany(c.events, BlockDelta(c.state.next, ThinkingDelta(text)));
    }
  }

  lemma ContentSays(s: State, text: string)
    ensures FlatMap(Emitted, OnContent(s, text).events) == OpSays(Content(text))
  {
    if text != "" {
      var c := OpenText(s);
      SealSaysNothing(s);
      EmittedMany(CloseThinking(s).events, BlockStart(c.state.next, TextBlock));
      EmittedMany(c.events, BlockDelta(c.state.next, TextDelta(text)));
    }
  }

  lemma CallSays(search: SearchOrder, s: State, f: Fragment)
    ensures FlatMap(Emitted, OnFragment(search, s, f).events) == Arguments(f)
  {
    var slot := Resolve(search, s, f).0;
    var u := Touch(search, s, f);
    var c := OpenCall(u, slot, f);
    hide Resolve, Touch;
    FlatMapOne(Emitted, c.events[0]);
    assert c.events == [c.events[0]];
    if f.args != "" {
      EmittedMany(c.events, BlockDelta(c.state.slots[slot].block, InputJson(f.args)));
      if !IsNewCall(u.slots, slot, f.id) {
        EmittedMany([], BlockDelta(u.slots[slot].block, InputJson(f.args)));
      }
    }
  }

  lemma FinishSays(s: State, reason: string)
    ensures FlatMap(Emitted, CloseWithReason(s, reason).events) == []
  {
    if !s.ended {
      var a := SealProse(s.(ended := true));
      SealSaysNothing(s.(ended := true));
      StopsSayNothing(a.state.slots, a.state.order);
      var stops := ToolStops(a.state.slots, a.state.order);
      FlatMapConcat(Emitted, a.events, stops);
      var t := CloseWithReason(s, reason);
      var e := t.events[|t.events| - 2];
      assert t.events == a.events + stops + [e] + [MessageStop];
      EmittedMany(a.events + stops, e);
      EmittedMany(a.events + stops + [e], MessageStop);
    }
  }

  lemma OpSaysWhatItEmits(search: SearchOrder, s: State, op: Op)
    ensures FlatMap(Emitted, OnOp(search, s, op).events) == OpSays(op)
  {
    match op
    case Begin => FlatMapOne(Emitted, MessageStart);
    case Reason(text) => ReasonSays(s, text);
    case Content(text) => ContentSays(s, text);
    case Seal => SealSaysNothing(s);
    case Call(f) => CallSays(search, s, f);
    case Finish(reason) => FinishSays(s, reason);
    case Close => FinishSays(s, "stop");
    case Warn => FlatMapOne(Emitted, OverflowError);
  }

  lemma {:induction false} RunSaysWhatItEmits(search: SearchOrder, s: State, ops: seq<Op>)
    ensures FlatMap(Emitted, Run(OpStep(search), s, ops).events) == FlatMap(OpSays, ops)
  {
    if ops != [] {
      var before, op := ops[..|ops| - 1], ops[|ops| - 1];
      RunSaysWhatItEmits(search, s, before);
      var t := Run(OpStep(search), s, before);
      OpSaysWhatItEmits(search, t.state, op);
      FlatMapConcat(Emitted, t.events, OnOp(search, t.state, op).events);
    }
  }

  lemma {:induction false} CallOpsSay(fs: seq<Fragment>)
    ensures FlatMap(OpSays, CallOps(fs)) == FlatMap(Arguments, fs)
  {
    if fs == [] {
      assert CallOps(fs) == [];
    } else {
      var before, f := fs[..|fs| - 1], fs[|fs| - 1];
      assert CallOps(fs) == CallOps(before) + [Call(f)];
      assert CallOps(fs)[..|fs| - 1] == CallOps(before);
      CallOpsSay(before);
    }
  }

  lemma ToolOpsSay(tools: Option<seq<Fragment>>)
    ensures FlatMap(OpSays, ToolOps(tools)) == if tools.Some? then FlatMap(Arguments, tools.value) else []
  {
    if tools.Some? {
      hide FlatMap, CallOps;
      FlatMapTools(OpSays, tools.value);
      CallOpsSay(tools.value);
    }
  }

  lemma ChunkOpsSay(c: Chunk)
    ensures FlatMap(OpSays, ChunkOps(c)) == Said(Data(c))
  {
    hide FlatMap, ChunkOps, ToolOps;
    FlatMapChunk(OpSays, c);
    ToolOpsSay(c.tools);
  }

  lemma InputOpsSay(i: Input)
    ensures FlatMap(OpSays, InputOps(i)) == Said(i)
  {
    match i
    case Data(c) => ChunkOpsSay(c);
    case Done => FlatMapOne(OpSays, Close);
    case Overflow =>
      FlatMapOne(OpSays, Warn);
      FlatMapOne(OpSays, Close);
      FlatMapConcat(OpSays, [Warn], [Close]);
      assert [Warn, Close] == [Warn] + [Close];
  }

  // The main result: deltas out are fragments in, in order.
  lemma {:induction false} PayloadsAreConserved(search: SearchOrder, s: State, inputs: seq<Input>)
    ensures FlatMap(Emitted, Run(OpStep(search), s, OpsOf(inputs)).events) == FlatMap(Said, inputs)
  {
    RunSaysWhatItEmits(search, s, OpsOf(inputs));
    OpsOfSay(inputs);
  }

  lemma {:induction false} OpsOfSay(inputs: seq<Input>)
    ensures FlatMap(OpSays, OpsOf(inputs)) == FlatMap(Said, inputs)
  {
    if inputs != [] {
      var before, i := inputs[..|inputs| - 1], inputs[|inputs| - 1];
      OpsOfSay(before);
      InputOpsSay(i);
      FlatMapConcat(OpSays, OpsOf(before), InputOps(i));
    }
  }
}
