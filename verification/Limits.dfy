// Where the converter does less than its protocol asks, and exactly when: blocks it leaves
// without a stop event, and events it emits after message_stop.
module Limits {
  import opened Wrappers
  import opened JsonValue
  import opened Machine
  import opened Converter
  import opened EventGrammar
  import Endings

  // ----- blocks without a stop -----

  // The state in which operation `i` finds the converter.
  function StateAt(search: SearchOrder, ops: seq<Op>, i: nat): State
    requires i <= |ops|
  {
    Run(OpStep(search), INITIAL, ops[..i]).state
  }

  // Before message_stop, some fragment takes an occupied slot with another id.
  ghost predicate ReusesSlot(search: SearchOrder, ops: seq<Op>) {
    exists i :: 0 <= i < |ops| && Orphaned(search, StateAt(search, ops, i), ops[i]) != {}
  }

  lemma {:induction false} OverwritesCount(search: SearchOrder, ops: seq<Op>)
    ensures Overwrites(search, INITIAL, ops) == 0 <==> !ReusesSlot(search, ops)
  {
    hide Orphaned, Run;
    if ops != [] {
      var before := ops[..|ops| - 1];
      OverwritesCount(search, before);
      PrefixStates(search, ops);
      var last := Orphaned(search, StateAt(search, ops, |before|), ops[|before|]);
      assert |last| == 0 <==> last == {};
    }
  }

  lemma PrefixStates(search: SearchOrder, ops: seq<Op>)
    requires ops != []
    ensures forall i :: 0 <= i < |ops| - 1 ==> StateAt(search, ops[..|ops| - 1], i) == StateAt(search, ops, i)
  {
    forall i | 0 <= i < |ops| - 1 ensures StateAt(search, ops[..|ops| - 1], i) == StateAt(search, ops, i) {
      assert ops[..|ops| - 1][..i] == ops[..i];
    }
  }

  // A finished message leaves a block open if and only if a slot was reused.
  lemma BlocksLeftOpen(search: SearchOrder, inputs: seq<Input>)
    requires Run(OpStep(search), INITIAL, OpsOf(inputs)).state.ended
    ensures var w := Watch(FRESH, Run(OpStep(search), INITIAL, OpsOf(inputs)).events);
            w.Some? && (w.value.open == map[] <==> !ReusesSlot(search, OpsOf(inputs)))
  {
    RunsObeyTheProtocol(search, inputs);
    OverwritesCount(search, OpsOf(inputs));
    hide Run, Watch, Overwrites, ReusesSlot, OpsOf;
    var w := Watch(FRESH, Run(OpStep(search), INITIAL, OpsOf(inputs)).events).value;
    assert |w.open| == 0 <==> w.open == map[];
  }

  // ----- streams that reuse no slot -----

  predicate NoIndices(ops: seq<Op>) {
    forall op :: op in ops && op.Call? ==> op.fragment.index.None?
  }

  // Slots drawn in turn: every occupied slot is below the next, the last one is occupied.
  predicate InTurn(s: State) {
    && (forall k :: k in s.slots ==> k < s.nextSlot)
    && (if s.lastSlot.None? then s.slots == map[] else s.lastSlot.value in s.slots)
  }

  lemma {:induction false} FoundSlotHolds(keys: seq<nat>, slots: map<nat, Slot>, id: string)
    ensures var r := FindSlot(keys, slots, id); r.Some? ==> r.value in slots && slots[r.value].id == id
  {
    if keys != [] {
      FoundSlotHolds(keys[1..], slots, id);
    }
  }

  lemma CallInTurn(search: SearchOrder, s: State, f: Fragment)
    requires InTurn(s) && f.index.None?
    ensures Orphaned(search, s, Call(f)) == {} && InTurn(OnFragment(search, s, f).state)
  {
    if f.id.Some? {
      FoundSlotHolds(search(s.slots), s.slots, f.id.value);
    }
    hide FindSlot, Decimal;
  }

  lemma ProseKeepsSlots(s: State, text: string)
    ensures forall t :: t in {OnReasoning(s, text).state, OnContent(s, text).state, SealProse(s).state} ==>
      t.slots == s.slots && t.nextSlot == s.nextSlot && t.lastSlot == s.lastSlot
  {
  }

  lemma OthersKeepSlots(search: SearchOrder, s: State, op: Op)
    requires !op.Call?
    ensures var t := OnOp(search, s, op).state;
            t.slots == s.slots && t.nextSlot == s.nextSlot && t.lastSlot == s.lastSlot
  {
    ProseKeepsSlots(s, if op.Reason? || op.Content? then op.text else "");
    ProseKeepsSlots(s.(ended := true), "");
    hide OnReasoning, OnContent, SealProse, ToolStops, StopReason;
  }

  lemma {:induction false} StaysInTurn(search: SearchOrder, ops: seq<Op>)
    requires NoIndices(ops)
    ensures InTurn(StateAt(search, ops, |ops|)) && Overwrites(search, INITIAL, ops) == 0
  {
    hide OnOp, InTurn, Orphaned;
    assert ops[..|ops|] == ops;
    if ops == [] {
      assert InTurn(INITIAL) by { InitialInTurn(); }
    } else {
      var before, op := ops[..|ops| - 1], ops[|ops| - 1];
      StaysInTurn(search, before);
      assert before[..|before|] == before;
      StepInTurn(search, StateAt(search, ops, |before|), op);
    }
  }

  lemma InitialInTurn()
    ensures InTurn(INITIAL)
  {
  }

  lemma StepInTurn(search: SearchOrder, s: State, op: Op)
    requires InTurn(s) && (op.Call? ==> op.fragment.index.None?)
    ensures InTurn(OnOp(search, s, op).state) && Orphaned(search, s, op) == {}
  {
    hide OnFragment, Resolve, IsNewCall;
    if op.Call? {
      CallInTurn(search, s, op.fragment);
    } else {
      OthersKeepSlots(search, s, op);
    }
  }

  // The id, if any, with which each index was first seen; every fragment has an index.
  function FirstIds(ops: seq<Op>): map<nat, Option<string>> {
    if ops == [] then map[]
    else
      var first, op := FirstIds(ops[..|ops| - 1]), ops[|ops| - 1];
      if op.Call? && op.fragment.index.Some? && op.fragment.index.value !in first then
        first[op.fragment.index.value := op.fragment.id]
      else first
  }

  // No index is seen with an id other than its first.
  predicate OneIdPerIndex(ops: seq<Op>) {
    if ops == [] then true
    else
      var before, op := ops[..|ops| - 1], ops[|ops| - 1];
      && OneIdPerIndex(before)
      && (op.Call? ==>
          && op.fragment.index.Some?
          && (op.fragment.index.value in FirstIds(before) && op.fragment.id.Some? ==>
              FirstIds(before)[op.fragment.index.value] == op.fragment.id))
  }

  predicate HoldsFirst(s: State, first: map<nat, Option<string>>) {
    && s.slots.Keys == first.Keys
    && forall k :: k in first && first[k].Some? ==> s.slots[k].id == first[k].value
  }

  lemma CallHoldsFirst(search: SearchOrder, s: State, first: map<nat, Option<string>>, f: Fragment)
    requires HoldsFirst(s, first) && f.index.Some?
    requires f.index.value in first && f.id.Some? ==> first[f.index.value] == f.id
    ensures Orphaned(search, s, Call(f)) == {}
    ensures HoldsFirst(OnFragment(search, s, f).state, if f.index.value in first then first else first[f.index.value := f.id])
  {
    hide Decimal;
  }

  lemma {:induction false} StaysFirst(search: SearchOrder, ops: seq<Op>)
    requires OneIdPerIndex(ops)
    ensures HoldsFirst(StateAt(search, ops, |ops|), FirstIds(ops)) && Overwrites(search, INITIAL, ops) == 0
  {
    hide OnOp, HoldsFirst, Orphaned;
    assert ops[..|ops|] == ops;
    if ops == [] {
      assert HoldsFirst(INITIAL, map[]) by { InitialHoldsFirst(); }
    } else {
      var before, op := ops[..|ops| - 1], ops[|ops| - 1];
      StaysFirst(search, before);
      assert before[..|before|] == before;
      StepHoldsFirst(search, StateAt(search, ops, |before|), before, op);
      assert before + [op] == ops;
    }
  }

  lemma InitialHoldsFirst()
    ensures HoldsFirst(INITIAL, map[])
  {
  }

  lemma StepHoldsFirst(search: SearchOrder, s: State, before: seq<Op>, op: Op)
    requires HoldsFirst(s, FirstIds(before)) && OneIdPerIndex(before + [op])
    ensures HoldsFirst(OnOp(search, s, op).state, FirstIds(before + [op])) && Orphaned(search, s, op) == {}
  {
    hide OnFragment, Resolve, IsNewCall;
    assert (before + [op])[..|before|] == before;
    if op.Call? {
      CallHoldsFirst(search, s, FirstIds(before), op.fragment);
    } else {
      OthersKeepSlots(search, s, op);
    }
  }

  // Every block of a finished message was stopped when no fragment has an index, or when
  // all have one and no index changes its id.
  lemma OrderlyStreamsCloseAll(search: SearchOrder, inputs: seq<Input>)
    requires NoIndices(OpsOf(inputs)) || OneIdPerIndex(OpsOf(inputs))
    requires Run(OpStep(search), INITIAL, OpsOf(inputs)).state.ended
    ensures var w := Watch(FRESH, Run(OpStep(search), INITIAL, OpsOf(inputs)).events);
            w.Some? && w.value.open == map[]
  {
    hide Run, Watch, OpsOf, NoIndices, OneIdPerIndex, ReusesSlot;
    if NoIndices(OpsOf(inputs)) {
      StaysInTurn(search, OpsOf(inputs));
    } else {
      StaysFirst(search, OpsOf(inputs));
    }
    OverwritesCount(search, OpsOf(inputs));
    BlocksLeftOpen(search, inputs);
  }

  // Two calls at index 0: the first block is never stopped.
  const FIRST := Fragment(Some(0), Some("a"), "f", "")
  const SECOND := Fragment(Some(0), Some("b"), "g", "")

  lemma ReuseLosesStop(search: SearchOrder)
    ensures var a := OnFragment(search, INITIAL.(started := true), FIRST);
            var b := OnFragment(search, a.state, SECOND);
            var c := CloseWithReason(b.state, "tool_calls");
            a.events + b.events + c.events ==
            [BlockStart(0, ToolBlock("a", "f")), BlockStart(1, ToolBlock("b", "g")),
             BlockStop(1), MessageDelta("tool_use"), MessageStop]
  {
    var a := OnFragment(search, INITIAL.(started := true), FIRST).state;
    assert a.slots == map[0 := Slot("a", 0)] && a.order == [0];
    var b := OnFragment(search, a, SECOND).state;
    assert b.slots == map[0 := Slot("b", 1)] && b.order == [0];
    OneStop(b.slots, 0);
  }

  lemma OneStop(slots: map<nat, Slot>, k: nat)
    requires k in slots
    ensures ToolStops(slots, [k]) == [BlockStop(slots[k].block)]
  {
    assert [k][..0] == [];
  }

  // ----- after message_stop -----

  // What an operation must be for a converter past message_stop to stay silent.
  predicate Mute(search: SearchOrder, s: State, op: Op) {
    match op
    case Reason(text) => text == ""
    case Content(text) => text == ""
    case Seal => !ProseOpen(s)
    case Call(f) => f.args == "" && !IsNewCall(s.slots, Resolve(search, s, f).0, f.id)
    case Warn => false
    case _ => true
  }

  lemma SpeaksOnce(search: SearchOrder, s: State, op: Op)
    requires s.started && s.ended
    ensures OnOp(search, s, op).events == [] <==> Mute(search, s, op)
  {
    hide Resolve, Decimal;
    if op.Call? {
      var t := Touch(search, s, op.fragment);
      assert t.slots == s.slots;
    }
  }

  // Each operation finds the converter in a state in which it has nothing to say.
  ghost predicate AllMute(search: SearchOrder, s: State, ops: seq<Op>) {
    forall i :: 0 <= i < |ops| ==> Mute(search, Run(OpStep(search), s, ops[..i]).state, ops[i])
  }

  lemma LastMute(search: SearchOrder, s: State, ops: seq<Op>)
    requires ops != []
    ensures var before, op := ops[..|ops| - 1], ops[|ops| - 1];
            AllMute(search, s, ops) <==> AllMute(search, s, before) && Mute(search, Run(OpStep(search), s, before).state, op)
  {
    hide Mute, Run;
    var before := ops[..|ops| - 1];
    assert forall i :: 0 <= i < |before| ==> before[..i] == ops[..i] && before[i] == ops[i];
  }

  // The end of the message suppresses nothing but a second end: a run after message_stop is
  // silent if and only if none of its operations has anything to say.
  lemma {:induction false} SpeaksAfterStop(search: SearchOrder, s: State, ops: seq<Op>)
    requires s.started && s.ended
    ensures Run(OpStep(search), s, ops).events == [] <==> AllMute(search, s, ops)
    ensures Run(OpStep(search), s, ops).state.started && Run(OpStep(search), s, ops).state.ended
  {
    hide OnOp, Mute, AllMute;
    if ops == [] {
      assert AllMute(search, s, ops) by { NothingMute(search, s); }
    } else {
      var before, op := ops[..|ops| - 1], ops[|ops| - 1];
      SpeaksAfterStop(search, s, before);
      LastMute(search, s, ops);
      var t := Run(OpStep(search), s, before);
      SpeaksOnce(search, t.state, op);
      Endings.OpReports(search, t.state, op);
    }
  }

  lemma NothingMute(search: SearchOrder, s: State)
    ensures AllMute(search, s, [])
  {
  }
}
