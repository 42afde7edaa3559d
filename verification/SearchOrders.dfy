// The converter searches its table of tool slots in whatever order a hash map happens to
// give: when that shows and when it does not.
module SearchOrders {
  import opened Wrappers
  import opened Machine
  import opened Converter
  import opened EventGrammar
  import opened ToolSlots

  // ----- the order in which the slot table is searched -----

  ghost predicate OneHolder(slots: map<nat, Slot>, id: string) {
    forall j, k :: j in slots && k in slots && slots[j].id == id && slots[k].id == id ==> j == k
  }

  // Only a fragment with an id and without an index has the table searched.
  predicate Searches(f: Fragment) {
    f.index.None? && f.id.Some?
  }

  // Whenever the table is searched, at most one slot holds the id searched for.
  ghost predicate Unambiguous(search: SearchOrder, ops: seq<Op>) {
    forall i :: 0 <= i < |ops| && ops[i].Call? && Searches(ops[i].fragment) ==>
      OneHolder(Run(OpStep(search), INITIAL, ops[..i]).state.slots, ops[i].fragment.id.value)
  }

  lemma SameFound(one: seq<nat>, two: seq<nat>, slots: map<nat, Slot>, id: string)
    requires OneHolder(slots, id) && forall k :: k in slots ==> k in one && k in two
    ensures FindSlot(one, slots, id) == FindSlot(two, slots, id)
  {
    FindSlotFinds(one, slots, id);
    FindSlotFinds(two, slots, id);
  }

  lemma SameStep(one: SearchOrder, two: SearchOrder, s: State, op: Op)
    requires ListsKeys(one) && ListsKeys(two)
    requires op.Call? && Searches(op.fragment) ==> OneHolder(s.slots, op.fragment.id.value)
    ensures OnOp(one, s, op) == OnOp(two, s, op)
  {
    if op.Call? {
      if Searches(op.fragment) {
        SameFound(one(s.slots), two(s.slots), s.slots, op.fragment.id.value);
      }
      assert Touch(one, s, op.fragment) == Touch(two, s, op.fragment);
    }
    hide Touch, Deliver, ListsKeys, CloseWithReason, OnReasoning, OnContent, OneHolder;
  }

  lemma UnambiguousBefore(search: SearchOrder, ops: seq<Op>)
    requires Unambiguous(search, ops) && ops != []
    ensures Unambiguous(search, ops[..|ops| - 1])
  {
    hide OnOp, OneHolder, Run;
    var before := ops[..|ops| - 1];
    assert forall i :: 0 <= i < |before| ==> before[..i] == ops[..i] && before[i] == ops[i];
  }

  // The order of the search never shows on an unambiguous run.
  lemma {:induction false} SearchOrderIsIrrelevant(one: SearchOrder, two: SearchOrder, ops: seq<Op>)
    requires ListsKeys(one) && ListsKeys(two) && Unambiguous(one, ops)
    ensures Run(OpStep(one), INITIAL, ops) == Run(OpStep(two), INITIAL, ops)
  {
    hide OnOp, ListsKeys, OneHolder;
    if ops != [] {
      var before, op := ops[..|ops| - 1], ops[|ops| - 1];
      UnambiguousBefore(one, ops);
      SearchOrderIsIrrelevant(one, two, before);
      SameStep(one, two, Run(OpStep(one), INITIAL, before).state, op);
    }
  }

  ghost function Listed(keys: set<nat>): (r: seq<nat>)
    ensures forall k :: k in keys ==> k in r
  {
    if keys == {} then []
    else var k :| k in keys; [k] + Listed(keys - {k})
  }

  // A search that looks at `k` first.
  ghost function Preferring(k: nat): (search: SearchOrder)
    ensures ListsKeys(search)
    ensures forall m :: search(m) == [k] + Listed(m.Keys)
  {
    (m: map<nat, Slot>) => [k] + Listed(m.Keys)
  }

  lemma Prefers(k: nat, s: State, f: Fragment)
    requires Searches(f) && k in s.slots && s.slots[k].id == f.id.value
    ensures OnFragment(Preferring(k), s, f).state.lastSlot == Some(k)
  {
    var search := Preferring(k);
    assert search(s.slots)[0] == k;
    assert Resolve(search, s, f).0 == k;
    hide Resolve, Decimal;
  }

  // On an ambiguous step it does show: two slots that hold the id are two outcomes.
  lemma SearchOrderShows(s: State, f: Fragment)
    requires Searches(f)
    ensures OneHolder(s.slots, f.id.value) <==>
            forall one, two :: ListsKeys(one) && ListsKeys(two) ==> OnFragment(one, s, f) == OnFragment(two, s, f)
  {
    hide OnFragment, ListsKeys;
    if OneHolder(s.slots, f.id.value) {
      forall one, two | ListsKeys(one) && ListsKeys(two)
        ensures OnFragment(one, s, f) == OnFragment(two, s, f)
      {
        SameStep(one, two, s, Op.Call(f));
      }
    } else {
      var j, k :| j in s.slots && k in s.slots && s.slots[j].id == f.id.value && s.slots[k].id == f.id.value && j != k;
      Prefers(j, s, f);
      Prefers(k, s, f);
      assert OnFragment(Preferring(j), s, f) != OnFragment(Preferring(k), s, f);
    }
  }

  lemma HoldersAreDistinct(s: State, c: Calls, blocks: seq<Content>, f: Fragment)
    requires Shows(s, c.list, blocks) && Permitted(c, f) && Searches(f)
    ensures OneHolder(s.slots, f.id.value)
  {
    PositionFinds(c.list, f.id.value);
  }

  // Regular streams are unambiguous.
  lemma RegularIsUnambiguous(search: SearchOrder, ops: seq<Op>)
    requires ListsKeys(search) && Scoped(search, INITIAL, ops)
    requires Regular(FlatMap(FragmentOf, ops))
    ensures Unambiguous(search, ops)
  {
    hide OnOp, Permitted, ListsKeys, Shows, Tracks, OneHolder, Run;
    forall i | 0 <= i < |ops| && ops[i].Call? && Searches(ops[i].fragment)
      ensures OneHolder(Run(OpStep(search), INITIAL, ops[..i]).state.slots, ops[i].fragment.id.value)
    {
      var before, f := ops[..i], ops[i].fragment;
      var fs := FlatMap(FragmentOf, before);
      ScopedPrefix(search, INITIAL, ops, i);
      assert ops == before + [ops[i]] + ops[i + 1..];
      FlatMapConcat(FragmentOf, before, [ops[i]]);
      FlatMapConcat(FragmentOf, before + [ops[i]], ops[i + 1..]);
      FlatMapOne(FragmentOf, ops[i]);
      RegularPrefix(fs + [f], FlatMap(FragmentOf, ops[i + 1..]));
      RegularPrefix(fs, [f]);
      RunShows(search, before);
      var t := Run(OpStep(search), INITIAL, before);
      HoldersAreDistinct(t.state, Fold(Accumulate, NO_CALLS, fs), Reassemble(t.events), f);
    }
  }
}
