// The ids the converter makes up for calls that come without one.
module SyntheticIds {
  import opened Machine
  import opened Converter

  // What a decimal numeral stands for.
  function Number(digits: string): int {
    if digits == "" then 0
    else Number(digits[..|digits| - 1]) * 10 + (digits[|digits| - 1] as int - '0' as int)
  }

  lemma {:induction false} DecimalIsNumeral(n: nat)
    ensures Number(Decimal(n)) == n
    ensures forall c :: c in Decimal(n) ==> '0' <= c <= '9'
  {
    var d := Decimal(n);
    if n < 10 {
      assert d[..|d| - 1] == "" && Number("") == 0;
    } else {
      DecimalIsNumeral(n / 10);
      assert d[..|d| - 1] == Decimal(n / 10);
    }
  }

  // An operation that opens a call without an id, and the id it is given.
  ghost predicate Names(t: Transition, op: Op, id: string) {
    && op.Call? && op.fragment.id.None?
    && exists e :: e in t.events && e.BlockStart? && e.block.ToolBlock? && e.block.id == id
  }

  lemma NamesBySlot(search: SearchOrder, s: State, op: Op, id: string)
    requires Names(OnOp(search, s, op), op, id)
    ensures id == "call_synth_" + Decimal(s.nextSlot) && OnOp(search, s, op).state.nextSlot == s.nextSlot + 1
  {
    hide Decimal;
    var f := op.fragment;
    var touched, slot := Touch(search, s, f), Resolve(search, s, f).0;
    assert touched.nextSlot == s.nextSlot;
    assert OnOp(search, s, op) == Deliver(touched, slot, f);
    hide Resolve, Touch;
  }

  lemma SlotsGrow(search: SearchOrder, s: State, op: Op)
    ensures s.nextSlot <= OnOp(search, s, op).state.nextSlot
  {
    hide Decimal, ToolStops, FindSlot;
  }

  // The state in which the k-th operation of a run is met.
  function Before(search: SearchOrder, s: State, ops: seq<Op>, k: nat): State
    requires k <= |ops|
  {
    Run(OpStep(search), s, ops[..k]).state
  }

  lemma {:induction false} SlotsKeepGrowing(search: SearchOrder, s: State, ops: seq<Op>, i: nat, j: nat)
    requires i < j <= |ops|
    ensures OnOp(search, Before(search, s, ops, i), ops[i]).state.nextSlot <= Before(search, s, ops, j).nextSlot
  {
    hide OnOp;
    assert ops[..j][..j - 1] == ops[..j - 1];
    if i + 1 < j {
      SlotsKeepGrowing(search, s, ops, i, j - 1);
      SlotsGrow(search, Before(search, s, ops, j - 1), ops[j - 1]);
    }
  }

  // On every run: no two calls are given the same id.
  lemma SyntheticIdsDiffer(search: SearchOrder, s: State, ops: seq<Op>, i: nat, j: nat, a: string, b: string)
    requires i < j < |ops|
    requires Names(OnOp(search, Before(search, s, ops, i), ops[i]), ops[i], a)
    requires Names(OnOp(search, Before(search, s, ops, j), ops[j]), ops[j], b)
    ensures a != b
  {
    hide OnOp, Names, Before, Decimal;
    var m, n := Before(search, s, ops, i).nextSlot, Before(search, s, ops, j).nextSlot;
    NamesBySlot(search, Before(search, s, ops, i), ops[i], a);
    NamesBySlot(search, Before(search, s, ops, j), ops[j], b);
    SlotsKeepGrowing(search, s, ops, i, j);
    DecimalIsNumeral(m);
    DecimalIsNumeral(n);
    assert a[11..] == Decimal(m) && b[11..] == Decimal(n);
  }
}
