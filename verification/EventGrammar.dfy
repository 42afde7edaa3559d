// What a client relies on in Anthropic's event stream, as a monitor that knows nothing of
// the converter: blocks are numbered as they start, deltas and stops name an open block of
// their kind, and the framing events occur once, in order. The monitor lets tool blocks stay
// open while later blocks start, where Anthropic sends one block after the other; a text or
// thinking block has to stop first. Every run of the converter is proved to obey.
module EventGrammar {
  import opened Wrappers
  import opened JsonValue
  import opened Machine
  import opened Converter

  // ----- the monitor -----

  datatype Kind = Text | Thinking | Tool

  function KindOfBlock(b: Block): Kind {
    match b
    case TextBlock => Text
    case ThinkingBlock => Thinking
    case ToolBlock(_, _) => Tool
  }

  function KindOfDelta(d: Delta): Kind {
    match d
    case TextDelta(_) => Text
    case ThinkingDelta(_) => Thinking
    case InputJson(_) => Tool
  }

  // `count` blocks have been started; `open` are those not yet stopped.
  datatype Monitor = Monitor(started: bool, closing: bool, stopped: bool, count: nat, open: map<nat, Kind>)

  const FRESH := Monitor(false, false, false, 0, map[])

  ghost predicate OnlyToolsOpen(m: Monitor) {
    forall i :: i in m.open ==> m.open[i] == Tool
  }

  // None is a protocol violation. Block events after message_stop are not judged; a second
  // message_start or message_stop is a violation at any time.
  ghost function Observe(m: Monitor, e: Event): Option<Monitor> {
    match e
    case MessageStart =>
      if m.started then None else Some(m.(started := true))
    case BlockStart(i, b) =>
      if m.stopped then Some(m)
      else if m.started && !m.closing && i == m.count && OnlyToolsOpen(m) then
        Some(m.(count := i + 1, open := m.open[i := KindOfBlock(b)]))
      else None
    case BlockDelta(i, d) =>
      if m.stopped then Some(m)
      else if m.started && !m.closing && i in m.open && m.open[i] == KindOfDelta(d) then Some(m)
      else None
    case BlockStop(i) =>
      if m.stopped then Some(m)
      else if m.started && !m.closing && i in m.open then Some(m.(open := m.open - {i}))
      else None
    case MessageDelta(_) =>
      if m.started && !m.closing then Some(m.(closing := true)) else None
    case MessageStop =>
      if m.closing && !m.stopped then Some(m.(stopped := true)) else None
    case OverflowError => if m.closing && !m.stopped then None else Some(m)
  }

  ghost function Watch(m: Monitor, events: seq<Event>): Option<Monitor> {
    if events == [] then Some(m)
    else
      var before := Watch(m, events[..|events| - 1]);
      if before.None? then None else Observe(before.value, events[|events| - 1])
  }

  lemma {:induction false} WatchConcat(m: Monitor, xs: seq<Event>, ys: seq<Event>)
    requires Watch(m, xs).Some?
    ensures Watch(m, xs + ys) == Watch(Watch(m, xs).value, ys)
  {
    if ys == [] {
      assert xs + ys == xs;
    } else {
      assert (xs + ys)[..|xs + ys| - 1] == xs + ys[..|ys| - 1];
      WatchConcat(m, xs, ys[..|ys| - 1]);
    }
  }

  lemma WatchOne(m: Monitor, e: Event)
    ensures Watch(m, [e]) == Observe(m, e)
  {
    assert [e][..0] == [];
    assert Watch(m, [e][..0]) == Some(m);
  }

  // ----- how the converter's state mirrors the monitor's -----

  predicate ProseOpen(s: State) {
    s.textOpen || s.thinkingOpen
  }

  predicate Distinct<T(==)>(xs: seq<T>) {
    forall i, j :: 0 <= i < j < |xs| ==> xs[i] != xs[j]
  }

  // Facts about the converter's own fields that hold in every reachable state.
  ghost predicate Coherent(s: State) {
    && !(s.textOpen && s.thinkingOpen)
    && (ProseOpen(s) || s.ended ==> s.started)
    && Distinct(s.order)
    && (forall k :: k in s.order <==> k in s.slots)
    && (forall k :: k in s.slots ==> s.slots[k].block < s.next)
    && (forall j, k :: j in s.slots && k in s.slots && j != k ==> s.slots[j].block != s.slots[k].block)
  }

  // The blocks opened by calls whose slot was later taken by another id.
  ghost predicate Mirrors(s: State, m: Monitor, lost: set<nat>) {
    && Coherent(s)
    && m.started == s.started
    && m.closing == m.stopped == s.ended
    && (s.ended ==> m.open.Keys == lost)
    && (!s.ended ==>
        && m.count == s.next + (if ProseOpen(s) then 1 else 0)
        && (forall i :: i in m.open ==> i < m.count && (i == s.next || m.open[i] == Tool))
        && (s.next in m.open <==> ProseOpen(s))
        && (s.textOpen ==> m.open[s.next] == Text)
        && (s.thinkingOpen ==> m.open[s.next] == Thinking)
        && (forall k :: k in s.slots ==> s.slots[k].block in m.open && s.slots[k].block !in lost)
        && (forall i :: i in m.open && i < s.next ==> i in lost || exists k :: k in s.slots && s.slots[k].block == i)
        && (forall i :: i in lost ==> i in m.open && i < s.next))
  }

  // The monitor, from m, accepts a transition's events, and mirrors the state after it.
  ghost predicate Obeys(m: Monitor, t: Transition, lost: set<nat>) {
    Watch(m, t.events).Some? && Mirrors(t.state, Watch(m, t.events).value, lost)
  }

  // Two transitions in a row.
  lemma ObeysBoth(m: Monitor, a: Transition, b: Transition, mid: set<nat>, lost: set<nat>)
    requires Obeys(m, a, mid) && Obeys(Watch(m, a.events).value, b, lost)
    ensures Obeys(m, Step(b.state, a.events + b.events), lost)
  {
    WatchConcat(m, a.events, b.events);
    hide Mirrors, Watch;
  }

  // Operations that occur only inside a record, after message_start.
  predicate InRecord(op: Op) {
    !(op.Begin? || op.Close? || op.Warn?)
  }

  predicate Framing(e: Event) {
    e.MessageStart? || e.MessageDelta? || e.MessageStop?
  }

  // The block a fragment orphans: its slot is occupied by a call with a different id.
  function Orphaned(search: SearchOrder, s: State, op: Op): set<nat> {
    if op.Call? && !s.ended then
      var slot := Resolve(search, s, op.fragment).0;
      if slot in s.slots && IsNewCall(s.slots, slot, op.fragment.id) then {s.slots[slot].block} else {}
    else {}
  }

  lemma {:induction false} IgnoredAfterStop(m: Monitor, events: seq<Event>)
    requires m.stopped && forall e :: e in events ==> !Framing(e)
    ensures Watch(m, events) == Some(m)
  {
    if events != [] {
      assert events[|events| - 1] in events;
      IgnoredAfterStop(m, events[..|events| - 1]);
    }
  }

  // ----- one transition at a time -----

  lemma CloseThinkingObeys(s: State, m: Monitor, lost: set<nat>)
    requires Mirrors(s, m, lost) && !s.ended
    ensures var t := CloseThinking(s);
            && Obeys(m, t, lost)
            && !t.state.thinkingOpen
  {
    if s.thinkingOpen {
      WatchOne(m, BlockStop(s.next));
    }
  }

  lemma CloseTextObeys(s: State, m: Monitor, lost: set<nat>)
    requires Mirrors(s, m, lost) && !s.ended
    ensures var t := CloseText(s);
            && Obeys(m, t, lost)
            && !t.state.textOpen
  {
    if s.textOpen {
      WatchOne(m, BlockStop(s.next));
    }
  }

  lemma SealObeys(s: State, m: Monitor, lost: set<nat>)
    requires Mirrors(s, m, lost) && !s.ended
    ensures var t := SealProse(s);
            && Obeys(m, t, lost)
            && !ProseOpen(t.state)
  {
    var a := CloseThinking(s);
    CloseThinkingObeys(s, m, lost);
    CloseTextObeys(a.state, Watch(m, a.events).value, lost);
    WatchConcat(m, a.events, CloseText(a.state).events);
  }

  // A prose block that starts with nothing but tool blocks open.
  lemma ProseStartObeys(s: State, m: Monitor, lost: set<nat>, thinking: bool)
    requires Mirrors(s, m, lost) && !s.ended && s.started && !ProseOpen(s)
    ensures var e := BlockStart(s.next, if thinking then ThinkingBlock else TextBlock);
            var t := if thinking then s.(thinkingOpen := true) else s.(textOpen := true);
            && Watch(m, [e]).Some?
            && Mirrors(t, Watch(m, [e]).value, lost)
  {
    WatchOne(m, BlockStart(s.next, if thinking then ThinkingBlock else TextBlock));
  }

  lemma ReasonObeys(s: State, m: Monitor, lost: set<nat>, text: string)
    requires Mirrors(s, m, lost) && !s.ended && s.started
    ensures var t := OnReasoning(s, text);
            && Obeys(m, t, lost)
  {
    if text != "" {
      var c := OpenThinking(s);
      if !s.thinkingOpen {
        CloseTextObeys(s, m, lost);
        var a := CloseText(s);
        ProseStartObeys(a.state, Watch(m, a.events).value, lost, true);
        WatchConcat(m, a.events, [BlockStart(a.state.next, ThinkingBlock)]);
      }
      var n := Watch(m, c.events).value;
      WatchOne(n, BlockDelta(c.state.next, ThinkingDelta(text)));
      WatchConcat(m, c.events, [BlockDelta(c.state.next, ThinkingDelta(text))]);
    }
  }

  lemma ContentObeys(s: State, m: Monitor, lost: set<nat>, text: string)
    requires Mirrors(s, m, lost) && !s.ended && s.started
    ensures var t := OnContent(s, text);
            && Obeys(m, t, lost)
  {
    if text != "" {
      var c := OpenText(s);
      var a := CloseThinking(s);
      CloseThinkingObeys(s, m, lost);
      if !a.state.textOpen {
        ProseStartObeys(a.state, Watch(m, a.events).value, lost, false);
        WatchConcat(m, a.events, [BlockStart(a.state.next, TextBlock)]);
      }
      var n := Watch(m, c.events).value;
      WatchOne(n, BlockDelta(c.state.next, TextDelta(text)));
      WatchConcat(m, c.events, [BlockDelta(c.state.next, TextDelta(text))]);
    }
  }

  lemma OpenCallCoheres(s: State, slot: nat, f: Fragment)
    requires Coherent(s)
    ensures Coherent(OpenCall(s, slot, f).state)
  {
  }

  // The monitor after a new call's block start.
  function AfterStart(s: State, m: Monitor): Monitor {
    m.(count := s.next + 1, open := m.open[s.next := Tool])
  }

  lemma OthersStayOpen(s: State, m: Monitor, lost: set<nat>, slot: nat, t: State)
    requires Mirrors(s, m, lost) && !s.ended && !ProseOpen(s)
    requires slot in t.slots && t.slots == s.slots[slot := t.slots[slot]] && t.slots[slot].block == s.next
    ensures forall k :: k in t.slots ==>
              && t.slots[k].block in AfterStart(s, m).open
              && t.slots[k].block !in lost + if slot in s.slots then {s.slots[slot].block} else {}
  {
    forall k | k in t.slots
      ensures t.slots[k].block in AfterStart(s, m).open
      ensures t.slots[k].block !in lost + if slot in s.slots then {s.slots[slot].block} else {}
    {
      if k != slot && slot in s.slots {
        DistinctBlocks(s, slot, k);
      }
    }
  }

  lemma OpenBlocksAreKnown(s: State, m: Monitor, lost: set<nat>, slot: nat, t: State)
    requires Mirrors(s, m, lost) && !s.ended && !ProseOpen(s)
    requires slot in t.slots && t.slots == s.slots[slot := t.slots[slot]] && t.slots[slot].block == s.next
    ensures var lost' := lost + if slot in s.slots then {s.slots[slot].block} else {};
            forall i :: i in AfterStart(s, m).open && i < s.next + 1 ==>
              i in lost' || exists k :: k in t.slots && t.slots[k].block == i
  {
    hide Coherent;
    var lost' := lost + if slot in s.slots then {s.slots[slot].block} else {};
    forall i | i in AfterStart(s, m).open && i < s.next + 1 && i !in lost'
      ensures exists k :: k in t.slots && t.slots[k].block == i
    {
      if i == s.next {
        assert t.slots[slot].block == i;
      } else {
        var k :| k in s.slots && s.slots[k].block == i;
        assert t.slots[k].block == i;
      }
    }
  }

  // A new call's block start, with no prose open: it takes the next index, and the block it
  // displaces from its slot, if any, is orphaned.
  lemma OpenCallObeys(s: State, m: Monitor, lost: set<nat>, slot: nat, f: Fragment)
    requires Mirrors(s, m, lost) && !s.ended && s.started && !ProseOpen(s)
    ensures var t := OpenCall(s, slot, f);
            && Obeys(m, t, lost + if slot in s.slots then {s.slots[slot].block} else {})
            && !ProseOpen(t.state) && slot in t.state.slots
            && !t.state.ended && t.state.started
  {
    var t := OpenCall(s, slot, f);
    OpenCallCoheres(s, slot, f);
    hide OpenCall;
    OthersStayOpen(s, m, lost, slot, t.state);
    OpenBlocksAreKnown(s, m, lost, slot, t.state);
    StartWatched(s, m, lost, t.state.slots[slot].id, f.name);
    hide Coherent, Watch;
  }

  lemma StartWatched(s: State, m: Monitor, lost: set<nat>, id: string, name: string)
    requires Mirrors(s, m, lost) && !s.ended && s.started && !ProseOpen(s)
    ensures Watch(m, [BlockStart(s.next, ToolBlock(id, name))]) == Some(AfterStart(s, m))
  {
    WatchOne(m, BlockStart(s.next, ToolBlock(id, name)));
  }

  lemma DistinctBlocks(s: State, j: nat, k: nat)
    requires Coherent(s) && j in s.slots && k in s.slots && j != k
    ensures s.slots[j].block != s.slots[k].block
  {
  }

  lemma ArgumentsObey(s: State, m: Monitor, lost: set<nat>, slot: nat, json: string)
    requires Mirrors(s, m, lost) && !s.ended && s.started && !ProseOpen(s) && slot in s.slots
    ensures Watch(m, [BlockDelta(s.slots[slot].block, InputJson(json))]) == Some(m)
  {
    WatchOne(m, BlockDelta(s.slots[slot].block, InputJson(json)));
  }

  lemma CallObeys(search: SearchOrder, s: State, m: Monitor, lost: set<nat>, f: Fragment)
    requires Mirrors(s, m, lost) && !s.ended && s.started && !ProseOpen(s)
    ensures var t := OnFragment(search, s, f);
            && Obeys(m, t, lost + Orphaned(search, s, Call(f)))
            && !ProseOpen(t.state)
  {
    var slot := Resolve(search, s, f).0;
    var u := Touch(search, s, f);
    assert Mirrors(u, m, lost);
    assert !u.ended && u.started && !ProseOpen(u) && u.slots == s.slots;
    hide Mirrors, OpenCall, Resolve;
    var c := if IsNewCall(u.slots, slot, f.id) then OpenCall(u, slot, f) else Step(u, []);
    var lost' := lost + Orphaned(search, s, Call(f));
    if IsNewCall(u.slots, slot, f.id) {
      OpenCallObeys(u, m, lost, slot, f);
    } else {
      assert lost' == lost;
    }
    if f.args != "" {
      ArgumentsObey(c.state, Watch(m, c.events).value, lost', slot, f.args);
      WatchConcat(m, c.events, [BlockDelta(c.state.slots[slot].block, InputJson(f.args))]);
    }
  }

  // Stopping slots' blocks one by one closes exactly those blocks.
  lemma {:induction false} ToolStopsObey(slots: map<nat, Slot>, order: seq<nat>, m: Monitor)
    requires m.started && !m.closing && !m.stopped && Distinct(order)
    requires forall k :: k in order ==> k in slots && slots[k].block in m.open
    requires forall j, k :: j in slots && k in slots && j != k ==> slots[j].block != slots[k].block
    ensures var w := Watch(m, ToolStops(slots, order));
            w == Some(m.(open := m.open - set k | k in order :: slots[k].block))
  {
    if order == [] {
      assert (set k | k in order :: slots[k].block) == {};
      assert m.open - {} == m.open;
    } else {
      var done, k := order[..|order| - 1], order[|order| - 1];
      ToolStopsObey(slots, done, m);
      var w := Watch(m, ToolStops(slots, done)).value;
      assert forall j :: j in order <==> j in done || j == k;
      assert w.open - {slots[k].block} == m.open - set j | j in order :: slots[j].block;
      WatchOne(w, BlockStop(slots[k].block));
      WatchConcat(m, ToolStops(slots, done), [BlockStop(slots[k].block)]);
    }
  }

  lemma ClosingObeys(m: Monitor, reason: string)
    requires m.started && !m.closing && !m.stopped
    ensures Watch(m, [MessageDelta(reason), MessageStop]) == Some(m.(closing := true, stopped := true))
  {
    WatchOne(m, MessageDelta(reason));
    var n := m.(closing := true);
    WatchOne(n, MessageStop);
    WatchConcat(m, [MessageDelta(reason)], [MessageStop]);
    assert [MessageDelta(reason), MessageStop] == [MessageDelta(reason)] + [MessageStop];
  }

  // With no prose open, stopping every recorded slot leaves only orphans open.
  lemma AllStopsObey(s: State, m: Monitor, lost: set<nat>)
    requires Mirrors(s, m, lost) && !s.ended && s.started && !ProseOpen(s)
    ensures var w := Watch(m, ToolStops(s.slots, s.order));
            w.Some? && w.value == m.(open := w.value.open) && w.value.open.Keys == lost
  {
    ToolStopsObey(s.slots, s.order, m);
    var stopped := set k | k in s.order :: s.slots[k].block;
    forall i | i in m.open
      ensures i in stopped <==> i !in lost
    {
      if i !in lost {
        var k :| k in s.slots && s.slots[k].block == i;
        assert k in s.order;
      }
    }
    assert (m.open - stopped).Keys == lost;
  }

  lemma SealIgnoresEnded(s: State)
    ensures SealProse(s.(ended := true)) == Step(SealProse(s).state.(ended := true), SealProse(s).events)
    ensures SealProse(s).state.ended == s.ended && SealProse(s).state.started == s.started
  {
  }

  // Closing is sealing the prose, stopping the slots' blocks, and the two framing events.
  function Stops(s: State, reason: string): Transition {
    Step(s.(ended := true), ToolStops(s.slots, s.order) + [MessageDelta(reason), MessageStop])
  }

  lemma CloseIs(s: State, reason: string)
    requires !s.ended
    ensures var a := SealProse(s);
            var b := Stops(a.state, StopReason(reason));
            CloseWithReason(s, reason) == Step(b.state, a.events + b.events)
  {
    hide ToolStops, StopReason;
    SealIgnoresEnded(s);
    var a := SealProse(s);
    hide SealProse;
    var stops, last := ToolStops(a.state.slots, a.state.order), [MessageDelta(StopReason(reason)), MessageStop];
    assert a.events + stops + last == a.events + (stops + last);
  }

  lemma FinishObeys(s: State, m: Monitor, lost: set<nat>, reason: string)
    requires Mirrors(s, m, lost) && !s.ended && s.started
    ensures var t := CloseWithReason(s, reason);
            Obeys(m, t, lost) && t.state.ended
  {
    SealObeys(s, m, lost);
    SealIgnoresEnded(s);
    CloseIs(s, reason);
    hide SealProse, CloseWithReason, StopReason, Watch, Mirrors;
    var a := SealProse(s);
    var b := Stops(a.state, StopReason(reason));
    StopsObey(a.state, Watch(m, a.events).value, lost, StopReason(reason));
    ObeysBoth(m, a, b, lost, lost);
  }

  lemma StopsObey(s: State, m: Monitor, lost: set<nat>, reason: string)
    requires Mirrors(s, m, lost) && !s.ended && s.started && !ProseOpen(s)
    ensures Obeys(m, Stops(s, reason), lost)
  {
    var stops := ToolStops(s.slots, s.order);
    AllStopsObey(s, m, lost);
    var w := Watch(m, stops).value;
    ClosingObeys(w, reason);
    WatchConcat(m, stops, [MessageDelta(reason), MessageStop]);
    assert Coherent(s.(ended := true));
    hide Watch, ToolStops, Coherent;
  }

  // ----- any operation, any run -----

  // A record's operations come after message_start, and its tool fragments after its Seal.
  predicate InScope(s: State, op: Op) {
    && (InRecord(op) ==> s.started)
    && (op.Call? ==> !ProseOpen(s))
  }

  lemma EndedCall(search: SearchOrder, s: State, f: Fragment)
    requires Coherent(s) && s.ended
    ensures var t := OnFragment(search, s, f);
            && Coherent(t.state) && t.state.ended
            && forall e :: e in t.events ==> !Framing(e)
  {
    var u := Touch(search, s, f);
    var slot := Resolve(search, s, f).0;
    assert u.ended && Coherent(u);
    OpenCallCoheres(u, slot, f);
    hide Coherent, Resolve, Touch;
    var c := OpenCall(u, slot, f);
    assert c.state.ended && c.events == [c.events[0]] && c.events[0].BlockStart?;
  }

  lemma EndedProse(s: State, text: string)
    requires Coherent(s) && s.ended
    ensures var t := OnReasoning(s, text);
            && Coherent(t.state) && t.state.ended && forall e :: e in t.events ==> !Framing(e)
    ensures var t := OnContent(s, text);
            && Coherent(t.state) && t.state.ended && forall e :: e in t.events ==> !Framing(e)
    ensures var t := SealProse(s);
            && Coherent(t.state) && t.state.ended && forall e :: e in t.events ==> !Framing(e)
  {
  }

  // After message_stop the converter still coheres and emits no framing event.
  lemma EndedStep(search: SearchOrder, s: State, op: Op)
    requires Coherent(s) && s.ended
    ensures var t := OnOp(search, s, op);
            && Coherent(t.state) && t.state.ended && t.state.started
            && forall e :: e in t.events ==> !Framing(e)
  {
    assert s.started;
    match op
    case Reason(text) => EndedProse(s, text);
    case Content(text) => EndedProse(s, text);
    case Seal => EndedProse(s, "");
    case Call(f) => EndedCall(search, s, f);
    case _ =>
  }

  lemma OpObeys(search: SearchOrder, s: State, m: Monitor, lost: set<nat>, op: Op)
    requires Mirrors(s, m, lost) && InScope(s, op)
    ensures var t := OnOp(search, s, op);
            && Obeys(m, t, lost + Orphaned(search, s, op))
  {
    assert Orphaned(search, s, op) == {} || (op.Call? && !s.ended);
    assert lost + {} == lost;
    if s.ended {
      EndedStep(search, s, op);
      IgnoredAfterStop(m, OnOp(search, s, op).events);
    } else {
      match op
      case Begin => if !s.started { WatchOne(m, MessageStart); }
      case Reason(text) => ReasonObeys(s, m, lost, text);
      case Content(text) => ContentObeys(s, m, lost, text);
      case Seal => SealObeys(s, m, lost);
      case Call(f) => CallObeys(search, s, m, lost, f);
      case Finish(reason) => FinishObeys(s, m, lost, reason);
      case Close => if s.started { FinishObeys(s, m, lost, "stop"); }
      case Warn => WatchOne(m, OverflowError);
    }
  }

  ghost predicate Scoped(search: SearchOrder, s: State, ops: seq<Op>) {
    forall i :: 0 <= i < |ops| ==> InScope(Run(OpStep(search), s, ops[..i]).state, ops[i])
  }

  // The blocks orphaned along a run.
  ghost function OrphanedBy(search: SearchOrder, s: State, ops: seq<Op>): set<nat> {
    if ops == [] then {}
    else
      OrphanedBy(search, s, ops[..|ops| - 1]) +
      Orphaned(search, Run(OpStep(search), s, ops[..|ops| - 1]).state, ops[|ops| - 1])
  }

  // How often, before message_stop, a fragment took an occupied slot with a different id.
  ghost function Overwrites(search: SearchOrder, s: State, ops: seq<Op>): nat {
    if ops == [] then 0
    else
      Overwrites(search, s, ops[..|ops| - 1]) +
      |Orphaned(search, Run(OpStep(search), s, ops[..|ops| - 1]).state, ops[|ops| - 1])|
  }

  lemma {:induction false} ScopedPrefix(search: SearchOrder, s: State, ops: seq<Op>, n: nat)
    requires Scoped(search, s, ops) && n <= |ops|
    ensures Scoped(search, s, ops[..n])
  {
    forall i | 0 <= i < n
      ensures InScope(Run(OpStep(search), s, ops[..n][..i]).state, ops[..n][i])
    {
      assert ops[..n][..i] == ops[..i];
    }
  }

  lemma OrphanIsNew(search: SearchOrder, s: State, m: Monitor, lost: set<nat>, op: Op)
    requires Mirrors(s, m, lost)
    ensures Orphaned(search, s, op) !! lost
  {
    hide Coherent, Resolve;
  }

  lemma InitialObeys()
    ensures Obeys(FRESH, Step(INITIAL, []), {})
  {
  }

  lemma ScopedLast(search: SearchOrder, s: State, ops: seq<Op>)
    requires Scoped(search, s, ops) && ops != []
    ensures InScope(Run(OpStep(search), s, ops[..|ops| - 1]).state, ops[|ops| - 1])
  {
  }

  lemma {:induction false} RunObeys(search: SearchOrder, ops: seq<Op>)
    requires Scoped(search, INITIAL, ops)
    ensures Obeys(FRESH, Run(OpStep(search), INITIAL, ops), OrphanedBy(search, INITIAL, ops))
    ensures |OrphanedBy(search, INITIAL, ops)| == Overwrites(search, INITIAL, ops)
  {
    hide OnOp, Obeys, Orphaned, InScope, Scoped;
    InitialObeys();
    if ops != [] {
      var before, op := ops[..|ops| - 1], ops[|ops| - 1];
      ScopedPrefix(search, INITIAL, ops, |before|);
      ScopedLast(search, INITIAL, ops);
      RunObeys(search, before);
      var t, lost := Run(OpStep(search), INITIAL, before), OrphanedBy(search, INITIAL, before);
      StepObeys(search, FRESH, t, lost, op);
    }
  }

  lemma StepObeys(search: SearchOrder, m: Monitor, t: Transition, lost: set<nat>, op: Op)
    requires Obeys(m, t, lost) && InScope(t.state, op)
    ensures var u := OnOp(search, t.state, op);
            Obeys(m, Step(u.state, t.events + u.events), lost + Orphaned(search, t.state, op))
    ensures Orphaned(search, t.state, op) !! lost
  {
    hide OnOp, Mirrors, Orphaned, InScope, Watch;
    var n := Watch(m, t.events).value;
    OpObeys(search, t.state, n, lost, op);
    ObeysBoth(m, t, OnOp(search, t.state, op), lost, lost + Orphaned(search, t.state, op));
    OrphanIsNew(search, t.state, n, lost, op);
  }

  // ----- runs made of whole records -----

  lemma ScopedConcat(search: SearchOrder, s: State, xs: seq<Op>, ys: seq<Op>)
    requires Scoped(search, s, xs) && Scoped(search, Run(OpStep(search), s, xs).state, ys)
    ensures Scoped(search, s, xs + ys)
  {
    forall i | 0 <= i < |xs + ys|
      ensures InScope(Run(OpStep(search), s, (xs + ys)[..i]).state, (xs + ys)[i])
    {
      if i < |xs| {
        assert (xs + ys)[..i] == xs[..i];
      } else {
        assert (xs + ys)[..i] == xs + ys[..i - |xs|];
        RunConcat(OpStep(search), s, xs, ys[..i - |xs|]);
      }
    }
  }

  lemma ScopedOne(search: SearchOrder, s: State, op: Op)
    requires InScope(s, op)
    ensures Scoped(search, s, [op])
  {
    assert [op][..0] == [];
    assert Run(OpStep(search), s, [op][..0]).state == s;
  }

  lemma StaysStarted(search: SearchOrder, s: State, op: Op)
    requires s.started
    ensures OnOp(search, s, op).state.started
  {
  }

  lemma CallLeavesProse(search: SearchOrder, s: State, f: Fragment)
    ensures var t := OnFragment(search, s, f).state;
            t.textOpen == s.textOpen && t.thinkingOpen == s.thinkingOpen
  {
  }

  lemma {:induction false} CallsScoped(search: SearchOrder, s: State, fs: seq<Fragment>)
    requires s.started && !ProseOpen(s)
    ensures Scoped(search, s, CallOps(fs))
    ensures var t := Run(OpStep(search), s, CallOps(fs)).state; t.started && !ProseOpen(t)
  {
    if fs == [] {
      assert CallOps(fs) == [];
    } else {
      var before, f := fs[..|fs| - 1], fs[|fs| - 1];
      assert CallOps(fs) == CallOps(before) + [Call(f)];
      CallsScoped(search, s, before);
      var t := Run(OpStep(search), s, CallOps(before)).state;
      ScopedOne(search, t, Call(f));
      ScopedConcat(search, s, CallOps(before), [Call(f)]);
      RunSnoc(OpStep(search), s, CallOps(before), Call(f));
      StaysStarted(search, t, Call(f));
      CallLeavesProse(search, t, f);
      hide OnFragment;
    }
  }

  lemma ToolsScoped(search: SearchOrder, s: State, tools: Option<seq<Fragment>>)
    requires s.started
    ensures Scoped(search, s, ToolOps(tools)) && Run(OpStep(search), s, ToolOps(tools)).state.started
  {
    if tools.Some? {
      var t := SealProse(s).state;
      ScopedOne(search, s, Seal);
      RunOne(OpStep(search), s, Seal);
      CallsScoped(search, t, tools.value);
      ScopedConcat(search, s, [Seal], CallOps(tools.value));
      RunConcat(OpStep(search), s, [Seal], CallOps(tools.value));
    }
  }

  lemma ProseScoped(search: SearchOrder, s: State, reasoning: string, content: string)
    ensures var ops := [Begin, Reason(reasoning), Content(content)];
            Scoped(search, s, ops) && Run(OpStep(search), s, ops).state.started
  {
    var a := OnOp(search, s, Begin).state;
    var b := OnOp(search, a, Reason(reasoning)).state;
    ScopedOne(search, s, Begin);
    RunOne(OpStep(search), s, Begin);
    StaysStarted(search, a, Reason(reasoning));
    ScopedOne(search, a, Reason(reasoning));
    ScopedConcat(search, s, [Begin], [Reason(reasoning)]);
    RunSnoc(OpStep(search), s, [Begin], Reason(reasoning));
    StaysStarted(search, b, Content(content));
    ScopedOne(search, b, Content(content));
    ScopedConcat(search, s, [Begin] + [Reason(reasoning)], [Content(content)]);
    RunSnoc(OpStep(search), s, [Begin] + [Reason(reasoning)], Content(content));
    assert [Begin, Reason(reasoning), Content(content)] == [Begin] + [Reason(reasoning)] + [Content(content)];
  }

  lemma InputScoped(search: SearchOrder, s: State, i: Input)
    ensures Scoped(search, s, InputOps(i))
  {
    match i
    case Data(c) =>
      hide OnOp, SealProse;
      var prose := [Begin, Reason(c.reasoning), Content(c.content)];
      ProseScoped(search, s, c.reasoning, c.content);
      var a := Run(OpStep(search), s, prose).state;
      ToolsScoped(search, a, c.tools);
      ScopedConcat(search, s, prose, ToolOps(c.tools));
      RunConcat(OpStep(search), s, prose, ToolOps(c.tools));
      if c.finish.Some? {
        ScopedOne(search, Run(OpStep(search), a, ToolOps(c.tools)).state, Finish(c.finish.value));
      }
      ScopedConcat(search, s, prose + ToolOps(c.tools), FinishOps(c.finish));
    case Done => ScopedOne(search, s, Close);
    case Overflow =>
  }

  lemma {:induction false} InputsScoped(search: SearchOrder, inputs: seq<Input>)
    ensures Scoped(search, INITIAL, OpsOf(inputs))
  {
    hide OnOp, InputOps, InScope;
    if inputs != [] {
      var before := inputs[..|inputs| - 1];
      InputsScoped(search, before);
      InputScoped(search, Run(OpStep(search), INITIAL, OpsOf(before)).state, inputs[|inputs| - 1]);
      ScopedConcat(search, INITIAL, OpsOf(before), InputOps(inputs[|inputs| - 1]));
    }
  }

  // Every run, whatever its records hold and however the slot table is searched, obeys the
  // protocol; once message_stop is out, the blocks left open are the orphaned ones.
  lemma RunsObeyTheProtocol(search: SearchOrder, inputs: seq<Input>)
    ensures var t := Run(OpStep(search), INITIAL, OpsOf(inputs));
            var w := Watch(FRESH, t.events);
            && w.Some?
            && w.value.stopped == t.state.ended
            && w.value.started == t.state.started
            && (t.state.ended ==> |w.value.open| == Overwrites(search, INITIAL, OpsOf(inputs)))
  {
    InputsScoped(search, inputs);
    RunObeys(search, OpsOf(inputs));
    hide OnOp, Run, Watch, OpsOf, OrphanedBy, Overwrites;
    var w := Watch(FRESH, Run(OpStep(search), INITIAL, OpsOf(inputs)).events).value;
    assert |w.open| == |w.open.Keys|;
  }

  // ----- what acceptance by the monitor says about the events themselves -----

  function StartsIn(events: seq<Event>): nat {
    if events == [] then 0
    else StartsIn(events[..|events| - 1]) + if events[|events| - 1].BlockStart? then 1 else 0
  }

  // An accepted sequence holds at most one message_start and at most one message_stop.
  lemma {:induction false} FramingOnce(events: seq<Event>)
    requires Watch(FRESH, events).Some?
    ensures var w := Watch(FRESH, events).value;
            w.started == (MessageStart in events) && w.stopped == (MessageStop in events)
    ensures forall i, j :: 0 <= i < j < |events| && (events[i] == MessageStart || events[i] == MessageStop) ==> events[i] != events[j]
  {
    if events != [] {
      FramingOnce(events[..|events| - 1]);
      assert events == events[..|events| - 1] + [events[|events| - 1]];
    }
  }

  // Up to message_stop, the k-th block start carries index k.
  lemma {:induction false} StartsNumbered(events: seq<Event>, k: nat)
    requires Watch(FRESH, events).Some? && k < |events| && events[k].BlockStart? && MessageStop !in events[..k]
    ensures events[k].index == StartsIn(events[..k])
  {
    WatchPrefix(events, k + 1);
    assert events[..k + 1][..k] == events[..k];
    FramingOnce(events[..k]);
    CountsStarts(events[..k]);
  }

  // Up to message_stop, no block is stopped twice.
  lemma {:induction false} StopsOnce(events: seq<Event>, j: nat, k: nat)
    requires Watch(FRESH, events).Some? && j < k < |events| && events[j].BlockStop? && MessageStop !in events[..k]
    ensures events[j] != events[k]
  {
    WatchPrefix(events, k + 1);
    assert events[..k + 1][..k] == events[..k];
    FramingOnce(events[..k]);
    StoppedIsNotOpen(events[..k]);
    assert events[..k][j] == events[j];
  }

  lemma {:induction false} WatchPrefix(events: seq<Event>, n: nat)
    requires Watch(FRESH, events).Some? && n <= |events|
    ensures Watch(FRESH, events[..n]).Some?
  {
    if n < |events| {
      WatchPrefix(events[..|events| - 1], n);
      assert events[..|events| - 1][..n] == events[..n];
    } else {
      assert events[..n] == events;
    }
  }

  lemma {:induction false} CountsStarts(events: seq<Event>)
    requires Watch(FRESH, events).Some? && !Watch(FRESH, events).value.stopped
    ensures Watch(FRESH, events).value.count == StartsIn(events)
  {
    if events != [] {
      CountsStarts(events[..|events| - 1]);
    }
  }

  lemma {:induction false} StoppedIsNotOpen(events: seq<Event>)
    requires Watch(FRESH, events).Some? && !Watch(FRESH, events).value.stopped
    ensures var w := Watch(FRESH, events).value;
            && (forall i :: i in w.open ==> i < w.count)
            && (forall e :: e in events && e.BlockStop? ==> e.index < w.count && e.index !in w.open)
  {
    if events != [] {
      var before, e := events[..|events| - 1], events[|events| - 1];
      StoppedIsNotOpen(before);
      assert forall x :: x in events <==> x in before || x == e;
    }
  }
}
