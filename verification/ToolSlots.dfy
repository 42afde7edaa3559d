// Which tool call a streamed fragment belongs to. The reference attributes fragments to
// calls without slots, tables or block indices; the converter is proved to reassemble
// exactly those calls, for upstreams that always send an index, for those that never do, and
// for those that sometimes do.
module ToolSlots {
  import opened Wrappers
  import opened Machine
  import opened Converter
  import opened EventGrammar

  // ----- what a client makes of the events -----

  datatype ToolCall = ToolCall(id: string, name: string, args: string)

  datatype Content = TextContent(text: string) | ThinkingContent(thinking: string) | ToolContent(call: ToolCall)

  function Empty(b: Block): Content {
    match b
    case TextBlock => TextContent("")
    case ThinkingBlock => ThinkingContent("")
    case ToolBlock(id, name) => ToolContent(ToolCall(id, name, ""))
  }

  function More(call: ToolCall, args: string): ToolCall {
    call.(args := call.args + args)
  }

  function Extend(c: Content, d: Delta): Content {
    match (c, d)
    case (TextContent(t), TextDelta(x)) => TextContent(t + x)
    case (ThinkingContent(t), ThinkingDelta(x)) => ThinkingContent(t + x)
    case (ToolContent(call), InputJson(x)) => ToolContent(More(call, x))
    case _ => c
  }

  function Receive(blocks: seq<Content>, e: Event): seq<Content> {
    if e.BlockStart? && e.index == |blocks| then blocks + [Empty(e.block)]
    else if e.BlockDelta? && e.index < |blocks| then blocks[e.index := Extend(blocks[e.index], e.delta)]
    else blocks
  }

  function Reassemble(events: seq<Event>): seq<Content> {
    Fold(Receive, [], events)
  }

  function CallIn(c: Content): seq<ToolCall> {
    if c.ToolContent? then [c.call] else []
  }

  // ----- the reference: fragments attributed to calls -----

  // The calls in order of appearance, the position of the last one heard of, and how many
  // of them appeared without an index.
  datatype Calls = Calls(list: seq<ToolCall>, last: nat, drawn: nat)

  const NO_CALLS := Calls([], 0, 0)

  function PositionOf(list: seq<ToolCall>, id: string): nat {
    if list == [] || list[0].id == id then 0 else 1 + PositionOf(list[1..], id)
  }

  // The position of the call a fragment belongs to: its index, or the call with its id (a
  // new one if there is none), or else the call of the fragment before it.
  function Target(c: Calls, f: Fragment): nat {
    if f.index.Some? then f.index.value
    else if f.id.Some? then PositionOf(c.list, f.id.value)
    else c.last
  }

  // A call has the name its first fragment gives it.
  function Accumulate(c: Calls, f: Fragment): Calls {
    var k := Target(c, f);
    if k < |c.list| then c.(list := c.list[k := More(c.list[k], f.args)], last := k)
    else
      Calls(c.list + [ToolCall(f.id.GetOr("call_synth_0"), f.name, f.args)], k,
            if f.index.None? then c.drawn + 1 else c.drawn)
  }

  // An index is a position: the next one comes with the id of a new call, an earlier one
  // with no other id than its call's. Without an index, a known id is the id of one call
  // only; and a new call appears only after calls that appeared without an index, too,
  // because the converter numbers it by counting those.
  predicate Permitted(c: Calls, f: Fragment) {
    if f.index.Some? then
      && f.index.value <= |c.list|
      && (f.index.value < |c.list| ==> f.id.None? || f.id.value == c.list[f.index.value].id)
      && (f.index.value == |c.list| ==> f.id.Some?)
    else f.id.Some? ==> Findable(c, f.id.value)
  }

  predicate Findable(c: Calls, id: string) {
    var k := PositionOf(c.list, id);
    if k < |c.list| then forall j :: k < j < |c.list| ==> c.list[j].id != id
    else c.drawn == |c.list|
  }

  ghost predicate Regular(fs: seq<Fragment>) {
    forall i :: 0 <= i < |fs| ==> Permitted(Fold(Accumulate, NO_CALLS, fs[..i]), fs[i])
  }

  // ----- how the converter's slots mirror the reference -----

  ghost predicate Owned(slots: map<nat, Slot>, b: nat) {
    exists k :: k in slots && slots[k].block == b
  }

  // Slot k holds call k: its id, and the block where the client sees it. The blocks come
  // in the order of the calls, and there are no other tool blocks.
  ghost predicate Holds(slots: map<nat, Slot>, list: seq<ToolCall>, blocks: seq<Content>) {
    && (forall k :: k in slots <==> 0 <= k < |list|)
    && (forall k :: 0 <= k < |list| ==> slots[k].id == list[k].id)
    && (forall k :: 0 <= k < |list| ==> slots[k].block < |blocks| && blocks[slots[k].block] == ToolContent(list[k]))
    && (forall j, k :: 0 <= j < k < |list| ==> slots[j].block < slots[k].block)
    && (forall b :: 0 <= b < |blocks| && blocks[b].ToolContent? ==> Owned(slots, b))
  }

  // The first n calls are those in the first b blocks.
  ghost predicate Splits(slots: map<nat, Slot>, list: seq<ToolCall>, blocks: seq<Content>, b: nat, n: nat) {
    && Holds(slots, list, blocks) && b <= |blocks| && n <= |list|
    && (forall k :: 0 <= k < n ==> slots[k].block < b)
    && (forall k :: n <= k < |list| ==> b <= slots[k].block)
  }

  lemma SplitsBelow(slots: map<nat, Slot>, list: seq<ToolCall>, blocks: seq<Content>, b: nat, n: nat)
    requires b > 0 && Splits(slots, list, blocks, b, n)
    ensures if blocks[b - 1].ToolContent?
            then n > 0 && blocks[b - 1] == ToolContent(list[n - 1]) && Splits(slots, list, blocks, b - 1, n - 1)
            else Splits(slots, list, blocks, b - 1, n)
  {
    if blocks[b - 1].ToolContent? {
      OwnerIs(slots, list, blocks, b - 1, n);
    } else {
      assert forall k :: 0 <= k < n ==> slots[k].block != b - 1;
    }
  }

  lemma {:induction false} HoldsBefore(slots: map<nat, Slot>, list: seq<ToolCall>, blocks: seq<Content>, b: nat, n: nat)
    requires Splits(slots, list, blocks, b, n)
    ensures FlatMap(CallIn, blocks[..b]) == list[..n]
  {
    assert n > 0 ==> 0 in slots && slots[0].block < b;
    hide Splits;
    if b > 0 {
      SplitsBelow(slots, list, blocks, b, n);
      var c := blocks[b - 1];
      assert blocks[..b][..b - 1] == blocks[..b - 1] && blocks[..b][b - 1] == c;
      if c.ToolContent? {
        HoldsBefore(slots, list, blocks, b - 1, n - 1);
        assert list[..n] == list[..n - 1] + [list[n - 1]];
      } else {
        HoldsBefore(slots, list, blocks, b - 1, n);
      }
    }
  }

  lemma OwnerIs(slots: map<nat, Slot>, list: seq<ToolCall>, blocks: seq<Content>, b: nat, n: nat)
    requires Holds(slots, list, blocks) && b < |blocks| && n <= |list| && blocks[b].ToolContent?
    requires forall k :: 0 <= k < n ==> slots[k].block <= b
    requires forall k :: n <= k < |list| ==> b < slots[k].block
    ensures n > 0 && slots[n - 1].block == b && blocks[b] == ToolContent(list[n - 1])
  {
    assert Owned(slots, b);
    var k :| k in slots && slots[k].block == b;
    assert k <= n - 1 && slots[k].block <= slots[n - 1].block;
  }

  lemma HoldsMeans(slots: map<nat, Slot>, list: seq<ToolCall>, blocks: seq<Content>)
    requires Holds(slots, list, blocks)
    ensures FlatMap(CallIn, blocks) == list
  {
    assert blocks[..|blocks|] == blocks && list[..|list|] == list;
    HoldsBefore(slots, list, blocks, |blocks|, |list|);
  }

  // What a client has reassembled so far, against the converter's fields and the calls.
  ghost predicate Shows(s: State, list: seq<ToolCall>, blocks: seq<Content>) {
    && |blocks| == s.next + (if ProseOpen(s) then 1 else 0)
    && !(s.textOpen && s.thinkingOpen)
    && (s.textOpen ==> blocks[s.next].TextContent?)
    && (s.thinkingOpen ==> blocks[s.next].ThinkingContent?)
    && Holds(s.slots, list, blocks)
  }

  ghost predicate DistinctIds(list: seq<ToolCall>) {
    forall j, k :: 0 <= j < k < |list| ==> list[j].id != list[k].id
  }

  // Slot numbers are drawn for the calls that appear without an index, and the active slot
  // is remembered.
  ghost predicate Tracks(s: State, c: Calls) {
    && s.nextSlot == c.drawn <= |c.list|
    && s.lastSlot.GetOr(0) == c.last
    && (if c.list == [] then c.last == 0 else c.last < |c.list|)
    && (c.drawn == |c.list| ==> DistinctIds(c.list))
  }

  // ----- prose blocks leave the calls alone -----

  predicate Quiet(e: Event) {
    !e.BlockStart? && !e.BlockDelta?
  }

  lemma {:induction false} QuietEvents(blocks: seq<Content>, events: seq<Event>)
    requires forall e :: e in events ==> Quiet(e)
    ensures Fold(Receive, blocks, events) == blocks
  {
    if events != [] {
      assert events[|events| - 1] in events;
      QuietEvents(blocks, events[..|events| - 1]);
    }
  }

  lemma ProseKeepsCalls(slots: map<nat, Slot>, list: seq<ToolCall>, blocks: seq<Content>, c: Content)
    requires Holds(slots, list, blocks) && !c.ToolContent?
    ensures Holds(slots, list, blocks + [c])
    ensures forall b :: 0 <= b < |blocks| && !blocks[b].ToolContent? ==> Holds(slots, list, blocks[b := c])
  {
  }

  // Closing, opening and extending prose, seen by the client.
  lemma SealShows(s: State, list: seq<ToolCall>, blocks: seq<Content>)
    requires Shows(s, list, blocks)
    ensures var t := SealProse(s);
            Shows(t.state, list, blocks) && Fold(Receive, blocks, t.events) == blocks && !ProseOpen(t.state)
    ensures var t := CloseText(s);
            Shows(t.state, list, blocks) && Fold(Receive, blocks, t.events) == blocks && !t.state.textOpen
    ensures var t := CloseThinking(s);
            Shows(t.state, list, blocks) && Fold(Receive, blocks, t.events) == blocks && !t.state.thinkingOpen
  {
    hide Holds, Fold;
    QuietEvents(blocks, SealProse(s).events);
    QuietEvents(blocks, CloseText(s).events);
    QuietEvents(blocks, CloseThinking(s).events);
  }

  lemma ProseStartShows(s: State, list: seq<ToolCall>, blocks: seq<Content>, thinking: bool)
    requires Shows(s, list, blocks) && !ProseOpen(s)
    ensures var b := if thinking then ThinkingBlock else TextBlock;
            var t := if thinking then s.(thinkingOpen := true) else s.(textOpen := true);
            Fold(Receive, blocks, [BlockStart(s.next, b)]) == blocks + [Empty(b)] && Shows(t, list, blocks + [Empty(b)])
  {
    var b := if thinking then ThinkingBlock else TextBlock;
    FoldOne(Receive, blocks, BlockStart(s.next, b));
    ProseKeepsCalls(s.slots, list, blocks, Empty(b));
    hide Holds, Fold;
  }

  lemma ProseDeltaShows(s: State, list: seq<ToolCall>, blocks: seq<Content>, d: Delta)
    requires Shows(s, list, blocks)
    requires (d.TextDelta? && s.textOpen) || (d.ThinkingDelta? && s.thinkingOpen)
    ensures var after := blocks[s.next := Extend(blocks[s.next], d)];
            Fold(Receive, blocks, [BlockDelta(s.next, d)]) == after && Shows(s, list, after)
  {
    FoldOne(Receive, blocks, BlockDelta(s.next, d));
    ProseKeepsCalls(s.slots, list, blocks, Extend(blocks[s.next], d));
    hide Holds, Fold;
  }

  lemma ReasonShows(s: State, list: seq<ToolCall>, blocks: seq<Content>, text: string)
    requires Shows(s, list, blocks)
    ensures var t := OnReasoning(s, text);
            Shows(t.state, list, Fold(Receive, blocks, t.events))
  {
    if text != "" {
      var a, o := CloseText(s), OpenThinking(s);
      hide Shows;
      if !s.thinkingOpen {
        SealShows(s, list, blocks);
        ProseStartShows(a.state, list, blocks, true);
        FoldConcat(Receive, blocks, a.events, [BlockStart(a.state.next, ThinkingBlock)]);
      }
      var d := ThinkingDelta(text);
      ProseDeltaShows(o.state, list, Fold(Receive, blocks, o.events), d);
      FoldConcat(Receive, blocks, o.events, [BlockDelta(o.state.next, d)]);
    }
  }

  lemma ContentShows(s: State, list: seq<ToolCall>, blocks: seq<Content>, text: string)
    requires Shows(s, list, blocks)
    ensures var t := OnContent(s, text);
            Shows(t.state, list, Fold(Receive, blocks, t.events))
  {
    if text != "" {
      var a, o := CloseThinking(s), OpenText(s);
      hide Shows;
      SealShows(s, list, blocks);
      if !a.state.textOpen {
        ProseStartShows(a.state, list, blocks, false);
        FoldConcat(Receive, blocks, a.events, [BlockStart(a.state.next, TextBlock)]);
      }
      var d := TextDelta(text);
      ProseDeltaShows(o.state, list, Fold(Receive, blocks, o.events), d);
      FoldConcat(Receive, blocks, o.events, [BlockDelta(o.state.next, d)]);
    }
  }

  // ----- fragments -----

  lemma {:induction false} FindSlotFinds(keys: seq<nat>, slots: map<nat, Slot>, id: string)
    ensures var r := FindSlot(keys, slots, id);
            && (r.Some? ==> r.value in slots && slots[r.value].id == id)
            && (r.None? ==> forall k :: k in keys && k in slots ==> slots[k].id != id)
  {
    if keys != [] {
      FindSlotFinds(keys[1..], slots, id);
      assert forall k :: k in keys <==> k == keys[0] || k in keys[1..];
    }
  }

  lemma {:induction false} PositionFinds(list: seq<ToolCall>, id: string)
    ensures var p := PositionOf(list, id);
            && p <= |list|
            && (p < |list| ==> list[p].id == id)
            && (forall k :: 0 <= k < p ==> list[k].id != id)
  {
    if list != [] && list[0].id != id {
      PositionFinds(list[1..], id);
      var p := PositionOf(list[1..], id);
      forall k | 0 <= k < 1 + p
        ensures list[k].id != id
      {
        if k > 0 { assert list[1..][k - 1] == list[k]; }
      }
    }
  }

  lemma FindsTheCall(search: SearchOrder, slots: map<nat, Slot>, c: Calls, id: string)
    requires forall k :: k in slots <==> 0 <= k < |c.list|
    requires forall k :: 0 <= k < |c.list| ==> slots[k].id == c.list[k].id
    requires Findable(c, id) && ListsKeys(search)
    ensures var p := PositionOf(c.list, id);
            && p <= |c.list|
            && (p < |c.list| ==> c.list[p].id == id)
            && FindSlot(search(slots), slots, id) == if p < |c.list| then Some(p) else None
  {
    FindSlotFinds(search(slots), slots, id);
    PositionFinds(c.list, id);
    var r, p := FindSlot(search(slots), slots, id), PositionOf(c.list, id);
    if p < |c.list| {
      assert p in slots && p in search(slots);
      assert r.Some? && c.list[r.value].id == c.list[p].id;
    } else {
      assert forall k :: 0 <= k < |c.list| ==> c.list[k].id != id;
    }
  }

  // The slot the converter picks is the call the reference picks, in any search order.
  lemma ResolvesToTarget(search: SearchOrder, s: State, c: Calls, blocks: seq<Content>, f: Fragment)
    requires Shows(s, c.list, blocks) && Tracks(s, c) && Permitted(c, f) && ListsKeys(search)
    ensures var k := Target(c, f);
            && Resolve(search, s, f) == (k, f.index.None? && f.id.Some? && k == |c.list|)
            && k <= |c.list|
            && IsNewCall(s.slots, k, f.id) == (k == |c.list|)
            && (f.id.None? && k == |c.list| ==> f.index.None? && k == 0)
  {
    if f.index.None? && f.id.Some? {
      FindsTheCall(search, s.slots, c, f.id.value);
    }
    hide PositionOf, FindSlot, DistinctIds, ListsKeys;
  }

  lemma HoldsNewCall(slots: map<nat, Slot>, list: seq<ToolCall>, blocks: seq<Content>, call: ToolCall)
    requires Holds(slots, list, blocks)
    ensures Holds(slots[|list| := Slot(call.id, |blocks|)], list + [call], blocks + [ToolContent(call)])
  {
    var n, more, after := |list|, blocks + [ToolContent(call)], slots[|list| := Slot(call.id, |blocks|)];
    assert after[n].block == |blocks|;
    forall b | 0 <= b < |more| && more[b].ToolContent?
      ensures Owned(after, b)
    {
      if b < |blocks| {
        assert Owned(slots, b);
        var k :| k in slots && slots[k].block == b;
        assert k in after && after[k].block == b;
      }
    }
  }

  lemma HoldsArguments(slots: map<nat, Slot>, list: seq<ToolCall>, blocks: seq<Content>, k: nat, args: string)
    requires Holds(slots, list, blocks) && k < |list|
    ensures var b, call := slots[k].block, More(list[k], args);
            && b < |blocks| && blocks[b] == ToolContent(list[k])
            && Holds(slots, list[k := call], blocks[b := ToolContent(call)])
  {
    var b, call := slots[k].block, More(list[k], args);
    var after := blocks[b := ToolContent(call)];
    hide Owned;
    assert forall j :: 0 <= j < |list| && j != k ==> slots[j].block != b;
    assert forall i :: 0 <= i < |blocks| ==> after[i].ToolContent? == blocks[i].ToolContent?;
  }

  // A new call is appended to what the client has; a known one gets its arguments extended.
  lemma NewCallShows(s: State, list: seq<ToolCall>, blocks: seq<Content>, f: Fragment, call: ToolCall)
    requires Shows(s, list, blocks) && !ProseOpen(s)
    requires OpenCall(s, |list|, f).events == [BlockStart(s.next, ToolBlock(call.id, call.name))] && call.args == ""
    ensures var t := OpenCall(s, |list|, f);
            && Fold(Receive, blocks, t.events) == blocks + [ToolContent(call)]
            && Shows(t.state, list + [call], blocks + [ToolContent(call)])
  {
    hide Holds, Decimal;
    FoldOne(Receive, blocks, BlockStart(s.next, ToolBlock(call.id, call.name)));
    HoldsNewCall(s.slots, list, blocks, call);
  }

  lemma ArgumentsShow(s: State, list: seq<ToolCall>, blocks: seq<Content>, k: nat, args: string)
    requires Shows(s, list, blocks) && k < |list| && k in s.slots
    ensures var b := s.slots[k].block;
            && b < |blocks|
            && Fold(Receive, blocks, [BlockDelta(b, InputJson(args))]) == blocks[b := ToolContent(More(list[k], args))]
            && Shows(s, list[k := More(list[k], args)], blocks[b := ToolContent(More(list[k], args))])
  {
    HoldsArguments(s.slots, list, blocks, k, args);
    hide Holds, More;
    var b := s.slots[k].block;
    FoldOne(Receive, blocks, BlockDelta(b, InputJson(args)));
    hide Fold;
    assert Extend(blocks[b], InputJson(args)) == ToolContent(More(list[k], args));
    hide Extend;
  }

  // `list` after a fragment of its k-th call.
  function Grown(list: seq<ToolCall>, k: nat, id: string, f: Fragment): seq<ToolCall>
    requires k <= |list|
  {
    if k < |list| then list[k := More(list[k], f.args)] else list + [ToolCall(id, f.name, f.args)]
  }

  lemma GrowsCall(list: seq<ToolCall>, k: nat, id: string, f: Fragment)
    requires k <= |list|
    ensures var begun := if k == |list| then list + [ToolCall(id, f.name, "")] else list;
            begun[k := More(begun[k], f.args)] == Grown(list, k, id, f)
  {
    assert "" + f.args == f.args;
  }

  lemma ExtendShows(s: State, list: seq<ToolCall>, blocks: seq<Content>, k: nat, args: string)
    requires Shows(s, list, blocks) && k < |list| && k in s.slots
    ensures var events := if args == "" then [] else [BlockDelta(s.slots[k].block, InputJson(args))];
            Shows(s, list[k := More(list[k], args)], Fold(Receive, blocks, events))
  {
    if args == "" {
      assert More(list[k], args) == list[k];
      assert list[k := list[k]] == list;
    } else {
      ArgumentsShow(s, list, blocks, k, args);
    }
  }

  lemma DeliverShows(s: State, list: seq<ToolCall>, blocks: seq<Content>, k: nat, f: Fragment, id: string)
    requires Shows(s, list, blocks) && !ProseOpen(s) && k <= |list|
    requires IsNewCall(s.slots, k, f.id) == (k == |list|)
    requires k == |list| ==> OpenCall(s, k, f).events == [BlockStart(s.next, ToolBlock(id, f.name))]
    ensures var t := Deliver(s, k, f);
            Shows(t.state, Grown(list, k, id, f), Fold(Receive, blocks, t.events)) && !ProseOpen(t.state)
  {
    var mid := if k == |list| then OpenCall(s, k, f) else Step(s, []);
    var begun := if k == |list| then list + [ToolCall(id, f.name, "")] else list;
    if k == |list| {
      NewCallShows(s, list, blocks, f, ToolCall(id, f.name, ""));
    }
    var shown := Fold(Receive, blocks, mid.events);
    assert !ProseOpen(mid.state);
    var tail := if f.args == "" then [] else [BlockDelta(mid.state.slots[k].block, InputJson(f.args))];
    assert Deliver(s, k, f) == Step(mid.state, mid.events + tail);
    hide Shows, OpenCall, IsNewCall, Deliver, Grown, Fold;
    ExtendShows(mid.state, begun, shown, k, f.args);
    FoldConcat(Receive, blocks, mid.events, tail);
    GrowsCall(list, k, id, f);
  }

  lemma TracksAfter(s: State, t: State, c: Calls, f: Fragment)
    requires Tracks(s, c) && Permitted(c, f) && Target(c, f) <= |c.list|
    requires t.lastSlot == Some(Target(c, f))
    requires t.nextSlot == if f.index.None? && Target(c, f) == |c.list| then s.nextSlot + 1 else s.nextSlot
    ensures Tracks(t, Accumulate(c, f))
  {
    if f.index.None? && f.id.Some? {
      PositionFinds(c.list, f.id.value);
    }
  }

  lemma TouchShows(search: SearchOrder, s: State, list: seq<ToolCall>, blocks: seq<Content>, f: Fragment)
    requires Shows(s, list, blocks)
    ensures var u := Touch(search, s, f);
            Shows(u, list, blocks) && ProseOpen(u) == ProseOpen(s) && u.slots == s.slots && u.next == s.next
  {
    hide Holds, Resolve;
  }

  // What a new call is called, and what following a fragment's slot does to the counters.
  lemma CallTouches(search: SearchOrder, s: State, c: Calls, blocks: seq<Content>, f: Fragment)
    requires Shows(s, c.list, blocks) && Tracks(s, c) && Permitted(c, f) && ListsKeys(search)
    ensures var k, u := Target(c, f), Touch(search, s, f);
            && u.lastSlot == Some(k)
            && u.nextSlot == (if f.index.None? && f.id.Some? && k == |c.list| then s.nextSlot + 1 else s.nextSlot)
            && (k == |c.list| && f.id.None? ==> u.nextSlot == 0)
  {
    ResolvesToTarget(search, s, c, blocks, f);
    hide Shows, Resolve, Permitted, ListsKeys, DistinctIds;
  }

  lemma NewCallOpens(u: State, k: nat, f: Fragment)
    requires f.id.None? ==> u.nextSlot == 0
    ensures OpenCall(u, k, f).events == [BlockStart(u.next, ToolBlock(f.id.GetOr("call_synth_0"), f.name))]
  {
    assert "call_synth_" + Decimal(0) == "call_synth_0";
  }

  lemma CallShows(search: SearchOrder, s: State, c: Calls, blocks: seq<Content>, f: Fragment)
    requires Shows(s, c.list, blocks) && Tracks(s, c) && !ProseOpen(s)
    requires Permitted(c, f) && ListsKeys(search)
    ensures var t := OnFragment(search, s, f);
            && Shows(t.state, Accumulate(c, f).list, Fold(Receive, blocks, t.events))
            && Tracks(t.state, Accumulate(c, f))
  {
    hide Shows, Resolve, Touch, OpenCall, ListsKeys, Permitted, Tracks, Fold;
    var k, u := Target(c, f), Touch(search, s, f);
    ResolvesToTarget(search, s, c, blocks, f);
    TouchShows(search, s, c.list, blocks, f);
    CallTouches(search, s, c, blocks, f);
    if k == |c.list| {
      NewCallOpens(u, k, f);
    }
    DeliverShows(u, c.list, blocks, k, f, f.id.GetOr("call_synth_0"));
    DeliverTracks(u, k, f);
    TracksAfter(s, OnFragment(search, s, f).state, c, f);
  }

  lemma DeliverTracks(s: State, slot: nat, f: Fragment)
    ensures var t := Deliver(s, slot, f).state;
            && t.lastSlot == s.lastSlot
            && t.nextSlot == if IsNewCall(s.slots, slot, f.id) && f.id.None? then s.nextSlot + 1 else s.nextSlot
  {
  }

  // ----- runs -----

  function FragmentOf(op: Op): seq<Fragment> {
    if op.Call? then [op.fragment] else []
  }

  // The tool fragments of a stream, in order.
  function FragmentsOf(i: Input): seq<Fragment> {
    if i.Data? && i.chunk.tools.Some? then i.chunk.tools.value else []
  }

  lemma {:induction false} CallOpsFragments(fs: seq<Fragment>)
    ensures FlatMap(FragmentOf, CallOps(fs)) == fs
  {
    if fs == [] {
      assert CallOps(fs) == [];
    } else {
      var before, f := fs[..|fs| - 1], fs[|fs| - 1];
      assert CallOps(fs)[..|fs| - 1] == CallOps(before);
      CallOpsFragments(before);
      assert fs == before + [f];
    }
  }

  lemma ChunkFragmentsAre(c: Chunk)
    ensures FlatMap(FragmentOf, ChunkOps(c)) == FragmentsOf(Data(c))
  {
    hide FlatMap, ChunkOps, CallOps;
    FlatMapChunk(FragmentOf, c);
    if c.tools.Some? {
      FlatMapTools(FragmentOf, c.tools.value);
      CallOpsFragments(c.tools.value);
    } else {
      NoToolFragments();
    }
  }

  lemma NoToolFragments()
    ensures FlatMap(FragmentOf, ToolOps(None)) == []
  {
  }

  lemma InputFragments(i: Input)
    ensures FlatMap(FragmentOf, InputOps(i)) == FragmentsOf(i)
  {
    hide ChunkOps;
    match i
    case Data(c) => ChunkFragmentsAre(c);
    case Done => FlatMapOne(FragmentOf, Close);
    case Overflow =>
      FlatMapOne(FragmentOf, Warn);
      FlatMapOne(FragmentOf, Close);
      FlatMapConcat(FragmentOf, [Warn], [Close]);
      assert [Warn, Close] == [Warn] + [Close];
  }

  lemma {:induction false} RunFragments(inputs: seq<Input>)
    ensures FlatMap(FragmentOf, OpsOf(inputs)) == FlatMap(FragmentsOf, inputs)
  {
    if inputs != [] {
      var before, i := inputs[..|inputs| - 1], inputs[|inputs| - 1];
      RunFragments(before);
      InputFragments(i);
      FlatMapConcat(FragmentOf, OpsOf(before), InputOps(i));
    }
  }

  lemma FinishShows(s: State, list: seq<ToolCall>, blocks: seq<Content>, reason: string)
    requires Shows(s, list, blocks)
    ensures var t := CloseWithReason(s, reason);
            && Shows(t.state, list, blocks) && Fold(Receive, blocks, t.events) == blocks
            && t.state.nextSlot == s.nextSlot && t.state.lastSlot == s.lastSlot
  {
    if !s.ended {
      hide Holds, Fold;
      var e := s.(ended := true);
      SealShows(e, list, blocks);
      var a := SealProse(e);
      StopsAreQuiet(a.state.slots, a.state.order);
      assert forall x :: x in a.events ==> Quiet(x);
      QuietEvents(blocks, CloseWithReason(s, reason).events);
    }
  }

  lemma {:induction false} StopsAreQuiet(slots: map<nat, Slot>, order: seq<nat>)
    ensures forall e :: e in ToolStops(slots, order) ==> Quiet(e)
  {
    if order != [] {
      StopsAreQuiet(slots, order[..|order| - 1]);
    }
  }

  lemma OtherOpShows(search: SearchOrder, s: State, list: seq<ToolCall>, blocks: seq<Content>, op: Op)
    requires Shows(s, list, blocks) && !op.Call?
    ensures var t := OnOp(search, s, op);
            && Shows(t.state, list, Fold(Receive, blocks, t.events))
            && t.state.nextSlot == s.nextSlot && t.state.lastSlot == s.lastSlot
  {
    hide Holds;
    match op
    case Begin => QuietEvents(blocks, OnOp(search, s, op).events);
    case Reason(text) => ReasonShows(s, list, blocks, text);
    case Content(text) => ContentShows(s, list, blocks, text);
    case Seal => SealShows(s, list, blocks);
    case Finish(reason) => FinishShows(s, list, blocks, reason);
    case Close => FinishShows(s, list, blocks, "stop");
    case Warn => QuietEvents(blocks, OnOp(search, s, op).events);
  }

  lemma RegularPrefix(fs: seq<Fragment>, gs: seq<Fragment>)
    requires Regular(fs + gs)
    ensures Regular(fs)
    ensures gs != [] ==> Permitted(Fold(Accumulate, NO_CALLS, fs), gs[0])
  {
    forall i | 0 <= i < |fs|
      ensures Permitted(Fold(Accumulate, NO_CALLS, fs[..i]), fs[i])
    {
      assert (fs + gs)[..i] == fs[..i] && (fs + gs)[i] == fs[i];
    }
    if gs != [] {
      assert (fs + gs)[..|fs|] == fs && (fs + gs)[|fs|] == gs[0];
    }
  }

  lemma {:induction false} RunShows(search: SearchOrder, ops: seq<Op>)
    requires ListsKeys(search) && Scoped(search, INITIAL, ops)
    requires Regular(FlatMap(FragmentOf, ops))
    ensures var t := Run(OpStep(search), INITIAL, ops);
            var c := Fold(Accumulate, NO_CALLS, FlatMap(FragmentOf, ops));
            Shows(t.state, c.list, Reassemble(t.events)) && Tracks(t.state, c)
  {
    assert Shows(INITIAL, [], []) && Tracks(INITIAL, NO_CALLS);
    hide OnOp, Shows, Tracks, Accumulate, Permitted, ListsKeys, Receive;
    if ops != [] {
      var before, op := ops[..|ops| - 1], ops[|ops| - 1];
      var fs := FlatMap(FragmentOf, before);
      ScopedPrefix(search, INITIAL, ops, |before|);
      RegularPrefix(fs, FragmentOf(op));
      RunShows(search, before);
      var t, c := Run(OpStep(search), INITIAL, before), Fold(Accumulate, NO_CALLS, fs);
      StepShows(search, t.state, c, Reassemble(t.events), op);
      FoldConcat(Receive, [], t.events, OnOp(search, t.state, op).events);
      FoldConcat(Accumulate, NO_CALLS, fs, FragmentOf(op));
    }
  }

  lemma StepShows(search: SearchOrder, s: State, c: Calls, blocks: seq<Content>, op: Op)
    requires ListsKeys(search) && Shows(s, c.list, blocks) && Tracks(s, c) && InScope(s, op)
    requires op.Call? ==> Permitted(c, op.fragment)
    ensures var t := OnOp(search, s, op);
            var d := Fold(Accumulate, c, FragmentOf(op));
            Shows(t.state, d.list, Fold(Receive, blocks, t.events)) && Tracks(t.state, d)
  {
    if op.Call? {
      CallShows(search, s, c, blocks, op.fragment);
      FoldOne(Accumulate, c, op.fragment);
    } else {
      OtherOpShows(search, s, c.list, blocks, op);
    }
    hide Shows;
  }

  // The calls a client reassembles are the calls the fragments were attributed to: each
  // id's fragments reach its one block, id-less ones the block of the fragment before, in
  // any search order. The occupied slots are 0, 1, .. and the next slot number counts the
  // calls that appeared without an index.
  lemma FragmentsReachTheirCall(search: SearchOrder, inputs: seq<Input>)
    requires ListsKeys(search) && Regular(FlatMap(FragmentsOf, inputs))
    ensures var t := Run(OpStep(search), INITIAL, OpsOf(inputs));
            var calls := Fold(Accumulate, NO_CALLS, FlatMap(FragmentsOf, inputs));
            && FlatMap(CallIn, Reassemble(t.events)) == calls.list
            && (forall k :: k in t.state.slots <==> 0 <= k < |calls.list|)
            && t.state.nextSlot == calls.drawn
            && (calls.drawn == |calls.list| ==> DistinctIds(calls.list))
  {
    InputsScoped(search, inputs);
    RunFragments(inputs);
    RunShows(search, OpsOf(inputs));
    var t := Run(OpStep(search), INITIAL, OpsOf(inputs));
    HoldsMeans(t.state.slots, Fold(Accumulate, NO_CALLS, FlatMap(FragmentsOf, inputs)).list, Reassemble(t.events));
  }

  // ----- which streams are regular -----

  // All calls so far have appeared without an index.
  ghost predicate Unindexed(c: Calls) {
    c.drawn == |c.list| && DistinctIds(c.list) && (if c.list == [] then c.last == 0 else c.last < |c.list|)
  }

  lemma UnindexedStep(c: Calls, f: Fragment)
    requires Unindexed(c) && f.index.None?
    ensures Permitted(c, f) && Unindexed(Accumulate(c, f))
  {
    if f.id.Some? {
      PositionFinds(c.list, f.id.value);
    }
    hide PositionOf;
  }

  lemma RegularMore(fs: seq<Fragment>, f: Fragment)
    requires Regular(fs) && Permitted(Fold(Accumulate, NO_CALLS, fs), f)
    ensures Regular(fs + [f])
  {
    hide Permitted, Fold;
    var all := fs + [f];
    assert all[..|fs|] == fs && forall i :: 0 <= i < |fs| ==> all[..i] == fs[..i];
  }

  // Upstreams that send no index may do what they like: the ids are then distinct, and every
  // call's number is its position.
  lemma {:induction false} UnindexedIsRegular(fs: seq<Fragment>)
    requires forall f :: f in fs ==> f.index.None?
    ensures Regular(fs) && Unindexed(Fold(Accumulate, NO_CALLS, fs))
  {
    hide Accumulate, Permitted, Regular;
    if fs == [] {
      NothingIsRegular();
    } else {
      var before, f := fs[..|fs| - 1], fs[|fs| - 1];
      assert fs == before + [f] && f in fs;
      UnindexedIsRegular(before);
      UnindexedStep(Fold(Accumulate, NO_CALLS, before), f);
      RegularMore(before, f);
    }
  }

  lemma NothingIsRegular()
    ensures Regular([])
  {
  }

  // An id not seen before, sent without an index: the converter's number for it is free if
  // and only if all calls so far have appeared without one. Otherwise another call loses its
  // slot, and its block's stop.
  lemma NumbersCollide(search: SearchOrder, s: State, c: Calls, blocks: seq<Content>, f: Fragment)
    requires Shows(s, c.list, blocks) && Tracks(s, c) && !s.ended
    requires f.index.None? && f.id.Some? && PositionOf(c.list, f.id.value) == |c.list|
    ensures Orphaned(search, s, Op.Call(f)) == {} <==> c.drawn == |c.list|
  {
    PositionFinds(c.list, f.id.value);
    FindSlotFinds(search(s.slots), s.slots, f.id.value);
    hide PositionOf, FindSlot;
  }
}
