// When a converted stream ends, and with which stop reason.
module Endings {
  import opened Wrappers
  import opened JsonValue
  import opened Machine
  import opened Converter

  // The upstream finish reason that ends a stream: that of the first record to carry one,
  // unless [DONE] or an overflow comes first; those count only once a record has been seen,
  // and read as "stop".
  function Ending(inputs: seq<Input>): Option<string> {
    if inputs == [] then None
    else
      var before, last := inputs[..|inputs| - 1], inputs[|inputs| - 1];
      if Ending(before).Some? then Ending(before)
      else if last.Data? then last.chunk.finish
      else if HasRecord(before) then Some("stop") else None
  }

  predicate HasRecord(inputs: seq<Input>) {
    exists i :: 0 <= i < |inputs| && inputs[i].Data?
  }

  function Reported(e: Event): seq<string> {
    if e.MessageDelta? then [e.stopReason] else []
  }

  // What an operation reports, and whether the message has started and ended after it.
  function Closing(s: State, op: Op): seq<string> {
    if s.ended then []
    else if op.Finish? then [StopReason(op.reason)]
    else if op.Close? && s.started then [StopReason("stop")]
    else []
  }

  predicate Silent(e: Event) {
    !e.MessageDelta?
  }

  lemma {:induction false} SilentEvents(events: seq<Event>)
    requires forall e :: e in events ==> Silent(e)
    ensures FlatMap(Reported, events) == []
  {
    if events != [] {
      assert events[|events| - 1] in events;
      SilentEvents(events[..|events| - 1]);
    }
  }

  lemma {:induction false} StopsAreSilent(slots: map<nat, Slot>, order: seq<nat>)
    ensures forall e :: e in ToolStops(slots, order) ==> Silent(e)
  {
    if order != [] {
      StopsAreSilent(slots, order[..|order| - 1]);
    }
  }

  lemma FinishReports(s: State, reason: string)
    requires !s.ended
    ensures var t := CloseWithReason(s, reason);
            t.state.ended && t.state.started == s.started && FlatMap(Reported, t.events) == [StopReason(reason)]
  {
    hide StopReason;
    var a := CloseOpenBlocks(s.(ended := true));
    StopsAreSilent(a.state.slots, a.state.order);
    assert forall e :: e in a.events ==> Silent(e);
    assert a.state.ended && a.state.started == s.started;
    hide CloseOpenBlocks;
    SilentEvents(a.events);
    var last := [MessageDelta(StopReason(reason)), MessageStop];
    assert last == [MessageDelta(StopReason(reason))] + [MessageStop];
    FlatMapOne(Reported, MessageDelta(StopReason(reason)));
    FlatMapOne(Reported, MessageStop);
    FlatMapConcat(Reported, [MessageDelta(StopReason(reason))], [MessageStop]);
    FlatMapConcat(Reported, a.events, last);
  }

  lemma CallIsSilent(search: SearchOrder, s: State, f: Fragment)
    ensures var t := OnFragment(search, s, f);
            && (forall e :: e in t.events ==> Silent(e))
            && t.state.started == s.started && t.state.ended == s.ended
  {
    hide Resolve, Decimal;
  }

  lemma OpReports(search: SearchOrder, s: State, op: Op)
    ensures var t := OnOp(search, s, op);
            && FlatMap(Reported, t.events) == Closing(s, op)
            && t.state.started == (s.started || op.Begin?)
            && t.state.ended == (s.ended || Closing(s, op) != [])
  {
    var t := OnOp(search, s, op);
    if Closing(s, op) != [] {
      FinishReports(s, if op.Finish? then op.reason else "stop");
    } else {
      if op.Call? { CallIsSilent(search, s, op.fragment); }
      hide OnFragment;
      SilentEvents(t.events);
    }
  }

  // A run of operations that cannot end the message.
  lemma {:induction false} RunSilently(search: SearchOrder, s: State, ops: seq<Op>)
    requires forall op :: op in ops ==> !op.Finish? && !op.Close?
    ensures var t := Run(OpStep(search), s, ops);
            && FlatMap(Reported, t.events) == []
            && t.state.started == (s.started || Begin in ops)
            && t.state.ended == s.ended
  {
    hide OnOp;
    if ops != [] {
      var before, op := ops[..|ops| - 1], ops[|ops| - 1];
      assert op in ops && ops == before + [op];
      RunSilently(search, s, before);
      var t := Run(OpStep(search), s, before);
      OpReports(search, t.state, op);
      FlatMapConcat(Reported, t.events, OnOp(search, t.state, op).events);
    }
  }

  // What one input reports to a converter that has not ended.
  function ReasonOf(s: State, i: Input): Option<string> {
    if s.ended then None
    else if i.Data? then i.chunk.finish
    else if s.started then Some("stop") else None
  }

  ghost predicate ReportsReason(t: Transition, s: State, i: Input) {
    && FlatMap(Reported, t.events) == (if ReasonOf(s, i).Some? then [StopReason(ReasonOf(s, i).value)] else [])
    && t.state.started == (s.started || i.Data?)
    && t.state.ended == (s.ended || ReasonOf(s, i).Some?)
  }

  // A run that cannot end the message, and one last operation.
  lemma RunThenOne(search: SearchOrder, s: State, before: seq<Op>, last: Op)
    requires forall op :: op in before ==> !op.Finish? && !op.Close?
    ensures var t := Run(OpStep(search), s, before + [last]);
            var u := s.(started := s.started || Begin in before);
            && FlatMap(Reported, t.events) == Closing(u, last)
            && t.state.started == (u.started || last.Begin?)
            && t.state.ended == (s.ended || Closing(u, last) != [])
  {
    hide OnOp;
    RunSilently(search, s, before);
    var t := Run(OpStep(search), s, before);
    OpReports(search, t.state, last);
    RunSnoc(OpStep(search), s, before, last);
    FlatMapConcat(Reported, t.events, OnOp(search, t.state, last).events);
  }

  lemma ChunkReports(search: SearchOrder, s: State, c: Chunk)
    ensures ReportsReason(Run(OpStep(search), s, ChunkOps(c)), s, Data(c))
  {
    hide OnOp, StopReason, Run, FlatMap;
    var body := [Begin, Reason(c.reasoning), Content(c.content)] + ToolOps(c.tools);
    assert body[0] == Begin;
    if c.finish.None? {
      assert ChunkOps(c) == body;
      RunSilently(search, s, body);
    } else {
      assert ChunkOps(c) == body + [Finish(c.finish.value)];
      RunThenOne(search, s, body, Finish(c.finish.value));
    }
  }

  lemma InputReports(search: SearchOrder, s: State, i: Input)
    ensures ReportsReason(Run(OpStep(search), s, InputOps(i)), s, i)
  {
    hide OnOp, StopReason, Run, FlatMap;
    if i.Data? {
      ChunkReports(search, s, i.chunk);
    } else {
      var before := if i.Done? then [] else [Warn];
      assert InputOps(i) == before + [Close];
      RunThenOne(search, s, before, Close);
    }
  }

  // The finish reasons that have a stop reason of their own; any other is an end of turn.
  const OWN_REASONS := map["length" := "max_tokens", "tool_calls" := "tool_use"]

  function Mapped(finish: string): string {
    if finish in OWN_REASONS then OWN_REASONS[finish] else "end_turn"
  }

  lemma StopReasonIsMapped(finish: string)
    ensures StopReason(finish) == Mapped(finish)
  {
  }

  ghost predicate Reports(t: Transition, inputs: seq<Input>) {
    && t.state.started == HasRecord(inputs)
    && t.state.ended == Ending(inputs).Some?
    && FlatMap(Reported, t.events) ==
         (if Ending(inputs).Some? then [Mapped(Ending(inputs).value)] else [])
  }

  lemma EndingOneMore(before: seq<Input>, i: Input)
    ensures Ending(before + [i]) ==
            if Ending(before).Some? then Ending(before)
            else if i.Data? then i.chunk.finish
            else if HasRecord(before) then Some("stop") else None
  {
    assert (before + [i])[..|before|] == before;
  }

  lemma ReportsOneMore(search: SearchOrder, t: Transition, before: seq<Input>, i: Input)
    requires Reports(t, before)
    ensures var u := Run(OpStep(search), t.state, InputOps(i));
            Reports(Step(u.state, t.events + u.events), before + [i])
  {
    hide InputOps, StopReason, Mapped, HasRecord, Ending, Run, FlatMap;
    InputReports(search, t.state, i);
    RecordsGrow(before, i);
    EndingOneMore(before, i);
    var u := Run(OpStep(search), t.state, InputOps(i));
    FlatMapConcat(Reported, t.events, u.events);
    if ReasonOf(t.state, i).Some? {
      StopReasonIsMapped(ReasonOf(t.state, i).value);
    }
  }

  // Exactly one stop reason is reported, and it is that of the ending, if there is one.
  // Without an ending nothing closes the message: end of input alone does not.
  lemma {:induction false} ReportsItsEnding(search: SearchOrder, inputs: seq<Input>)
    ensures Reports(Run(OpStep(search), INITIAL, OpsOf(inputs)), inputs)
  {
    assert inputs == [] ==> Reports(Step(INITIAL, []), inputs);
    hide OnOp, InputOps, Reports;
    if inputs != [] {
      var before, i := inputs[..|inputs| - 1], inputs[|inputs| - 1];
      assert inputs == before + [i];
      ReportsItsEnding(search, before);
      ReportsOneMore(search, Run(OpStep(search), INITIAL, OpsOf(before)), before, i);
      RunOneMore(search, INITIAL, before, i);
    }
  }

  lemma RecordsGrow(before: seq<Input>, i: Input)
    ensures HasRecord(before + [i]) == (HasRecord(before) || i.Data?)
  {
    var all := before + [i];
    if HasRecord(before) {
      var k :| 0 <= k < |before| && before[k].Data?;
      assert all[k].Data?;
    } else if i.Data? {
      assert all[|before|].Data?;
    }
  }
}
