// The upstream pipeline end to end: network chunks of bytes through the UTF-8 reader and
// the converter. Where the network cuts the body makes no difference.
module Pipeline {
  import opened Bytes
  import opened JsonValue
  import opened Machine
  import opened Utf8
  import opened Text
  import opened StreamConverter
  import C = Converter
  import G = EventGrammar
  import U = Utf8Stream

  // ----- the line buffer on its own -----

  function FeedStep(read: TextReader): (seq<byte>, seq<byte>) -> Step<seq<byte>, C.Input> {
    (line: seq<byte>, raw: seq<byte>) =>
      var (inputs, rest) := ChunkInputs(read, line, raw); Step(rest, inputs)
  }

  // The texts in a row.
  function Whole(texts: seq<seq<byte>>): seq<byte> {
    FlatMap(AsIs, texts)
  }

  // A run of the converter is a run of the machine on what the line buffer feeds it.
  lemma {:induction false} ConvertRuns(search: C.SearchOrder, read: TextReader, b: Buffered, texts: seq<seq<byte>>)
    ensures var fed := Run(FeedStep(read), b.line, texts);
            var t := Run(C.OpStep(search), b.state, C.OpsOf(fed.events));
            Run(ConvertStep(search, read), b, texts) == Step(Buffered(t.state, fed.state), t.events)
  {
    hide C.OnOp, C.OpsOf, ChunkInputs;
    EmptyRun(search, b.state);
    if texts != [] {
      var before, raw := texts[..|texts| - 1], texts[|texts| - 1];
      ConvertRuns(search, read, b, before);
      var fed := Run(FeedStep(read), b.line, before);
      AppendRun(search, b.state, fed.events, ChunkInputs(read, fed.state, raw).0);
    }
  }

  // No chunk, together with the unfinished line before it, exceeds the cap.
  ghost predicate Fits(texts: seq<seq<byte>>) {
    forall i :: 0 <= i < |texts| ==> |Rest(Whole(texts[..i]))| + |texts[i]| <= 1_048_576
  }

  lemma FitsPrefix(texts: seq<seq<byte>>)
    requires Fits(texts) && texts != []
    ensures Fits(texts[..|texts| - 1])
    ensures |Rest(Whole(texts[..|texts| - 1])) + texts[|texts| - 1]| <= MAX_LINE_BUFFER
  {
    var before := texts[..|texts| - 1];
    forall i | 0 <= i < |before|
      ensures |Rest(Whole(before[..i]))| + |before[i]| <= MAX_LINE_BUFFER
    {
      assert before[..i] == texts[..i];
    }
  }

  lemma {:induction false} LinesInputsConcat(read: TextReader, xs: seq<seq<byte>>, ys: seq<seq<byte>>)
    ensures LinesInputs(read, xs + ys) == LinesInputs(read, xs) + LinesInputs(read, ys)
  {
    hide LineInputs;
    FlatMapConcat((raw: seq<byte>) => LineInputs(read, raw), xs, ys);
  }

  // Chunks that fit feed the converter what their text would feed it in one piece.
  lemma {:induction false} FedAsOne(read: TextReader, texts: seq<seq<byte>>)
    requires Fits(texts)
    ensures Run(FeedStep(read), [], texts) == Step(Rest(Whole(texts)), LinesInputs(read, Lines(Whole(texts))))
  {
    hide Fits, LinesInputs, Lines, Rest;
    if texts == [] {
      UnbrokenLine([]);
      NoLines(read);
    } else {
      var before, raw := texts[..|texts| - 1], texts[|texts| - 1];
      FitsPrefix(texts);
      FedAsOne(read, before);
      LinesConcat(Whole(before), raw);
      LinesInputsConcat(read, Lines(Whole(before)), Lines(Rest(Whole(before)) + raw));
      assert Whole(texts) == Whole(before) + raw;
    }
  }

  // Two ways of cutting the same text that fit: same events, same converter.
  lemma CutsAreInvisible(search: C.SearchOrder, read: TextReader, one: seq<seq<byte>>, two: seq<seq<byte>>)
    requires Whole(one) == Whole(two) && Fits(one) && Fits(two)
    ensures Run(ConvertStep(search, read), INITIAL, one) == Run(ConvertStep(search, read), INITIAL, two)
  {
    hide Convert, C.OnOp, Fits;
    ConvertRuns(search, read, INITIAL, one);
    ConvertRuns(search, read, INITIAL, two);
    FedAsOne(read, one);
    FedAsOne(read, two);
  }

  // Feeding `a` and then `b` is feeding them together.
  lemma ConvertTwice(search: C.SearchOrder, read: TextReader, b: Buffered, x: seq<byte>, y: seq<byte>)
    requires |b.line + x + y| <= MAX_LINE_BUFFER
    ensures var s := Convert(search, read, b, x);
            var t := Convert(search, read, s.state, y);
            Convert(search, read, b, x + y) == Step(t.state, s.events + t.events)
  {
    hide C.OnOp, LinesInputs, Lines, Rest, Run, C.OpsOf;
    assert b.line + (x + y) == b.line + x + y;
    LinesConcat(b.line + x, y);
    LinesInputsConcat(read, Lines(b.line + x), Lines(Rest(b.line + x) + y));
    AppendRun(search, b.state, LinesInputs(read, Lines(b.line + x)), LinesInputs(read, Lines(Rest(b.line + x) + y)));
  }

  lemma {:induction false} LinesNeverOverflow(read: TextReader, lines: seq<seq<byte>>)
    ensures C.Overflow !in LinesInputs(read, lines)
  {
    if lines != [] {
      var before := lines[..|lines| - 1];
      LinesNeverOverflow(read, before);
      LinesInputsConcat(read, before, [lines[|lines| - 1]]);
      assert lines == before + [lines[|lines| - 1]];
      FlatMapOne((raw: seq<byte>) => LineInputs(read, raw), lines[|lines| - 1]);
    }
  }

  // The converter is fed an overflow exactly when some chunk does not fit.
  lemma {:induction false} OverflowsWhenUnfit(read: TextReader, texts: seq<seq<byte>>)
    ensures C.Overflow in Run(FeedStep(read), [], texts).events <==> !Fits(texts)
  {
    hide LinesInputs, Lines, Rest;
    if texts != [] {
      var before, raw := texts[..|texts| - 1], texts[|texts| - 1];
      OverflowsWhenUnfit(read, before);
      var fed := Run(FeedStep(read), [], before);
      if Fits(before) {
        FedAsOne(read, before);
        LinesNeverOverflow(read, Lines(fed.state + raw));
        FitsOneMore(before, raw);
        assert texts == before + [raw];
      } else if Fits(texts) {
        FitsPrefix(texts);
      }
    }
  }

  lemma FitsOneMore(before: seq<seq<byte>>, raw: seq<byte>)
    requires Fits(before)
    ensures Fits(before + [raw]) <==> |Rest(Whole(before))| + |raw| <= MAX_LINE_BUFFER
  {
    hide Rest, Whole;
    var all := before + [raw];
    assert all[..|before|] == before && all[|before|] == raw;
    forall i | 0 <= i < |before|
      ensures |Rest(Whole(all[..i]))| + |all[i]| <= MAX_LINE_BUFFER
    {
      assert all[..i] == before[..i];
    }
  }

  // After an overflow the line buffer starts afresh: what follows is read as if nothing had
  // come before it.
  lemma OverflowStartsAfresh(read: TextReader, before: seq<seq<byte>>, raw: seq<byte>, after: seq<seq<byte>>)
    requires |Run(FeedStep(read), [], before).state| + |raw| > 1_048_576
    ensures var a, b := Run(FeedStep(read), [], before), Run(FeedStep(read), [], after);
            Run(FeedStep(read), [], before + [raw] + after) == Step(b.state, a.events + [C.Overflow] + b.events)
  {
    hide Run;
    RunSnoc(FeedStep(read), [], before, raw);
    RunConcat(FeedStep(read), [], before + [raw], after);
  }

  lemma {:induction false} StopsAreNoErrors(slots: map<nat, C.Slot>, order: seq<nat>)
    ensures C.OverflowError !in C.ToolStops(slots, order)
  {
    if order != [] {
      StopsAreNoErrors(slots, order[..|order| - 1]);
    }
  }

  lemma ClosingIsNoError(s: C.State, reason: string)
    ensures C.OverflowError !in C.CloseWithReason(s, reason).events
  {
    var a := C.SealProse(s.(ended := true));
    StopsAreNoErrors(a.state.slots, a.state.order);
    hide C.ToolStops, StopReason;
  }

  lemma CallIsNoError(search: C.SearchOrder, s: C.State, f: C.Fragment)
    ensures C.OverflowError !in C.OnFragment(search, s, f).events
  {
    hide C.Resolve, C.Decimal;
  }

  lemma OnlyWarnErrs(search: C.SearchOrder, s: C.State, op: C.Op)
    ensures C.OverflowError in C.OnOp(search, s, op).events <==> op.Warn?
  {
    match op
    case Call(f) => CallIsNoError(search, s, f);
    case Finish(reason) => ClosingIsNoError(s, reason);
    case Close => ClosingIsNoError(s, "stop");
    case _ =>
    hide C.OnFragment, C.CloseWithReason;
  }

  lemma {:induction false} WarningsErr(search: C.SearchOrder, s: C.State, ops: seq<C.Op>)
    ensures C.OverflowError in Run(C.OpStep(search), s, ops).events <==> C.Warn in ops
  {
    hide C.OnOp;
    if ops != [] {
      var before, op := ops[..|ops| - 1], ops[|ops| - 1];
      assert ops == before + [op];
      WarningsErr(search, s, before);
      OnlyWarnErrs(search, Run(C.OpStep(search), s, before).state, op);
    }
  }

  lemma OverflowWarns(inputs: seq<C.Input>)
    ensures C.Warn in C.OpsOf(inputs) <==> C.Overflow in inputs
  {
    InFlatMap(C.InputOps, inputs, C.Warn);
    assert forall i: C.Input :: C.Warn in C.InputOps(i) <==> i.Overflow?;
  }

  // The overflow error is emitted exactly when some chunk does not fit.
  lemma ErrsWhenUnfit(search: C.SearchOrder, read: TextReader, texts: seq<seq<byte>>)
    ensures C.OverflowError in Run(ConvertStep(search, read), INITIAL, texts).events <==> !Fits(texts)
  {
    hide C.OnOp, C.OpsOf, ChunkInputs, Fits, Run, Convert;
    var inputs := Run(FeedStep(read), [], texts).events;
    ConvertRuns(search, read, INITIAL, texts);
    OverflowsWhenUnfit(read, texts);
    OverflowWarns(inputs);
    WarningsErr(search, INITIAL.state, C.OpsOf(inputs));
  }

  // Against a cut that fits, another cut of the same text shows if and only if it does not fit.
  lemma CutsShow(search: C.SearchOrder, read: TextReader, one: seq<seq<byte>>, two: seq<seq<byte>>)
    requires Whole(one) == Whole(two) && Fits(one)
    ensures Run(ConvertStep(search, read), INITIAL, one) == Run(ConvertStep(search, read), INITIAL, two) <==> Fits(two)
  {
    hide Whole, Fits, Run, Convert;
    ErrsWhenUnfit(search, read, one);
    ErrsWhenUnfit(search, read, two);
    if Fits(two) {
      CutsAreInvisible(search, read, one, two);
    }
  }

  // Complete lines count against the cap, too, so two chunks that fit one after the other
  // need not fit together, and then the converter can tell.
  lemma CutsShowBeyondTheCap(search: C.SearchOrder, read: TextReader, a: seq<byte>, b: seq<byte>)
    requires |a| <= 1_048_576 && |b| <= 1_048_576 < |a + b| && Rest(a) == []
    ensures Whole([a, b]) == Whole([a + b])
    ensures Run(ConvertStep(search, read), INITIAL, [a, b]) != Run(ConvertStep(search, read), INITIAL, [a + b])
  {
    hide Convert, Fits, Run, Whole;
    TwoCuts(a, b);
    CutsShow(search, read, [a, b], [a + b]);
  }

  lemma TwoCuts(a: seq<byte>, b: seq<byte>)
    requires |a| <= MAX_LINE_BUFFER && |b| <= MAX_LINE_BUFFER < |a + b| && Rest(a) == []
    ensures Fits([a, b]) && !Fits([a + b]) && Whole([a, b]) == Whole([a + b])
  {
    UnbrokenLine([]);
    assert [a, b] == [a] + [b] && [a + b] == [] + [a + b] && [a] == [] + [a];
    FlatMapOne(AsIs, a);
    FlatMapOne(AsIs, a + b);
    FlatMapConcat(AsIs, [a], [b]);
    FlatMapOne(AsIs, b);
    hide Rest;
    assert Fits([]);
    FitsOneMore([], a);
    FitsOneMore([], a + b);
    FitsOneMore([a], b);
  }

  // ----- from bytes -----

  // The text chunks the reader hands on; a failed chunk hands on nothing.
  function Texts(max: nat, chunks: seq<U.Chunk>): seq<seq<byte>> {
    Handed(Run(U.ByteStep(max), U.EMPTY, chunks).events)
  }

  function Handed(outputs: seq<U.Output>): seq<seq<byte>> {
    seq(|outputs|, i requires 0 <= i < |outputs| => U.TextOf(outputs[i]))
  }

  lemma {:induction false} HandedWhole(outputs: seq<U.Output>)
    ensures Whole(Handed(outputs)) == FlatMap(U.TextOf, outputs)
  {
    if outputs != [] {
      var before := outputs[..|outputs| - 1];
      HandedWhole(before);
      assert Handed(outputs)[..|before|] == Handed(before);
    }
  }

  // A body that arrives whole, is valid text and stays within the size limit.
  ghost predicate Sound(max: nat, chunks: seq<U.Chunk>) {
    U.AllBytes(chunks) && |FlatMap(U.BytesOf, chunks)| <= max && Valid(FlatMap(U.BytesOf, chunks))
  }

  // The main result: a cut of a body into network chunks against another one that keeps
  // within the line cap. The converter emits the same events and ends in the same state,
  // line buffer included, if and only if the cut keeps within the cap as well.
  lemma ChunkingIsInvisible(max: nat, search: C.SearchOrder, read: TextReader, one: seq<U.Chunk>, two: seq<U.Chunk>)
    requires Sound(max, one) && Sound(max, two) && Fits(Texts(max, one))
    requires FlatMap(U.BytesOf, one) == FlatMap(U.BytesOf, two)
    ensures var s := Run(ConvertStep(search, read), INITIAL, Texts(max, one));
            var t := Run(ConvertStep(search, read), INITIAL, Texts(max, two));
            s == t <==> Fits(Texts(max, two))
  {
    hide Valid, Fits, U.OnBytes;
    U.ReassemblesText(max, one);
    U.ReassemblesText(max, two);
    HandedWhole(Run(U.ByteStep(max), U.EMPTY, one).events);
    HandedWhole(Run(U.ByteStep(max), U.EMPTY, two).events);
    CutsShow(search, read, Texts(max, one), Texts(max, two));
  }

  // Whatever the upstream sends, in whatever pieces, overflow included, the converter's
  // events obey the protocol.
  lemma PipelineObeysTheProtocol(search: C.SearchOrder, read: TextReader, texts: seq<seq<byte>>)
    ensures var t := Run(ConvertStep(search, read), INITIAL, texts);
            var w := G.Watch(G.FRESH, t.events);
            w.Some? && w.value.stopped == t.state.state.ended
  {
    hide C.OnOp, Convert, ChunkInputs, G.Watch;
    ConvertRuns(search, read, INITIAL, texts);
    G.RunsObeyTheProtocol(search, Run(FeedStep(read), INITIAL.line, texts).events);
  }
}
