// The stream adapter around the line buffer: network chunks in, chunks of whole lines out,
// failures passed on where they occur, and the unfinished line flushed at the end.
module BufferedLines {
  import opened Bytes
  import opened Machine
  import opened Text
  import opened SseLineBuffer

  datatype Item<E> = Text(text: seq<byte>) | Failed(error: E)

  function Terminated(line: seq<byte>): seq<byte> {
    line + [LF]
  }

  // Each line with a newline.
  function Joined(lines: seq<seq<byte>>): seq<byte> {
    FlatMap(Terminated, lines)
  }

  function OnItem<E>(buf: seq<byte>, item: Item<E>): Step<seq<byte>, Item<E>> {
    match item
    case Failed(_) => Step(buf, [item])
    case Text(chunk) =>
      var t := OnText(buf, chunk);
      Step(t.state, if t.events == [] then [] else [Text(Joined(t.events))])
  }

  function ItemStep<E>(): (seq<byte>, Item<E>) -> Step<seq<byte>, Item<E>> {
    (buf: seq<byte>, item: Item<E>) => OnItem(buf, item)
  }

  function Flush<E>(buf: seq<byte>): seq<Item<E>> {
    if buf == [] then [] else [Text(buf)]
  }

  function Adapted<E>(items: seq<Item<E>>): seq<Item<E>> {
    var t := Run(ItemStep(), [], items);
    t.events + Flush(t.state)
  }

  method Adapt<E>(items: seq<Item<E>>) returns (out: seq<Item<E>>)
    ensures out == Adapted(items)
  {
    hide OnText, Run;
    var buffer := new LineBuffer();
    out := [];
    EmptyRun<E>();
    for i := 0 to |items|
      invariant fresh(buffer)
      invariant Step(buffer.buf, out) == Run(ItemStep(), [], items[..i])
    {
      RunSnoc(ItemStep(), [], items[..i], items[i]);
      assert items[..i + 1] == items[..i] + [items[i]];
      if items[i].Text? {
        var complete := buffer.Push(items[i].text);
        if complete != [] {
          out := out + [Text(Joined(complete))];
        }
      } else {
        out := out + [items[i]];
      }
    }
    assert items[..|items|] == items;
    var remainder := buffer.TakeRemainder();
    if remainder.Some? {
      out := out + [Text(remainder.value)];
    }
  }

  lemma EmptyRun<E>()
    ensures Run(ItemStep<E>(), [], []) == Step([], [])
  {
  }

  function TextIn<E>(item: Item<E>): seq<byte> {
    if item.Text? then item.text else []
  }

  function ChunkIn<E>(item: Item<E>): seq<seq<byte>> {
    if item.Text? then [item.text] else []
  }

  function FailureIn<E>(item: Item<E>): seq<E> {
    if item.Failed? then [item.error] else []
  }

  // ----- lines that read back as themselves -----

  predicate Whole(line: seq<byte>) {
    line != [] && LF !in line && TrimCr(line) == line
  }

  lemma {:induction false} TrimmedIsWhole(line: seq<byte>)
    requires LF !in line
    ensures LF !in TrimCr(line) && TrimCr(TrimCr(line)) == TrimCr(line)
  {
    if line != [] && line[|line| - 1] == CR {
      TrimmedIsWhole(line[..|line| - 1]);
    }
  }

  lemma {:induction false} LinesHaveNoNewline(s: seq<byte>)
    ensures forall line :: line in Lines(s) ==> LF !in line
  {
    var i := FindNewline(s);
    if i < |s| {
      LinesHaveNoNewline(s[i + 1..]);
    }
  }

  lemma KeptAreWhole(s: seq<byte>)
    ensures forall line :: line in KeptLines(s) ==> Whole(line)
  {
    hide Lines, TrimCr;
    LinesHaveNoNewline(s);
    forall line | line in KeptLines(s) ensures Whole(line) {
      InFlatMap(Kept, Lines(s), line);
      var raw :| raw in Lines(s) && line in Kept(raw);
      TrimmedIsWhole(raw);
    }
  }

  lemma OneLine(line: seq<byte>)
    requires Whole(line)
    ensures KeptLines(Terminated(line)) == [line] && Rest(Terminated(line)) == []
  {
    hide Lines, Rest, KeptLines;
    var s := Terminated(line);
    FindNewlineIs(s, |line|);
    assert s[..|line|] == line && s[|line| + 1..] == [];
    FirstKept(s, |line|);
    NothingKept([]);
  }

  lemma {:induction false} JoinedLines(lines: seq<seq<byte>>)
    requires forall line :: line in lines ==> Whole(line)
    ensures KeptLines(Joined(lines)) == lines && Rest(Joined(lines)) == []
  {
    hide KeptLines, Rest, Whole, Terminated;
    if lines == [] {
      NothingKept([]);
    } else {
      var before, last := lines[..|lines| - 1], lines[|lines| - 1];
      assert lines == before + [last] && last in lines;
      JoinedLines(before);
      OneLine(last);
      KeptConcat(Joined(before), Terminated(last));
      LinesConcat(Joined(before), Terminated(last));
      assert [] + Terminated(last) == Terminated(last);
    }
  }

  // ----- the adapter against the buffer -----

  ghost predicate Matches<E>(t: Step<seq<byte>, Item<E>>, u: Step<seq<byte>, seq<byte>>) {
    t.state == u.state && FlatMap(TextIn, t.events) == Joined(u.events)
  }

  lemma TextMatches<E>(t: Step<seq<byte>, Item<E>>, u: Step<seq<byte>, seq<byte>>, chunk: seq<byte>)
    requires Matches(t, u)
    ensures var a, b := OnItem<E>(t.state, Text(chunk)), OnText(u.state, chunk);
            && Matches(Step(a.state, t.events + a.events), Step(b.state, u.events + b.events))
            && FlatMap(FailureIn, t.events + a.events) == FlatMap(FailureIn, t.events)
  {
    hide OnText, Terminated, FlatMap;
    var a, b := OnItem<E>(t.state, Text(chunk)), OnText(u.state, chunk);
    FlatMapConcat(TextIn, t.events, a.events);
    FlatMapConcat(FailureIn, t.events, a.events);
    FlatMapConcat(Terminated, u.events, b.events);
    if b.events != [] {
      FlatMapOne(TextIn, a.events[0]);
      FlatMapOne(FailureIn, a.events[0]);
    } else {
      assert t.events + [] == t.events && u.events + [] == u.events;
    }
  }

  lemma FailureMatches<E>(t: Step<seq<byte>, Item<E>>, error: E)
    ensures FlatMap(TextIn, t.events + [Failed(error)]) == FlatMap(TextIn, t.events)
    ensures FlatMap(FailureIn, t.events + [Failed(error)]) == FlatMap(FailureIn, t.events) + [error]
  {
    FlatMapConcat(TextIn, t.events, [Failed(error)]);
    FlatMapConcat(FailureIn, t.events, [Failed(error)]);
    FlatMapOne(TextIn, Failed(error));
    FlatMapOne(FailureIn, Failed(error));
  }

  lemma {:induction false} RunsTheBuffer<E>(items: seq<Item<E>>)
    ensures var t := Run(ItemStep(), [], items);
            && Matches(t, Run(TextStep(), [], FlatMap(ChunkIn, items)))
            && FlatMap(FailureIn, t.events) == FlatMap(FailureIn, items)
  {
    hide OnText, Matches, TextIn;
    if items == [] {
      NothingMatches<E>();
    } else {
      var before, item := items[..|items| - 1], items[|items| - 1];
      RunsTheBuffer(before);
      var t, u := Run(ItemStep(), [], before), Run(TextStep(), [], FlatMap(ChunkIn, before));
      if item.Text? {
        RunSnoc(TextStep(), [], FlatMap(ChunkIn, before), item.text);
        TextMatches(t, u, item.text);
      } else {
        FailureMatches(t, item.error);
        assert FlatMap(ChunkIn, items) == FlatMap(ChunkIn, before);
        SameMatches(t, Step(t.state, t.events + [item]), u);
      }
    }
  }

  lemma NothingMatches<E>()
    ensures Matches<E>(Step([], []), Step([], []))
  {
  }

  lemma SameMatches<E>(t: Step<seq<byte>, Item<E>>, v: Step<seq<byte>, Item<E>>, u: Step<seq<byte>, seq<byte>>)
    requires Matches(t, u) && v.state == t.state && FlatMap(TextIn, v.events) == FlatMap(TextIn, t.events)
    ensures Matches(v, u)
  {
  }

  lemma {:induction false} SameText<E>(items: seq<Item<E>>)
    ensures FlatMap(AsIs, FlatMap(ChunkIn, items)) == FlatMap(TextIn, items)
  {
    if items != [] {
      var before, item := items[..|items| - 1], items[|items| - 1];
      SameText(before);
      FlatMapConcat(AsIs, FlatMap(ChunkIn, before), ChunkIn(item));
      if item.Text? {
        FlatMapOne(AsIs, item.text);
      }
    }
  }

  lemma FlushSays<E>(events: seq<Item<E>>, buf: seq<byte>)
    ensures FlatMap(TextIn, events + Flush(buf)) == FlatMap(TextIn, events) + buf
    ensures FlatMap(FailureIn, events + Flush(buf)) == FlatMap(FailureIn, events)
  {
    FlatMapConcat(TextIn, events, Flush(buf));
    FlatMapConcat(FailureIn, events, Flush(buf));
    if buf != [] {
      FlatMapOne(TextIn<E>, Text(buf));
      FlatMapOne(FailureIn<E>, Text(buf));
    }
  }

  // However the upstream cuts its text, what comes out has the same non-empty lines in the
  // same order, and the same failures.
  lemma AdapterKeepsLines<E>(items: seq<Item<E>>)
    ensures AllLines(FlatMap(TextIn, Adapted(items))) == AllLines(FlatMap(TextIn, items))
    ensures FlatMap(FailureIn, Adapted(items)) == FlatMap(FailureIn, items)
  {
    hide AllLines, KeptLines, Rest, Joined, Run, Flush;
    RunsTheBuffer(items);
    SameText(items);
    var chunks := FlatMap(ChunkIn, items);
    var t, u := Run(ItemStep(), [], items), Run(TextStep(), [], chunks);
    FlushSays(t.events, t.state);
    NoLineIsLost(chunks);
    var p := Consumed(chunks);
    KeptAreWhole(p);
    JoinedLines(u.events);
    AllConcat(Joined(u.events), u.state);
    assert [] + u.state == u.state;
  }

  // Every chunk handed on before the end consists of whole lines.
  lemma {:induction false} OnlyWholeLines<E>(items: seq<Item<E>>)
    ensures forall item :: item in Run(ItemStep(), [], items).events && item.Text? ==>
              item.text != [] && Rest(item.text) == []
  {
    hide OnText, Rest, KeptLines;
    if items != [] {
      var before, item := items[..|items| - 1], items[|items| - 1];
      OnlyWholeLines(before);
      if item.Text? {
        WholeAfter(Run(ItemStep(), [], before).state, item.text);
      }
    }
  }

  lemma WholeAfter(buf: seq<byte>, chunk: seq<byte>)
    ensures var lines := OnText(buf, chunk).events;
            Rest(Joined(lines)) == [] && (lines != [] ==> Joined(lines) != [])
  {
    hide KeptLines, Rest, OnText, Whole;
    var p := ConsumesMore(buf, chunk);
    KeptAreWhole(p);
    JoinedLines(OnText(buf, chunk).events);
  }

  // While the text fits, nothing waits: after any number of items the lines completed by them
  // have been handed on, and so have their failures; only the unfinished line is held.
  lemma PassesLinesAtOnce<E>(items: seq<Item<E>>, ws: seq<Written>, tail: seq<byte>)
    requires AllWritten(ws) && '\n' as byte !in tail && Fits(FlatMap(ChunkIn, items))
    requires FlatMap(TextIn, items) == FlatMap(TextOf, ws) + tail
    ensures var t := Run(ItemStep(), [], items);
            && FlatMap(TextIn, t.events) == Joined(FlatMap(NonEmpty, ws)) && t.state == tail
            && FlatMap(FailureIn, t.events) == FlatMap(FailureIn, items)
  {
    hide Joined, Run, Fits, AllWritten, FlatMap, TextOf, NonEmpty;
    RunsTheBuffer(items);
    SameText(items);
    EmitsTheLines(ws, tail, FlatMap(ChunkIn, items));
  }
}
