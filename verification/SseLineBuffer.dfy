// The line buffer of the pass-through streaming route: whole lines out, the unfinished one
// kept, and a cap that is applied by cutting, emitting and putting the cut-off part back.
module SseLineBuffer {
  import opened Bytes
  import opened Wrappers
  import opened Machine
  import opened Utf8
  import opened Text

  const MAX_LINE_BUFFER: nat := 1024 * 1024

  // `str::is_char_boundary`
  predicate Boundary(s: seq<byte>, i: nat)
    requires i <= |s|
  {
    i == 0 || i == |s| || !Tail(s[i])
  }

  // The last boundary at or below `cut`.
  function CutAt(s: seq<byte>, cut: nat): (r: nat)
    requires cut <= |s|
    ensures r <= cut && Boundary(s, r) && forall k :: r < k <= cut ==> !Boundary(s, k)
  {
    if cut > 0 && !Boundary(s, cut) then CutAt(s, cut - 1) else cut
  }

  // A line as it is emitted: without carriage returns at its end, and not at all if empty.
  function Kept(line: seq<byte>): seq<seq<byte>> {
    if TrimCr(line) == [] then [] else [TrimCr(line)]
  }

  function KeptLines(s: seq<byte>): seq<seq<byte>> {
    FlatMap(Kept, Lines(s))
  }

  // All non-empty lines of a text, the unterminated last one included.
  function AllLines(s: seq<byte>): seq<seq<byte>> {
    KeptLines(s) + Kept(Rest(s))
  }

  // What a chunk makes the buffer emit, and the buffer after it.
  function OnText(buf: seq<byte>, chunk: seq<byte>): Step<seq<byte>, seq<byte>> {
    var text := buf + chunk;
    var cut := if |text| > MAX_LINE_BUFFER then CutAt(text, MAX_LINE_BUFFER) else |text|;
    Step(Rest(text[..cut]) + text[cut..], KeptLines(text[..cut]))
  }

  class LineBuffer {
    var buf: seq<byte>

    constructor ()
      ensures buf == []
    {
      buf := [];
    }

    method Push(chunk: seq<byte>) returns (lines: seq<seq<byte>>)
      modifies this
      ensures Step(buf, lines) == OnText(old(buf), chunk)
      decreases |buf| + |chunk|
    {
      hide KeptLines, Rest;
      buf := buf + chunk;
      ghost var text := buf;
      if |buf| > MAX_LINE_BUFFER {
        var cut := MAX_LINE_BUFFER;
        while cut > 0 && !Boundary(buf, cut)
          invariant 0 <= cut <= MAX_LINE_BUFFER
          invariant CutAt(text, MAX_LINE_BUFFER) == CutAt(text, cut)
          invariant buf == text
        {
          cut := cut - 1;
        }
        var overflow := buf[cut..];
        var head := buf[..cut];
        buf := [];
        lines := Push(head);
        assert [] + head == head && head[..|head|] == head && head[|head|..] == [];
        assert OnText([], head) == Step(Rest(head) + [], KeptLines(head));
        assert buf == Rest(head);
        buf := buf + overflow;
        assert head == text[..CutAt(text, MAX_LINE_BUFFER)] && overflow == text[CutAt(text, MAX_LINE_BUFFER)..];
        return;
      }
      lines := [];
      while LF in buf
        invariant KeptLines(text) == lines + KeptLines(buf)
        invariant Rest(text) == Rest(buf)
        decreases |buf|
      {
        var pos := FindNewline(buf);
        NewlineFound(buf);
        FirstKept(buf, pos);
        var line := TrimCr(buf[..pos]);
        buf := buf[pos + 1..];
        if line != [] {
          lines := lines + [line];
        }
      }
      NothingKept(buf);
      assert lines + [] == lines && Rest(text) + [] == Rest(text);
      assert text[..|text|] == text && text[|text|..] == [];
    }

    method TakeRemainder() returns (r: Option<seq<byte>>)
      modifies this
      ensures buf == [] && r == if old(buf) == [] then None else Some(old(buf))
    {
      if buf == [] {
        return None;
      }
      r := Some(buf);
      buf := [];
    }
  }

  lemma FirstKept(s: seq<byte>, i: nat)
    requires i < |s| && i == FindNewline(s)
    ensures KeptLines(s) == Kept(s[..i]) + KeptLines(s[i + 1..]) && Rest(s) == Rest(s[i + 1..])
  {
    FirstLine(s, i);
    FlatMapConcat(Kept, [s[..i]], Lines(s[i + 1..]));
    FlatMapOne(Kept, s[..i]);
  }

  lemma NothingKept(s: seq<byte>)
    requires LF !in s
    ensures KeptLines(s) == [] && Rest(s) == s
  {
    UnbrokenLine(s);
  }

  lemma KeptConcat(a: seq<byte>, b: seq<byte>)
    ensures KeptLines(a + b) == KeptLines(a) + KeptLines(Rest(a) + b)
  {
    hide Lines, Rest, Kept;
    LinesConcat(a, b);
    FlatMapConcat(Kept, Lines(a), Lines(Rest(a) + b));
  }

  lemma AllConcat(a: seq<byte>, b: seq<byte>)
    ensures AllLines(a + b) == KeptLines(a) + AllLines(Rest(a) + b)
  {
    hide KeptLines, Rest, Kept;
    KeptConcat(a, b);
    LinesConcat(a, b);
  }

  // ----- nothing is lost -----

  function TextStep(): (seq<byte>, seq<byte>) -> Step<seq<byte>, seq<byte>> {
    (buf: seq<byte>, chunk: seq<byte>) => OnText(buf, chunk)
  }

  // The text up to and including its last newline.
  function Finished(s: seq<byte>): seq<byte> {
    s[..|s| - |Rest(s)|]
  }

  lemma FinishedFirst(s: seq<byte>, i: nat)
    requires i < |s| && i == FindNewline(s)
    ensures var f, tail := Finished(s), s[i + 1..];
            && f == s[..i + 1] + Finished(tail)
            && Lines(f) == [s[..i]] + Lines(Finished(tail)) && Rest(f) == Rest(Finished(tail))
  {
    hide Rest, Lines;
    var f, tail := Finished(s), s[i + 1..];
    FirstLine(s, i);
    assert f == s[..i + 1] + Finished(tail);
    assert f[..i] == s[..i] && f[i + 1..] == Finished(tail);
    FirstLine(f, i);
  }

  lemma {:induction false} FinishedLines(s: seq<byte>)
    ensures s == Finished(s) + Rest(s)
    ensures Rest(Finished(s)) == [] && Lines(Finished(s)) == Lines(s)
  {
    hide Rest, Lines;
    var i := FindNewline(s);
    if i < |s| {
      FinishedLines(s[i + 1..]);
      FirstLine(s, i);
      FinishedFirst(s, i);
    } else {
      UnbrokenLine(s);
      UnbrokenLine([]);
      assert Finished(s) == [];
    }
  }

  // The consumed part of the input: whole lines, all emitted. The rest is in the buffer.
  lemma {:induction false} Consumed(chunks: seq<seq<byte>>) returns (p: seq<byte>)
    ensures var t := Run(TextStep(), [], chunks);
            p + t.state == FlatMap(AsIs, chunks) && Rest(p) == [] && t.events == KeptLines(p)
  {
    hide OnText, KeptLines, Rest;
    if chunks == [] {
      p := [];
      NothingKept([]);
    } else {
      var before, chunk := chunks[..|chunks| - 1], chunks[|chunks| - 1];
      var q := Consumed(before);
      var t := Run(TextStep(), [], before);
      var more := ConsumesMore(t.state, chunk);
      p := q + more;
      KeptConcat(q, more);
      LinesConcat(q, more);
      assert [] + more == more;
      var u := OnText(t.state, chunk).state;
      assert q + more + u == q + (more + u) && q + (t.state + chunk) == q + t.state + chunk;
    }
  }

  lemma ConsumesMore(buf: seq<byte>, chunk: seq<byte>) returns (p: seq<byte>)
    ensures var t := OnText(buf, chunk);
            p + t.state == buf + chunk && Rest(p) == [] && t.events == KeptLines(p)
  {
    hide Rest, Lines;
    var text := buf + chunk;
    var cut := if |text| > MAX_LINE_BUFFER then CutAt(text, MAX_LINE_BUFFER) else |text|;
    var head := text[..cut];
    FinishedLines(head);
    p := Finished(head);
    assert p + (Rest(head) + text[cut..]) == p + Rest(head) + text[cut..];
    assert head + text[cut..] == text;
  }

  // For every run, the overflow branch included: the lines emitted, followed by the
  // non-empty lines left in the buffer, are the non-empty lines of everything that came in.
  lemma NoLineIsLost(chunks: seq<seq<byte>>)
    ensures var t := Run(TextStep(), [], chunks);
            t.events + AllLines(t.state) == AllLines(FlatMap(AsIs, chunks))
  {
    hide KeptLines, Rest, Run, OnText;
    var p := Consumed(chunks);
    var t := Run(TextStep(), [], chunks);
    AllConcat(p, t.state);
    assert [] + t.state == t.state;
  }

  // ----- what is emitted -----

  // A line as it is written, with any number of carriage returns at its end.
  datatype Written = Written(line: seq<byte>, crs: nat)

  predicate AllWritten(ws: seq<Written>) {
    forall w :: w in ws ==> OneLine(w.line)
  }

  function TextOf(w: Written): seq<byte> {
    w.line + Returns(w.crs) + ['\n' as byte]
  }

  function NonEmpty(w: Written): seq<seq<byte>> {
    if w.line == [] then [] else [w.line]
  }

  lemma WrittenIsKept(w: Written)
    requires OneLine(w.line)
    ensures KeptLines(TextOf(w)) == NonEmpty(w) && Rest(TextOf(w)) == []
    ensures Kept(w.line + Returns(w.crs)) == NonEmpty(w) && LF !in w.line + Returns(w.crs)
  {
    hide Lines, Rest, TrimCr;
    var s := w.line + Returns(w.crs);
    assert LF !in s;
    LineIsLine(s);
    TrimsReturns(w.line, w.crs);
    FlatMapOne(Kept, s);
  }

  lemma {:induction false} WrittenAreKept(ws: seq<Written>)
    requires AllWritten(ws)
    ensures KeptLines(FlatMap(TextOf, ws)) == FlatMap(NonEmpty, ws) && Rest(FlatMap(TextOf, ws)) == []
  {
    hide KeptLines, Rest, TextOf, NonEmpty;
    if ws == [] {
      NothingKept([]);
    } else {
      var before, w := ws[..|ws| - 1], ws[|ws| - 1];
      assert w in ws && forall x :: x in before ==> x in ws;
      WrittenAreKept(before);
      WrittenIsKept(w);
      KeptConcat(FlatMap(TextOf, before), TextOf(w));
      LinesConcat(FlatMap(TextOf, before), TextOf(w));
      assert [] + TextOf(w) == TextOf(w);
    }
  }

  // No chunk, together with the unfinished line before it, exceeds the cap.
  ghost predicate Fits(chunks: seq<seq<byte>>) {
    forall i :: 0 <= i < |chunks| ==> |Rest(FlatMap(AsIs, chunks[..i]))| + |chunks[i]| <= 1_048_576
  }

  lemma FitsBefore(chunks: seq<seq<byte>>)
    requires Fits(chunks) && chunks != []
    ensures Fits(chunks[..|chunks| - 1])
    ensures |Rest(FlatMap(AsIs, chunks[..|chunks| - 1])) + chunks[|chunks| - 1]| <= MAX_LINE_BUFFER
  {
    hide Rest, FlatMap;
    var before := chunks[..|chunks| - 1];
    assert forall i :: 0 <= i < |before| ==> before[..i] == chunks[..i] && before[i] == chunks[i];
  }

  lemma {:induction false} EmitsAtOnce(chunks: seq<seq<byte>>)
    requires Fits(chunks)
    ensures var whole := FlatMap(AsIs, chunks);
            Run(TextStep(), [], chunks) == Step(Rest(whole), KeptLines(whole))
  {
    hide Fits, KeptLines, Rest, CutAt;
    if chunks == [] {
      NothingKept([]);
    } else {
      var before, chunk := chunks[..|chunks| - 1], chunks[|chunks| - 1];
      FitsBefore(chunks);
      EmitsAtOnce(before);
      var whole := FlatMap(AsIs, before);
      KeptConcat(whole, chunk);
      LinesConcat(whole, chunk);
      var text := Rest(whole) + chunk;
      assert text[..|text|] == text && Rest(text) + text[|text|..] == Rest(text);
    }
  }

  // Written lines come out as soon as they are complete, the empty ones left out, however
  // the text is cut, while it fits; the unfinished line stays.
  lemma EmitsTheLines(ws: seq<Written>, tail: seq<byte>, chunks: seq<seq<byte>>)
    requires AllWritten(ws) && '\n' as byte !in tail
    requires FlatMap(AsIs, chunks) == FlatMap(TextOf, ws) + tail && Fits(chunks)
    ensures Run(TextStep(), [], chunks) == Step(tail, FlatMap(NonEmpty, ws))
  {
    hide Fits, KeptLines, Rest, AllWritten, TextOf, NonEmpty, Run, FlatMap;
    EmitsAtOnce(chunks);
    WrittenAreKept(ws);
    KeptConcat(FlatMap(TextOf, ws), tail);
    LinesConcat(FlatMap(TextOf, ws), tail);
    NothingKept(tail);
    assert [] + tail == tail && FlatMap(NonEmpty, ws) + [] == FlatMap(NonEmpty, ws);
  }

  // Whether it fits or not, what has come out and what is left are the lines written, empty
  // ones left out, once each and in order.
  lemma EveryLineOnce(ws: seq<Written>, last: Written, chunks: seq<seq<byte>>)
    requires AllWritten(ws) && OneLine(last.line)
    requires FlatMap(AsIs, chunks) == FlatMap(TextOf, ws) + (last.line + Returns(last.crs))
    ensures var t := Run(TextStep(), [], chunks);
            t.events + AllLines(t.state) == FlatMap(NonEmpty, ws) + NonEmpty(last)
  {
    hide KeptLines, Rest, AllWritten, TextOf, NonEmpty, Run, FlatMap, Kept;
    var tail := last.line + Returns(last.crs);
    NoLineIsLost(chunks);
    WrittenAreKept(ws);
    WrittenIsKept(last);
    AllConcat(FlatMap(TextOf, ws), tail);
    NothingKept(tail);
    assert [] + tail == tail && [] + Kept(tail) == Kept(tail);
  }

  // ----- the cap -----

  // An unterminated line is not bounded by the cap: all of it stays in the buffer.
  lemma {:induction false} UnterminatedLineGrows(chunks: seq<seq<byte>>)
    requires LF !in FlatMap(AsIs, chunks)
    ensures Run(TextStep(), [], chunks) == Step(FlatMap(AsIs, chunks), [])
  {
    hide Rest, KeptLines, CutAt;
    if chunks != [] {
      var before, chunk := chunks[..|chunks| - 1], chunks[|chunks| - 1];
      UnterminatedLineGrows(before);
      var text := FlatMap(AsIs, before) + chunk;
      var cut := if |text| > MAX_LINE_BUFFER then CutAt(text, MAX_LINE_BUFFER) else |text|;
      assert LF !in text[..cut] && text[..cut] + text[cut..] == text;
      NothingKept(text[..cut]);
    }
  }

  // How long the rest of a text is: as far as its last newline is from its end.
  lemma {:induction false} RestReaches(s: seq<byte>)
    ensures forall p :: 0 <= p < |s| && s[p] == LF ==> |Rest(s)| <= |s| - p - 1
    ensures |Rest(s)| == |s| || exists p :: 0 <= p < |s| && s[p] == LF && |Rest(s)| == |s| - p - 1
  {
    hide Rest;
    var i := FindNewline(s);
    if i < |s| {
      var tail := s[i + 1..];
      RestReaches(tail);
      FirstLine(s, i);
      forall p | 0 <= p < |s| && s[p] == LF ensures |Rest(s)| <= |s| - p - 1 {
        assert p > i ==> tail[p - i - 1] == LF;
      }
      if |Rest(tail)| != |tail| {
        var q :| 0 <= q < |tail| && tail[q] == LF && |Rest(tail)| == |tail| - q - 1;
        assert s[i + 1 + q] == LF;
      } else {
        assert s[i] == LF && |Rest(s)| == |s| - i - 1;
      }
    } else {
      UnbrokenLine(s);
    }
  }

  // The cap holds after a chunk if and only if the text fits, or a newline before the cut
  // is near enough to its end.
  lemma CapHolds(buf: seq<byte>, chunk: seq<byte>)
    ensures var text := buf + chunk;
            |OnText(buf, chunk).state| <= 1_048_576 <==>
            |text| <= 1_048_576 ||
            exists p :: |text| - 1_048_576 - 1 <= p < CutAt(text, 1_048_576) && text[p] == LF
  {
    hide Rest, KeptLines;
    var text := buf + chunk;
    if |text| > MAX_LINE_BUFFER {
      var cut := CutAt(text, MAX_LINE_BUFFER);
      var head := text[..cut];
      RestReaches(head);
      assert |OnText(buf, chunk).state| == |Rest(head)| + (|text| - cut);
      forall p | |text| - MAX_LINE_BUFFER - 1 <= p < cut && text[p] == LF ensures |Rest(head)| <= cut - p - 1 {
        assert head[p] == LF;
      }
    }
  }

  lemma BoundaryOutside(s: seq<byte>, i: nat)
    requires Valid(s) && 0 < i <= |s| && Boundary(s, i)
    ensures 0 < CharLen(s) <= i
  {
  }

  // In text, the cut falls between characters and takes at most three steps down.
  lemma {:induction false} BoundarySplits(s: seq<byte>, i: nat)
    requires Valid(s) && i <= |s| && Boundary(s, i)
    ensures Valid(s[..i]) && Valid(s[i..])
    decreases |s|
  {
    hide Valid, CharLen;
    if i == 0 {
      NothingIsValid();
      assert s[..0] == [] && s[0..] == s;
    } else {
      BoundaryOutside(s, i);
      var n := CharLen(s);
      var first, tail := s[..n], s[n..];
      FirstIsValid(s);
      assert Boundary(tail, i - n);
      BoundarySplits(tail, i - n);
      assert s[..i] == first + tail[..i - n] && tail[i - n..] == s[i..];
      BothValid(first, tail[..i - n]);
    }
  }

  lemma NothingIsValid()
    ensures Valid([])
  {
  }

  lemma BothValid(a: seq<byte>, b: seq<byte>)
    requires Valid(a) && Valid(b)
    ensures Valid(a + b)
  {
    ValidThen(a, b);
  }

  lemma FirstIsValid(s: seq<byte>)
    requires Valid(s) && CharLen(s) > 0
    ensures Valid(s[..CharLen(s)]) && Valid(s[CharLen(s)..])
  {
    var first := s[..CharLen(s)];
    assert CharLen(first) == |first| && first[|first|..] == [];
  }

  lemma {:induction false} BoundaryNearby(s: seq<byte>, i: nat) returns (j: nat)
    requires Valid(s) && i <= |s|
    ensures j <= i <= j + 3 && Boundary(s, j)
  {
    var n := CharLen(s);
    if i < n || i == 0 {
      j := 0;
    } else {
      var k := BoundaryNearby(s[n..], i - n);
      j := n + k;
      if n < |s| {
        FirstIsNotTail(s[n..]);
      }
    }
  }

  lemma FirstIsNotTail(s: seq<byte>)
    requires Valid(s) && s != []
    ensures !Tail(s[0])
  {
  }

  // The overflow branch on text: head and overflow are text, and little is cut off.
  lemma CutsBetweenCharacters(text: seq<byte>)
    requires Valid(text) && |text| > 1_048_576
    ensures var cut := CutAt(text, 1_048_576);
            Valid(text[..cut]) && Valid(text[cut..]) && 1_048_576 - 3 <= cut
  {
    hide Valid;
    BoundarySplits(text, CutAt(text, MAX_LINE_BUFFER));
    var j := BoundaryNearby(text, MAX_LINE_BUFFER);
  }
}
