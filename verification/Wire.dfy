// The wire text of an upstream stream, line by line, with its literals spelled out, and what
// the converter makes of it: however the text is cut, it runs what the lines mean.
module Wire {
  import opened Bytes
  import opened Machine
  import opened Utf8
  import opened Text
  import opened StreamConverter
  import opened Pipeline
  import C = Converter
  import E = Endings

  // ----- spelling -----

  function Ascii(s: string): seq<byte>
    requires forall i :: 0 <= i < |s| ==> s[i] < 128 as char
  {
    seq(|s|, i requires 0 <= i < |s| => s[i] as byte)
  }

  // The code points with the Unicode property White_Space.
  predicate IsWhite(c: int) {
    || 0x09 <= c <= 0x0D || c == 0x20 || c == 0x85 || c == 0xA0 || c == 0x1680
    || 0x2000 <= c <= 0x200A || c == 0x2028 || c == 0x2029 || c == 0x202F || c == 0x205F || c == 0x3000
  }

  predicate AllWhite(cs: seq<int>) {
    forall c :: c in cs ==> IsWhite(c)
  }

  // `[DONE]` between white space.
  function Framed(before: seq<int>, after: seq<int>): seq<byte>
    requires AllWhite(before) && AllWhite(after)
  {
    EncodeAll(before) + Ascii("[DONE]") + EncodeAll(after)
  }

  ghost predicate IsMarker(payload: seq<byte>) {
    exists before, after :: AllWhite(before) && AllWhite(after) && payload == Framed(before, after)
  }

  lemma FramedIsMarker(before: seq<int>, after: seq<int>)
    requires AllWhite(before) && AllWhite(after)
    ensures IsMarker(Framed(before, after))
  {
  }

  // ----- trimming removes white space and nothing else -----

  lemma WhiteIsSpace(c: int, rest: seq<byte>)
    requires IsWhite(c)
    ensures SpaceLen(Encode(c) + rest) == |Encode(c)| > 0
  {
    var s := Encode(c) + rest;
    if c < 0x80 {
      assert s[0] == c;
    } else if c < 0x800 {
      assert s[0] == 0xC2 && s[1] == c;
    } else {
      assert s[..3] == Encode(c);
      assert s[..2] == [s[0], s[1]];
    }
  }

  lemma SpaceIsWhite(s: seq<byte>) returns (c: int)
    requires SpaceLen(s) > 0
    ensures IsWhite(c) && Encode(c) == s[..SpaceLen(s)]
  {
    var n := SpaceLen(s);
    if n == 1 {
      c := s[0];
    } else if n == 2 {
      c := s[1];
    } else {
      var first: int, second: int, third: int := s[0], s[1], s[2];
      c := (first - 0xE0) * 4096 + (second - 0x80) * 64 + (third - 0x80);
      assert s[..2] == [s[0], s[1]] && s[..3] == [s[0], s[1], s[2]];
    }
  }

  lemma EncodeLast(cs: seq<int>, c: int)
    requires AllWhite(cs) && IsWhite(c)
    ensures AllWhite(cs + [c]) && EncodeAll(cs + [c]) == EncodeAll(cs) + Encode(c)
  {
    hide Encode;
    if cs != [] {
      assert (cs + [c])[1..] == cs[1..] + [c];
      EncodeLast(cs[1..], c);
    } else {
      assert [c][1..] == [];
    }
  }

  lemma TrimsFront(cs: seq<int>, rest: seq<byte>)
    requires AllWhite(cs) && SpaceLen(rest) == 0
    ensures TrimStart(EncodeAll(cs) + rest) == rest
  {
    hide Encode, SpaceLen;
    if cs == [] {
      assert EncodeAll(cs) + rest == rest;
    } else {
      var s := EncodeAll(cs) + rest;
      var n := |Encode(cs[0])|;
      assert s == Encode(cs[0]) + (EncodeAll(cs[1..]) + rest);
      WhiteIsSpace(cs[0], EncodeAll(cs[1..]) + rest);
      assert s[n..] == EncodeAll(cs[1..]) + rest;
      TrimsFront(cs[1..], rest);
    }
  }

  lemma SpaceAtEnd(s: seq<byte>, c: int)
    requires IsWhite(c)
    ensures EndsInSpace(s + Encode(c), |Encode(c)|)
    ensures forall n :: 0 < n < |Encode(c)| ==> !EndsInSpace(s + Encode(c), n)
  {
    var t, e := s + Encode(c), Encode(c);
    assert t[|t| - |e|..] == e;
    WhiteIsSpace(c, []);
    assert e + [] == e;
    if |e| >= 2 {
      assert t[|t| - 1..][0] == e[|e| - 1];
    }
    if |e| >= 3 {
      assert t[|t| - 2..][0] == e[|e| - 2];
    }
  }

  lemma TrimEndOne(s: seq<byte>, c: int)
    requires IsWhite(c)
    ensures TrimEnd(s + Encode(c)) == TrimEnd(s)
  {
    SpaceAtEnd(s, c);
    assert |Encode(c)| <= 3;
    assert (s + Encode(c))[..|s|] == s;
    hide Encode, EndsInSpace;
  }

  predicate EndsSolid(s: seq<byte>) {
    !EndsInSpace(s, 1) && !EndsInSpace(s, 2) && !EndsInSpace(s, 3)
  }

  lemma {:induction false} TrimsBack(s: seq<byte>, cs: seq<int>)
    requires AllWhite(cs) && EndsSolid(s)
    ensures TrimEnd(s + EncodeAll(cs)) == s
  {
    hide Encode, EndsInSpace;
    if cs == [] {
      assert s + EncodeAll(cs) == s;
    } else {
      var before, c := cs[..|cs| - 1], cs[|cs| - 1];
      assert c in cs && before + [c] == cs;
      EncodeLast(before, c);
      assert s + (EncodeAll(before) + Encode(c)) == s + EncodeAll(before) + Encode(c);
      TrimEndOne(s + EncodeAll(before), c);
      TrimsBack(s, before);
    }
  }

  // Trimming splits off white space.
  lemma {:induction false} FrontWas(s: seq<byte>) returns (cs: seq<int>)
    ensures AllWhite(cs) && s == EncodeAll(cs) + TrimStart(s)
  {
    hide Encode, SpaceLen;
    var n := SpaceLen(s);
    if n == 0 {
      cs := [];
      assert s == [] + s;
    } else {
      var c := SpaceIsWhite(s);
      var rest := FrontWas(s[n..]);
      cs := [c] + rest;
      assert cs[1..] == rest;
      assert s == s[..n] + s[n..];
      assert EncodeAll(cs) + TrimStart(s) == Encode(c) + (EncodeAll(rest) + TrimStart(s));
    }
  }

  lemma LastSpace(s: seq<byte>) returns (most: seq<byte>, c: int)
    requires !EndsSolid(s)
    ensures IsWhite(c) && s == most + Encode(c) && TrimEnd(s) == TrimEnd(most) && |most| < |s|
  {
    hide Encode, SpaceLen;
    var n := if EndsInSpace(s, 1) then 1 else if EndsInSpace(s, 2) then 2 else 3;
    most := s[..|s| - n];
    var last := s[|s| - n..];
    c := SpaceIsWhite(last);
    assert last[..n] == last && s == most + last;
  }

  lemma {:induction false} BackWas(s: seq<byte>) returns (cs: seq<int>)
    ensures AllWhite(cs) && s == TrimEnd(s) + EncodeAll(cs)
    decreases |s|
  {
    hide Encode, SpaceLen, EncodeAll;
    if EndsSolid(s) {
      cs := [];
      NothingEncoded();
      assert s == s + [];
    } else {
      var most, c := LastSpace(s);
      var rest := BackWas(most);
      cs := rest + [c];
      EncodeLast(rest, c);
      assert TrimEnd(most) + (EncodeAll(rest) + Encode(c)) == TrimEnd(most) + EncodeAll(rest) + Encode(c);
    }
  }

  lemma MarkerIsSolid(rest: seq<byte>)
    ensures SpaceLen(Ascii("[DONE]") + rest) == 0 && EndsSolid(Ascii("[DONE]")) && Ascii("[DONE]") == DONE
  {
    var d := Ascii("[DONE]");
    assert d == DONE;
    assert (d + rest)[0] == 0x5B;
    assert d[5..] == [0x5D] && d[4..] == [0x45, 0x5D] && d[3..] == [0x4E, 0x45, 0x5D];
  }

  // The marker is recognised with any white space around it, and nothing else is.
  lemma TrimsToMarker(payload: seq<byte>)
    ensures Trim(payload) == DONE <==> IsMarker(payload)
  {
    hide EncodeAll, TrimStart, TrimEnd, EndsSolid, SpaceLen;
    forall before, after | AllWhite(before) && AllWhite(after) && payload == Framed(before, after)
      ensures Trim(payload) == DONE
    {
      var d := Ascii("[DONE]");
      MarkerIsSolid(EncodeAll(after));
      assert payload == EncodeAll(before) + (d + EncodeAll(after));
      TrimsFront(before, d + EncodeAll(after));
      TrimsBack(d, after);
    }
    if Trim(payload) == DONE {
      MarkerIsSolid([]);
      var before := FrontWas(payload);
      var after := BackWas(TrimStart(payload));
      assert payload == EncodeAll(before) + (DONE + EncodeAll(after)) == Framed(before, after);
    }
  }

  // ----- lines -----

  // One line of a stream. A plain line, blank or a comment or another field, has neither
  // prefix.
  datatype Line =
    | Record(payload: seq<byte>)
    | Marker(before: seq<int>, after: seq<int>)
    | EventName(name: seq<byte>)
    | Plain(text: seq<byte>)

  // On the wire a line ends with any number of carriage returns and a newline.
  datatype Item = Item(line: Line, crs: nat)

  function Spell(l: Line): seq<byte>
    requires l.Marker? ==> AllWhite(l.before) && AllWhite(l.after)
  {
    match l
    case Record(payload) => Ascii("data: ") + payload
    case Marker(before, after) => Ascii("data: ") + Framed(before, after)
    case EventName(name) => Ascii("event: ") + name
    case Plain(text) => text
  }

  // The line keeps to one line, its trailing carriage returns are the item's, and it is what
  // it is called.
  ghost predicate Proper(i: Item) {
    && (i.line.Marker? ==> AllWhite(i.line.before) && AllWhite(i.line.after))
    && var s := Spell(i.line);
       && OneLine(s)
       && (i.line.Record? ==> !IsMarker(i.line.payload))
       && (i.line.Plain? ==> !(Ascii("event: ") <= s) && !(Ascii("data: ") <= s))
  }

  ghost function Raw(i: Item): seq<byte>
    requires Proper(i)
  {
    Spell(i.line) + Returns(i.crs)
  }

  // What a line has the converter do.
  function Meaning(read: TextReader, l: Line): seq<C.Input> {
    match l
    case Record(payload) => if read(payload).Some? then [C.Data(C.ReadChunk(read(payload).value))] else []
    case Marker(before, after) => [C.Done]
    case EventName(name) => []
    case Plain(text) => []
  }

  lemma Prefixes()
    ensures Ascii("data: ") == DATA_PREFIX && Ascii("event: ") == EVENT_PREFIX
  {
  }

  lemma LineMeans(read: TextReader, i: Item)
    requires Proper(i)
    ensures LineInputs(read, Raw(i)) == Meaning(read, i.line)
  {
    hide TrimCr, Trim, IsMarker, Framed, C.ReadChunk;
    var s := Spell(i.line);
    TrimsReturns(s, i.crs);
    Prefixes();
    hide Ascii;
    match i.line
    case EventName(name) =>
    case Plain(text) =>
    case Record(payload) =>
      assert s[|DATA_PREFIX|..] == payload && s[0] == DATA_PREFIX[0] != EVENT_PREFIX[0];
      TrimsToMarker(payload);
    case Marker(before, after) =>
      assert s[|DATA_PREFIX|..] == Framed(before, after) && s[0] == DATA_PREFIX[0] != EVENT_PREFIX[0];
      FramedIsMarker(before, after);
      TrimsToMarker(Framed(before, after));
  }

  // ----- whole texts -----

  function Meanings(read: TextReader, items: seq<Item>): seq<C.Input> {
    FlatMap((i: Item) => Meaning(read, i.line), items)
  }

  ghost predicate AllProper(items: seq<Item>) {
    forall i :: i in items ==> Proper(i)
  }

  ghost function WireText(items: seq<Item>): seq<byte>
    requires AllProper(items)
  {
    if items == [] then []
    else
      var before, last := items[..|items| - 1], items[|items| - 1];
      WireText(before) + Raw(last) + ['\n' as byte]
  }

  lemma NoNewline(i: Item)
    requires Proper(i)
    ensures '\n' as byte !in Raw(i)
  {
    hide Spell, IsMarker;
  }

  // The text's lines are the lines spelled, and they mean what the items mean.
  lemma {:induction false} TextMeans(read: TextReader, items: seq<Item>)
    requires AllProper(items)
    ensures LinesInputs(read, Lines(WireText(items))) == Meanings(read, items)
    ensures Rest(WireText(items)) == []
  {
    hide Lines, Rest, LineInputs, Meaning, LinesInputs, Proper;
    if items == [] {
      UnbrokenLine([]);
      NoLines(read);
    } else {
      var before, last := items[..|items| - 1], items[|items| - 1];
      assert last in items && forall i :: i in before ==> i in items;
      TextMeans(read, before);
      var line := Raw(last) + ['\n' as byte];
      assert WireText(items) == WireText(before) + line;
      LinesConcat(WireText(before), line);
      assert [] + line == line;
      NoNewline(last);
      LineIsLine(Raw(last));
      LinesInputsConcat(read, Lines(WireText(before)), [Raw(last)]);
      LineMeans(read, last);
      FirstInputs(read, Raw(last), []);
      NoLines(read);
      assert [Raw(last)] + [] == [Raw(last)];
    }
  }

  // The converter on a stream's text, in pieces of any size that fit: it runs what the lines
  // mean, in order, and keeps the unfinished last line.
  lemma ConvertsTheLines(search: C.SearchOrder, read: TextReader, items: seq<Item>, tail: seq<byte>, texts: seq<seq<byte>>)
    requires AllProper(items) && '\n' as byte !in tail
    requires Whole(texts) == WireText(items) + tail && Fits(texts)
    ensures var t := Run(C.OpStep(search), C.INITIAL, C.OpsOf(Meanings(read, items)));
            Run(ConvertStep(search, read), INITIAL, texts) == Step(Buffered(t.state, tail), t.events)
  {
    hide Lines, Rest, Meaning, LinesInputs, AllProper, Fits, C.OnOp, C.OpsOf, Convert;
    TextMeans(read, items);
    LinesConcat(WireText(items), tail);
    UnbrokenLine(tail);
    assert [] + tail == tail && Lines(WireText(items)) + [] == Lines(WireText(items));
    FedAsOne(read, texts);
    ConvertRuns(search, read, INITIAL, texts);
  }

  // ----- every text is one of these -----

  lemma {:induction false} ReturnsWere(raw: seq<byte>) returns (n: nat)
    ensures raw == TrimCr(raw) + Returns(n)
    ensures TrimCr(raw) != [] ==> TrimCr(raw)[|TrimCr(raw)| - 1] != CR
  {
    if raw != [] && raw[|raw| - 1] == CR {
      n := ReturnsWere(raw[..|raw| - 1]);
      assert Returns(n + 1) == Returns(n) + [CR];
      assert raw == raw[..|raw| - 1] + [CR];
      n := n + 1;
    } else {
      n := 0;
      assert raw == raw + Returns(0);
    }
  }

  lemma LineOf(s: seq<byte>) returns (l: Line)
    requires LF !in s
    ensures l.Marker? ==> AllWhite(l.before) && AllWhite(l.after)
    ensures Spell(l) == s
    ensures l.Record? ==> !IsMarker(l.payload)
    ensures l.Plain? ==> !(Ascii("event: ") <= s) && !(Ascii("data: ") <= s)
  {
    hide IsMarker, Framed;
    Prefixes();
    if Ascii("event: ") <= s {
      l := EventName(s[7..]);
    } else if Ascii("data: ") <= s {
      var payload := s[6..];
      assert s == Ascii("data: ") + payload;
      if IsMarker(payload) {
        l := MarkerOf(payload);
      } else {
        l := Record(payload);
      }
    } else {
      l := Plain(s);
    }
  }

  lemma MarkerOf(payload: seq<byte>) returns (l: Line)
    requires IsMarker(payload)
    ensures l.Marker? && AllWhite(l.before) && AllWhite(l.after) && payload == Framed(l.before, l.after)
  {
    var before, after :| AllWhite(before) && AllWhite(after) && payload == Framed(before, after);
    l := Marker(before, after);
  }

  lemma ItemOf(raw: seq<byte>) returns (i: Item)
    requires LF !in raw
    ensures Proper(i) && Raw(i) == raw
  {
    hide Spell, IsMarker, Ascii;
    var n := ReturnsWere(raw);
    var l := LineOf(TrimCr(raw));
    i := Item(l, n);
  }

  lemma OneItemMore(items: seq<Item>, i: Item)
    requires AllProper(items) && Proper(i)
    ensures AllProper(items + [i]) && WireText(items + [i]) == WireText(items) + Raw(i) + [LF]
  {
    hide Proper;
    assert (items + [i])[..|items|] == items;
  }

  // Any text at all is complete lines of these kinds and an unfinished line.
  lemma {:induction false} EveryTextIsLines(s: seq<byte>) returns (items: seq<Item>, tail: seq<byte>)
    ensures AllProper(items) && LF !in tail && s == WireText(items) + tail
  {
    hide Proper, WireText, Raw;
    if s == [] {
      items, tail := [], [];
      assert WireText([]) == [] by { NoText(); }
    } else {
      var before, last := s[..|s| - 1], s[|s| - 1];
      items, tail := EveryTextIsLines(before);
      if last == LF {
        var i := ItemOf(tail);
        OneItemMore(items, i);
        items, tail := items + [i], [];
        assert s == before + [LF];
      } else {
        assert s == WireText(items) + (tail + [last]);
        tail := tail + [last];
      }
    }
  }

  lemma NoText()
    ensures WireText([]) == []
  {
  }

  // ----- the marker ends the message -----

  lemma {:induction false} EndingStays(xs: seq<C.Input>, ys: seq<C.Input>)
    requires E.Ending(xs).Some?
    ensures E.Ending(xs + ys) == E.Ending(xs)
  {
    if ys == [] {
      assert xs + ys == xs;
    } else {
      var zs := xs + ys;
      assert zs[..|zs| - 1] == xs + ys[..|ys| - 1];
      EndingStays(xs, ys[..|ys| - 1]);
    }
  }

  // A record among the lines that the reader accepts.
  ghost predicate Holds(read: TextReader, items: seq<Item>, i: Item) {
    i in items && i.line.Record? && read(i.line.payload).Some?
  }

  ghost predicate NoneFinishes(read: TextReader, items: seq<Item>) {
    forall i :: Holds(read, items, i) ==> C.ReadChunk(read(i.line.payload).value).finish.None?
  }

  lemma RecordIsFed(read: TextReader, items: seq<Item>)
    ensures E.HasRecord(Meanings(read, items)) <==> exists i :: Holds(read, items, i)
    ensures NoneFinishes(read, items) ==>
              forall x :: x in Meanings(read, items) && x.Data? ==> x.chunk.finish.None?
  {
    hide C.ReadChunk;
    var f := (i: Item) => Meaning(read, i.line);
    var inputs := Meanings(read, items);
    forall x: C.Input ensures x in inputs <==> exists i :: i in items && x in f(i) {
      InFlatMap(f, items, x);
    }
    forall i | Holds(read, items, i) ensures E.HasRecord(inputs) {
      var x := C.Data(C.ReadChunk(read(i.line.payload).value));
      assert x in f(i) && x in inputs;
      var k :| 0 <= k < |inputs| && inputs[k] == x;
    }
    if E.HasRecord(inputs) {
      var k :| 0 <= k < |inputs| && inputs[k].Data?;
      assert inputs[k] in inputs;
      var i :| i in items && inputs[k] in f(i);
      assert Holds(read, items, i);
    }
  }

  lemma {:induction false} EndsWithStop(xs: seq<C.Input>)
    requires forall x :: x in xs && x.Data? ==> x.chunk.finish.None?
    ensures E.Ending(xs).Some? ==> E.Ending(xs).value == "stop"
  {
    if xs != [] {
      assert xs[|xs| - 1] in xs;
      EndsWithStop(xs[..|xs| - 1]);
    }
  }

  lemma MeaningsSplit(read: TextReader, before: seq<Item>, m: Item, after: seq<Item>)
    requires m.line.Marker?
    ensures Meanings(read, before + [m] + after) == Meanings(read, before) + [C.Done] + Meanings(read, after)
  {
    var f := (i: Item) => Meaning(read, i.line);
    FlatMapConcat(f, before + [m], after);
    FlatMapConcat(f, before, [m]);
    FlatMapOne(f, m);
  }

  lemma MarkerIsEnding(read: TextReader, before: seq<Item>, m: Item, after: seq<Item>)
    requires m.line.Marker? && exists i :: Holds(read, before, i)
    ensures E.Ending(Meanings(read, before + [m] + after)).Some?
    ensures NoneFinishes(read, before) ==> E.Ending(Meanings(read, before + [m] + after)).value == "stop"
  {
    hide Holds, Meanings, E.HasRecord, NoneFinishes;
    var xs := Meanings(read, before);
    MeaningsSplit(read, before, m, after);
    RecordIsFed(read, before);
    assert (xs + [C.Done])[..|xs|] == xs;
    if NoneFinishes(read, before) {
      EndsWithStop(xs);
    }
    EndingStays(xs + [C.Done], Meanings(read, after));
  }

  // After a record has been read, the marker ends the message, wherever it stands and
  // however the text is cut; with "end_turn", unless a record before it gave another reason.
  lemma MarkerCloses(search: C.SearchOrder, read: TextReader, before: seq<Item>, m: Item, after: seq<Item>,
                     tail: seq<byte>, texts: seq<seq<byte>>)
    requires AllProper(before + [m] + after) && '\n' as byte !in tail && m.line.Marker?
    requires exists i :: Holds(read, before, i)
    requires Whole(texts) == WireText(before + [m] + after) + tail && Fits(texts)
    ensures var t := Run(ConvertStep(search, read), INITIAL, texts);
            && t.state.state.ended && |FlatMap(E.Reported, t.events)| == 1
            && (NoneFinishes(read, before) ==> FlatMap(E.Reported, t.events) == ["end_turn"])
  {
    hide Holds, NoneFinishes, Meanings, AllProper, Fits, Convert, C.OnOp, C.OpsOf, Run, FlatMap, E.Ending, E.HasRecord;
    ConvertsTheLines(search, read, before + [m] + after, tail, texts);
    MarkerIsEnding(read, before, m, after);
    E.ReportsItsEnding(search, Meanings(read, before + [m] + after));
  }
}
