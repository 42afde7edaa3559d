// Lines of UTF-8 text, kept as bytes: splitting at newlines, and the trimming the stream
// readers do.
module Text {
  import opened Bytes

  const LF: byte := 0x0A
  const CR: byte := 0x0D

  // The position of the first newline, or the length.
  function FindNewline(s: seq<byte>): (i: nat)
    ensures i <= |s| && (forall k :: 0 <= k < i ==> s[k] != LF) && (i < |s| ==> s[i] == LF)
  {
    if s == [] || s[0] == LF then 0 else 1 + FindNewline(s[1..])
  }

  // The complete lines of `s`, without their newlines, and what follows the last newline.
  function Lines(s: seq<byte>): seq<seq<byte>> {
    var i := FindNewline(s);
    if i == |s| then [] else [s[..i]] + Lines(s[i + 1..])
  }

  function Rest(s: seq<byte>): (r: seq<byte>)
    ensures |r| <= |s|
  {
    var i := FindNewline(s);
    if i == |s| then s else Rest(s[i + 1..])
  }

  lemma FindNewlineIs(s: seq<byte>, i: nat)
    requires i < |s| && s[i] == LF && forall k :: 0 <= k < i ==> s[k] != LF
    ensures FindNewline(s) == i
  {
    var j := FindNewline(s);
    assert s[i] == LF;
  }

  lemma NewlineFound(s: seq<byte>)
    requires LF in s
    ensures FindNewline(s) < |s|
  {
  }

  lemma FirstLine(s: seq<byte>, i: nat)
    requires i < |s| && s[i] == LF && forall k :: 0 <= k < i ==> s[k] != LF
    ensures Lines(s) == [s[..i]] + Lines(s[i + 1..]) && Rest(s) == Rest(s[i + 1..])
  {
    FindNewlineIs(s, i);
  }

  lemma UnbrokenLine(s: seq<byte>)
    requires LF !in s
    ensures FindNewline(s) == |s| && Lines(s) == [] && Rest(s) == s
  {
  }

  // Splitting in two steps is splitting at once: the rest of the first part is completed by
  // the second.
  lemma {:induction false} LinesConcat(a: seq<byte>, b: seq<byte>)
    ensures Lines(a + b) == Lines(a) + Lines(Rest(a) + b)
    ensures Rest(a + b) == Rest(Rest(a) + b)
  {
    hide Lines, Rest, FindNewline;
    var i := FindNewline(a);
    if i < |a| {
      var tail := a[i + 1..];
      assert (a + b)[..i] == a[..i] && (a + b)[i] == LF && (a + b)[i + 1..] == tail + b;
      assert forall k :: 0 <= k < i ==> (a + b)[k] == a[k];
      FirstLine(a, i);
      FirstLine(a + b, i);
      LinesConcat(tail, b);
      assert [a[..i]] + (Lines(tail) + Lines(Rest(tail) + b)) == [a[..i]] + Lines(tail) + Lines(Rest(tail) + b);
    } else {
      UnbrokenLine(a);
      assert [] + Lines(a + b) == Lines(a + b);
    }
  }

  lemma {:induction false} RestHasNoNewline(s: seq<byte>)
    ensures LF !in Rest(s) && Lines(Rest(s)) == [] && Rest(Rest(s)) == Rest(s)
  {
    var i := FindNewline(s);
    if i < |s| {
      RestHasNoNewline(s[i + 1..]);
    } else {
      assert Rest(s) == s;
    }
  }

  // `trim_end_matches('\r')`
  function TrimCr(s: seq<byte>): seq<byte> {
    if s != [] && s[|s| - 1] == CR then TrimCr(s[..|s| - 1]) else s
  }

  // The length of the Unicode white space character at the start of `s`, or 0.
  function SpaceLen(s: seq<byte>): (n: nat)
    ensures n <= |s|
  {
    if |s| >= 1 && (0x09 <= s[0] <= 0x0D || s[0] == 0x20) then 1
    else if |s| >= 2 && s[0] == 0xC2 && (s[1] == 0x85 || s[1] == 0xA0) then 2
    else if |s| >= 3 && s[..3] == [0xE1, 0x9A, 0x80] then 3
    else if |s| >= 3 && s[..2] == [0xE2, 0x80] && (0x80 <= s[2] <= 0x8A || s[2] == 0xA8 || s[2] == 0xA9 || s[2] == 0xAF) then 3
    else if |s| >= 3 && s[..3] == [0xE2, 0x81, 0x9F] then 3
    else if |s| >= 3 && s[..3] == [0xE3, 0x80, 0x80] then 3
    else 0
  }

  function TrimStart(s: seq<byte>): seq<byte> {
    var n := SpaceLen(s);
    if n > 0 then TrimStart(s[n..]) else s
  }

  predicate EndsInSpace(s: seq<byte>, n: nat) {
    0 < n <= |s| && SpaceLen(s[|s| - n..]) == n
  }

  function TrimEnd(s: seq<byte>): seq<byte> {
    if EndsInSpace(s, 1) then TrimEnd(s[..|s| - 1])
    else if EndsInSpace(s, 2) then TrimEnd(s[..|s| - 2])
    else if EndsInSpace(s, 3) then TrimEnd(s[..|s| - 3])
    else s
  }

  // `trim`
  function Trim(s: seq<byte>): seq<byte> {
    TrimEnd(TrimStart(s))
  }

  // ----- lines as they are written -----

  function Returns(n: nat): seq<byte> {
    seq(n, i requires 0 <= i < n => '\r' as byte)
  }

  // One line's text: no newline within, and no carriage return at its end.
  predicate OneLine(s: seq<byte>) {
    '\n' as byte !in s && (s != [] ==> s[|s| - 1] != '\r' as byte)
  }

  lemma {:induction false} TrimsReturns(s: seq<byte>, n: nat)
    requires s != [] ==> s[|s| - 1] != '\r' as byte
    ensures TrimCr(s + Returns(n)) == s
  {
    if n == 0 {
      assert s + Returns(0) == s;
    } else {
      var t := s + Returns(n);
      assert t[|t| - 1] == '\r' as byte && t[..|t| - 1] == s + Returns(n - 1);
      TrimsReturns(s, n - 1);
    }
  }

  lemma LineIsLine(s: seq<byte>)
    requires '\n' as byte !in s
    ensures Lines(s + ['\n' as byte]) == [s] && Rest(s + ['\n' as byte]) == []
  {
    hide Lines, Rest, FindNewline;
    var t := s + ['\n' as byte];
    FirstLine(t, |s|);
    assert t[..|s|] == s && t[|s| + 1..] == [];
    UnbrokenLine([]);
  }
}
