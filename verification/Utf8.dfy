// UTF-8 as RFC 3629 defines it, and the three library functions the byte stream relies on:
// the length of the valid prefix, the length of the error after it, and lossy decoding.
module Utf8 {
  import opened Bytes
  import opened Wrappers

  // A Unicode scalar value: a code point that is not a surrogate.
  predicate IsScalar(c: int) {
    0 <= c < 0x11_0000 && !(0xD800 <= c < 0xE000)
  }

  // ----- section 3 of RFC 3629: the encoding of a scalar value -----

  function Encode(c: int): seq<byte>
    requires IsScalar(c)
  {
    if c < 0x80 then [c]
    else if c < 0x800 then [0xC0 + c / 64, 0x80 + c % 64]
    else if c < 0x1_0000 then [0xE0 + c / 4096, 0x80 + c / 64 % 64, 0x80 + c % 64]
    else [0xF0 + c / 262144, 0x80 + c / 4096 % 64, 0x80 + c / 64 % 64, 0x80 + c % 64]
  }

  // ----- section 4 of RFC 3629: the syntax of byte sequences -----

  predicate Tail(b: byte) {
    0x80 <= b <= 0xBF
  }

  // How many octets a character with this first octet has; 0 for an octet that starts none.
  function Width(first: byte): nat {
    if first <= 0x7F then 1
    else if 0xC2 <= first <= 0xDF then 2
    else if 0xE0 <= first <= 0xEF then 3
    else if 0xF0 <= first <= 0xF4 then 4
    else 0
  }

  predicate SecondFits(first: byte, second: byte) {
    if first == 0xE0 then 0xA0 <= second <= 0xBF
    else if first == 0xED then 0x80 <= second <= 0x9F
    else if first == 0xF0 then 0x90 <= second <= 0xBF
    else if first == 0xF4 then 0x80 <= second <= 0x8F
    else Tail(second)
  }

  // The length of the character at the start of `s`, or 0 if there is none.
  function CharLen(s: seq<byte>): nat {
    if s == [] || Width(s[0]) == 0 || |s| < Width(s[0]) then 0
    else
      var n := Width(s[0]);
      if (n >= 2 ==> SecondFits(s[0], s[1])) && (n >= 3 ==> Tail(s[2])) && (n >= 4 ==> Tail(s[3])) then n else 0
  }

  // `Utf8Error::valid_up_to`, or the whole length of valid text.
  function ValidUpTo(s: seq<byte>): (n: nat)
    ensures n <= |s|
  {
    var n := CharLen(s);
    if n == 0 then 0 else n + ValidUpTo(s[n..])
  }

  predicate Valid(s: seq<byte>) {
    ValidUpTo(s) == |s|
  }

  // `Utf8Error::error_len` at the start of `s`: None when the input ends inside a character
  // that could still be completed.
  function ErrorLen(s: seq<byte>): (r: Option<nat>)
    requires s != [] && CharLen(s) == 0
    ensures r.Some? ==> 1 <= r.value <= 3 && r.value <= |s|
    ensures r.None? ==> |s| <= 3
  {
    if Width(s[0]) == 0 then Some(1)
    else if |s| == 1 then None
    else if !SecondFits(s[0], s[1]) then Some(1)
    else if |s| == 2 then None
    else if !Tail(s[2]) then Some(2)
    else if |s| == 3 then None
    else Some(3)
  }

  // U+FFFD REPLACEMENT CHARACTER.
  const REPLACEMENT: seq<byte> := [0xEF, 0xBF, 0xBD]

  // `String::from_utf8_lossy`: one replacement character per error.
  function Lossy(s: seq<byte>): seq<byte> {
    if s == [] then []
    else if CharLen(s) > 0 then s[..CharLen(s)] + Lossy(s[CharLen(s)..])
    else
      var e := ErrorLen(s);
      if e.None? then REPLACEMENT else REPLACEMENT + Lossy(s[e.value..])
  }

  // ----- the syntax of section 4 is the image of the encoding of section 3 -----

  lemma EncodingsAreCharacters(c: int)
    requires IsScalar(c)
    ensures CharLen(Encode(c)) == |Encode(c)| > 0
  {
    var s := Encode(c);
    if c < 0x80 {
      assert Width(s[0]) == 1;
    } else if c < 0x800 {
      assert Width(s[0]) == 2;
    } else if c < 0x1_0000 {
      assert Width(s[0]) == 3;
    } else {
      assert Width(s[0]) == 4;
    }
  }

  function Decode(s: seq<byte>): int
    requires CharLen(s) > 0
  {
    var first: int := s[0];
    match CharLen(s)
    case 1 => first
    case 2 => (first - 0xC0) * 64 + Bits(s[1])
    case 3 => (first - 0xE0) * 4096 + Bits(s[1]) * 64 + Bits(s[2])
    case _ => (first - 0xF0) * 262144 + Bits(s[1]) * 4096 + Bits(s[2]) * 64 + Bits(s[3])
  }

  // The six bits a continuation octet carries.
  function Bits(b: byte): int {
    b - 0x80
  }

  lemma Digits(a: int, b: int, c: int, d: int)
    requires 0 <= b < 64 && 0 <= c < 64 && 0 <= d < 64
    ensures (a * 64 + b) / 64 == a && (a * 64 + b) % 64 == b
    ensures (a * 4096 + b * 64 + c) / 4096 == a && (a * 4096 + b * 64 + c) / 64 == a * 64 + b
    ensures (a * 4096 + b * 64 + c) % 64 == c
    ensures var v := a * 262144 + b * 4096 + c * 64 + d;
            v / 262144 == a && v / 4096 == a * 64 + b && v / 64 == a * 4096 + b * 64 + c && v % 64 == d
    ensures (a * 4096 + b * 64 + c) / 64 % 64 == b
  {
  }

  lemma TwoOctets(s: seq<byte>)
    requires CharLen(s) == 2
    ensures IsScalar(Decode(s)) && Encode(Decode(s)) == s[..2]
  {
    Digits(s[0] - 0xC0, Bits(s[1]), 0, 0);
  }

  lemma ThreeOctets(s: seq<byte>)
    requires CharLen(s) == 3
    ensures IsScalar(Decode(s)) && Encode(Decode(s)) == s[..3]
  {
    Digits(s[0] - 0xE0, Bits(s[1]), Bits(s[2]), 0);
  }

  lemma FourOctets(s: seq<byte>)
    requires CharLen(s) == 4
    ensures IsScalar(Decode(s)) && Encode(Decode(s)) == s[..4]
  {
    var a, b, c, d := s[0] - 0xF0, Bits(s[1]), Bits(s[2]), Bits(s[3]);
    Digits(a, b, c, d);
    assert (a * 64 + b) % 64 == b && (a * 4096 + b * 64 + c) % 64 == c;
  }

  lemma CharactersAreEncodings(s: seq<byte>)
    requires CharLen(s) > 0
    ensures IsScalar(Decode(s)) && Encode(Decode(s)) == s[..CharLen(s)]
  {
    assert CharLen(s) <= 4;
    if CharLen(s) == 2 {
      TwoOctets(s);
    } else if CharLen(s) == 3 {
      ThreeOctets(s);
    } else if CharLen(s) == 4 {
      FourOctets(s);
    }
  }

  function EncodeAll(cs: seq<int>): seq<byte>
    requires forall c :: c in cs ==> IsScalar(c)
  {
    if cs == [] then [] else Encode(cs[0]) + EncodeAll(cs[1..])
  }

  // ----- valid prefixes -----

  // A character at the start does not depend on what follows it.
  lemma CharLenPrefix(s: seq<byte>, t: seq<byte>)
    requires CharLen(s) > 0
    ensures CharLen(s + t) == CharLen(s)
  {
  }

  lemma {:induction false} ValidThen(s: seq<byte>, t: seq<byte>)
    requires Valid(s)
    ensures ValidUpTo(s + t) == |s| + ValidUpTo(t)
  {
    if s == [] {
      assert s + t == t;
    } else {
      var n := CharLen(s);
      CharLenPrefix(s, t);
      assert (s + t)[n..] == s[n..] + t;
      ValidThen(s[n..], t);
    }
  }

  lemma {:induction false} ValidPrefix(s: seq<byte>)
    ensures Valid(s[..ValidUpTo(s)])
  {
    var n := CharLen(s);
    if n > 0 {
      ValidPrefix(s[n..]);
      var rest := s[n..][..ValidUpTo(s[n..])];
      assert s[..ValidUpTo(s)] == s[..n] + rest;
      assert CharLen(s[..n]) == n;
      assert ValidUpTo(s[..n]) == n + ValidUpTo(s[..n][n..]);
      ValidThen(s[..n], rest);
    }
  }

  // No valid prefix is longer.
  lemma {:induction false} LongestPrefix(s: seq<byte>, n: nat)
    requires n <= |s| && Valid(s[..n])
    ensures n <= ValidUpTo(s)
  {
    assert s == s[..n] + s[n..];
    ValidThen(s[..n], s[n..]);
  }

  // After the valid prefix there is nothing, or an error.
  lemma {:induction false} ErrorAfterPrefix(s: seq<byte>)
    ensures CharLen(s[ValidUpTo(s)..]) == 0
  {
    var n := CharLen(s);
    if n > 0 {
      ErrorAfterPrefix(s[n..]);
      assert s[n..][ValidUpTo(s[n..])..] == s[ValidUpTo(s)..];
    } else {
      assert s[0..] == s;
    }
  }

  // Valid text is exactly what encodes a sequence of scalar values.
  lemma {:induction false} ValidMeansEncoded(s: seq<byte>)
    ensures Valid(s) <==> exists cs: seq<int> :: (forall c :: c in cs ==> IsScalar(c)) && EncodeAll(cs) == s
  {
    if Valid(s) {
      var cs := Decoded(s);
    }
    forall cs: seq<int> | (forall c :: c in cs ==> IsScalar(c)) && EncodeAll(cs) == s
      ensures Valid(s)
    {
      EncodedIsValid(cs);
    }
  }

  lemma {:induction false} EncodedIsValid(cs: seq<int>)
    requires forall c :: c in cs ==> IsScalar(c)
    ensures Valid(EncodeAll(cs))
  {
    if cs != [] {
      EncodedIsValid(cs[1..]);
      EncodingsAreCharacters(cs[0]);
      var e := Encode(cs[0]);
      assert ValidUpTo(e) == |e| + ValidUpTo(e[|e|..]);
      ValidThen(e, EncodeAll(cs[1..]));
    }
  }

  lemma EncodeFirst(c: int, cs: seq<int>)
    requires IsScalar(c) && forall x :: x in cs ==> IsScalar(x)
    ensures (forall x :: x in [c] + cs ==> IsScalar(x)) && EncodeAll([c] + cs) == Encode(c) + EncodeAll(cs)
  {
    hide Encode;
    assert ([c] + cs)[1..] == cs;
  }

  lemma {:induction false} Decoded(s: seq<byte>) returns (cs: seq<int>)
    requires Valid(s)
    ensures (forall c :: c in cs ==> IsScalar(c)) && EncodeAll(cs) == s
  {
    hide Encode, Decode, CharLen, IsScalar, EncodeAll;
    if s == [] {
      cs := [];
      NothingEncoded();
    } else {
      var n := CharLen(s);
      CharactersAreEncodings(s);
      var rest := Decoded(s[n..]);
      EncodeFirst(Decode(s), rest);
      cs := [Decode(s)] + rest;
      assert s == s[..n] + s[n..];
    }
  }

  lemma NothingEncoded()
    ensures EncodeAll([]) == []
  {
  }

  // ----- viable input: everything so far is the start of some valid text -----

  predicate Viable(s: seq<byte>) {
    var rest := s[ValidUpTo(s)..];
    rest != [] && CharLen(rest) == 0 ==> ErrorLen(rest).None?
  }

  // Octets that complete a character that was cut short.
  function Completion(s: seq<byte>): seq<byte>
    requires s != [] && CharLen(s) == 0 && ErrorLen(s).None?
  {
    var second := if s[0] == 0xE0 then 0xA0 else if s[0] == 0xF0 then 0x90 else 0x80;
    match |s|
    case 1 => [second, 0x80, 0x80][..Width(s[0]) - 1]
    case 2 => [0x80, 0x80][..Width(s[0]) - 2]
    case _ => [0x80]
  }

  lemma CompletionCompletes(s: seq<byte>)
    requires s != [] && CharLen(s) == 0 && ErrorLen(s).None?
    ensures CharLen(s + Completion(s)) == |s + Completion(s)|
  {
    var c := Completion(s);
    var r := s + c;
    assert |r| == Width(s[0]) && r[0] == s[0];
    assert forall i :: 0 <= i < |c| && |s| + i >= 2 ==> c[i] == 0x80;
    assert r[1] == if |s| == 1 then c[0] else s[1];
    assert forall i :: 2 <= i < |r| ==> r[i] == if i < |s| then s[i] else c[i - |s|];
    hide Completion;
  }

  // A character longer than `s` that starts with `s` makes `s` an unexpected end, not an error.
  lemma CutShort(s: seq<byte>, t: seq<byte>)
    requires s != [] && CharLen(s) == 0 && CharLen(s + t) > 0
    ensures ErrorLen(s).None?
  {
  }

  lemma CompletedIsValid(rest: seq<byte>)
    requires rest != [] && CharLen(rest) == 0 && ErrorLen(rest).None?
    ensures Valid(rest + Completion(rest))
  {
    CompletionCompletes(rest);
    hide Completion, CharLen;
    var r := rest + Completion(rest);
    assert r[|r|..] == [];
  }

  lemma Regroup(a: seq<byte>, b: seq<byte>, c: seq<byte>)
    ensures (a + b) + c == a + (b + c)
  {
  }

  lemma ViableExtends(s: seq<byte>) returns (t: seq<byte>)
    requires Viable(s)
    ensures Valid(s + t)
  {
    hide CharLen, Completion;
    var n := ValidUpTo(s);
    var good, rest := s[..n], s[n..];
    ValidPrefix(s);
    ErrorAfterPrefix(s);
    t := if rest == [] then [] else Completion(rest);
    assert s == good + rest;
    Regroup(good, rest, t);
    ValidThen(good, rest + t);
    if rest != [] {
      CompletedIsValid(rest);
    }
  }

  lemma ExtensibleIsViable(s: seq<byte>, t: seq<byte>)
    requires Valid(s + t)
    ensures Viable(s)
  {
    var n := ValidUpTo(s);
    var good, rest := s[..n], s[n..];
    ValidPrefix(s);
    assert s == good + rest;
    Regroup(good, rest, t);
    ValidThen(good, rest + t);
    if rest != [] && CharLen(rest) == 0 {
      CutShort(rest, t);
    }
  }

  lemma ViableMeansExtensible(s: seq<byte>)
    ensures Viable(s) <==> exists t :: Valid(s + t)
  {
    if Viable(s) {
      var t := ViableExtends(s);
    }
    forall t | Valid(s + t)
      ensures Viable(s)
    {
      ExtensibleIsViable(s, t);
    }
  }

  // Lossy decoding of anything yields valid text.
  lemma {:induction false} LossyIsValid(s: seq<byte>)
    ensures Valid(Lossy(s))
  {
    if s != [] {
      assert CharLen(REPLACEMENT) == 3 && REPLACEMENT[3..] == [] && Valid(REPLACEMENT);
      if CharLen(s) > 0 {
        var n := CharLen(s);
        LossyIsValid(s[n..]);
        assert CharLen(s[..n]) == n && s[..n][n..] == [];
        assert Valid(s[..n]);
        ValidThen(s[..n], Lossy(s[n..]));
      } else if ErrorLen(s).Some? {
        var k := ErrorLen(s).value;
        LossyIsValid(s[k..]);
        ValidThen(REPLACEMENT, Lossy(s[k..]));
      }
    }
  }

  // ----- what lossy decoding keeps -----

  lemma LossyFirst(a: seq<byte>, b: seq<byte>)
    requires CharLen(a) > 0
    ensures Lossy(a + b) == a[..CharLen(a)] + Lossy(a[CharLen(a)..] + b)
  {
    var n := CharLen(a);
    CharLenPrefix(a, b);
    assert (a + b)[n..] == a[n..] + b && (a + b)[..n] == a[..n];
    hide CharLen, ErrorLen;
  }

  lemma {:induction false} LossyAfterValid(a: seq<byte>, b: seq<byte>)
    requires Valid(a)
    ensures Lossy(a + b) == a + Lossy(b)
  {
    hide CharLen, ErrorLen, Lossy;
    if a == [] {
      assert a + b == b;
    } else {
      var n := CharLen(a);
      LossyFirst(a, b);
      LossyAfterValid(a[n..], b);
      Regroup(a[..n], a[n..], Lossy(b));
      assert a[..n] + a[n..] == a;
    }
  }

  lemma LossyError(rest: seq<byte>)
    requires rest != [] && CharLen(rest) == 0
    ensures Lossy(rest) == Encode(0xFFFD) + if ErrorLen(rest).Some? then Lossy(rest[ErrorLen(rest).value..]) else []
  {
    ReplacementIs();
    hide CharLen, ErrorLen, Encode;
  }

  // Valid text is kept, up to the first error and after it; the error itself becomes one
  // U+FFFD, and so does a character cut short at the end.
  lemma LossyKeepsText(s: seq<byte>)
    ensures var n := ValidUpTo(s);
            var rest := s[n..];
            if rest == [] then Lossy(s) == s
            else
              && CharLen(rest) == 0
              && var e := ErrorLen(rest);
                 Lossy(s) == s[..n] + (Encode(0xFFFD) + if e.Some? then Lossy(rest[e.value..]) else [])
  {
    hide CharLen, ErrorLen, Encode, Lossy, ValidUpTo;
    var n := ValidUpTo(s);
    ValidPrefix(s);
    ErrorAfterPrefix(s);
    LossyAfterValid(s[..n], s[n..]);
    assert s == s[..n] + s[n..];
    if s[n..] == [] {
      NothingLossy();
    } else {
      LossyError(s[n..]);
    }
  }

  lemma NothingLossy()
    ensures Lossy([]) == []
  {
  }

  lemma ReplacementIs()
    ensures Encode(0xFFFD) == REPLACEMENT
  {
  }

  lemma NoCharWithin(s: seq<byte>, j: nat)
    requires CharLen(s) == 0 && j <= |s|
    ensures CharLen(s[..j]) == 0
  {
    assert s[..j] + s[j..] == s;
    if CharLen(s[..j]) > 0 {
      CharLenPrefix(s[..j], s[j..]);
    }
  }

  lemma StartIsViable(s: seq<byte>, j: nat)
    requires CharLen(s) == 0 && 0 < j <= |s|
    ensures CharLen(s[..j]) == 0 && (Viable(s[..j]) <==> ErrorLen(s[..j]).None?)
  {
    NoCharWithin(s, j);
    assert s[..j][0..] == s[..j];
    hide CharLen, ErrorLen;
  }

  // An error takes in the octets that could still have begun a character, or, if there are
  // none, one.
  lemma ErrorIsMaximal(s: seq<byte>, j: nat)
    requires s != [] && CharLen(s) == 0 && ErrorLen(s).Some? && 0 < j <= |s|
    ensures Viable(s[..j]) <==> Viable(s[..1]) && j <= ErrorLen(s).value
    ensures !Viable(s[..1]) ==> ErrorLen(s) == Some(1)
  {
    StartIsViable(s, j);
    StartIsViable(s, 1);
    hide Viable;
  }
}
