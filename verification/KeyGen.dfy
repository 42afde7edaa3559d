// The generated API key: two random UUIDs in base 62, and how long that comes out.
module KeyGen {
  import opened Bytes

  const ALPHABET: string := "abcdefghijklmnopqrstuvwxyz" + "ABCDEFGHIJKLMNOPQRSTUVWXYZ" + "0123456789"

  // `u128::from_be_bytes`
  function FromBytes(bytes: seq<byte>): nat {
    if bytes == [] then 0 else FromBytes(bytes[..|bytes| - 1]) * 256 + bytes[|bytes| - 1]
  }

  // Section 5.4 of RFC 9562: version 4 in the high bits of octet 6, variant 10 in octet 8.
  predicate IsVersion4(bytes: seq<byte>) {
    |bytes| == 16 && 0x40 <= bytes[6] <= 0x4F && 0x80 <= bytes[8] <= 0xBF
  }

  // The base-62 digits of a number, least significant first; none for zero.
  function Digits(n: nat): string {
    if n == 0 then "" else [ALPHABET[n % 62]] + Digits(n / 62)
  }

  function Take(s: string, n: nat): string {
    if |s| <= n then s else s[..n]
  }

  const PREFIX: string := "apr_"

  function Key(uuid1: seq<byte>, uuid2: seq<byte>): string {
    var head := PREFIX + Digits(FromBytes(uuid1));
    head + if |head| >= 36 then "" else Take(Digits(FromBytes(uuid2)), 36 - |head|)
  }

  method GenerateApiKey(uuid1: seq<byte>, uuid2: seq<byte>) returns (result: string)
    ensures result == Key(uuid1, uuid2)
  {
    result := PREFIX;
    var num1 := FromBytes(uuid1);
    while num1 > 0
      invariant result + Digits(num1) == PREFIX + Digits(FromBytes(uuid1))
    {
      result := result + [ALPHABET[num1 % 62]];
      num1 := num1 / 62;
    }
    assert result + "" == result;
    ghost var head := result;
    var num2 := FromBytes(uuid2);
    assert head + Digits(num2) == result + Digits(num2);
    while |result| < 36 && num2 > 0
      invariant result + Digits(num2) == head + Digits(FromBytes(uuid2))
      invariant |head| <= |result| && (|result| <= 36 || result == head)
      decreases num2
    {
      result := result + [ALPHABET[num2 % 62]];
      num2 := num2 / 62;
    }
    var rest := Digits(FromBytes(uuid2));
    assert result == head + rest[..|result| - |head|] by {
      assert |result| <= |head + rest|;
      assert result == (head + rest)[..|result|];
    }
  }

  // ----- how long a key is -----

  function Pow62(k: nat): (p: nat)
    ensures p >= 1
  {
    if k == 0 then 1 else 62 * Pow62(k - 1)
  }

  // A number has more than k digits exactly when it is at least 62 to the k.
  lemma {:induction false} DigitCount(n: nat, k: nat)
    ensures |Digits(n)| > k <==> n >= Pow62(k)
  {
    if n > 0 && k > 0 {
      DigitCount(n / 62, k - 1);
      Quotient(n, Pow62(k - 1));
    }
  }

  lemma Quotient(n: nat, p: nat)
    ensures n / 62 >= p <==> n >= 62 * p
  {
  }

  lemma Powers()
    ensures Pow62(13) == 200028539268669788905472
    ensures Pow62(22) == 2707803647802660400290261537185326956544
  {
    assert Pow62(4) == 14776336;
    assert Pow62(8) == 218340105584896;
    assert Pow62(13) == 62 * 62 * 62 * 62 * 62 * Pow62(8);
    assert Pow62(18) == 62 * 62 * 62 * 62 * 62 * Pow62(13);
    assert Pow62(22) == 62 * 62 * 62 * 62 * Pow62(18);
  }

  function Pow256(k: nat): nat {
    if k == 0 then 1 else 256 * Pow256(k - 1)
  }

  lemma {:induction false} BytesBelow(bytes: seq<byte>)
    ensures FromBytes(bytes) < Pow256(|bytes|)
  {
    if bytes != [] {
      BytesBelow(bytes[..|bytes| - 1]);
    }
  }

  // A non-zero octet weighs at least its value at its place.
  lemma {:induction false} BytesAbove(bytes: seq<byte>, i: nat)
    requires i < |bytes|
    ensures FromBytes(bytes) >= bytes[i] * Pow256(|bytes| - 1 - i)
  {
    if i < |bytes| - 1 {
      BytesAbove(bytes[..|bytes| - 1], i);
      var p := Pow256(|bytes| - 2 - i);
      assert Pow256(|bytes| - 1 - i) == 256 * p;
      assert bytes[i] * (256 * p) == bytes[i] * p * 256;
    }
  }

  lemma Powers256()
    ensures Pow256(9) == 4722366482869645213696
    ensures Pow256(16) == 340282366920938463463374607431768211456
  {
    assert Pow256(4) == 4294967296;
    assert Pow256(9) == 256 * 256 * 256 * 256 * 256 * Pow256(4);
    assert Pow256(13) == 256 * 256 * 256 * 256 * Pow256(9);
    assert Pow256(16) == 256 * 256 * 256 * Pow256(13);
  }

  // The fixed bits of a version-4 UUID make it long enough, its 128 bits keep it short.
  lemma UuidDigits(uuid: seq<byte>)
    requires IsVersion4(uuid)
    ensures 14 <= |Digits(FromBytes(uuid))| <= 22
  {
    Powers();
    Powers256();
    BytesBelow(uuid);
    BytesAbove(uuid, 6);
    DigitCount(FromBytes(uuid), 13);
    DigitCount(FromBytes(uuid), 22);
    hide Digits, FromBytes, Pow62, Pow256;
    var octet: int := uuid[6];
    assert octet * 4722366482869645213696 >= 0x40 * 4722366482869645213696;
  }

  // Every generated key has 32 to 36 characters, so it meets the validator's minimum of 32.
  lemma KeyLength(uuid1: seq<byte>, uuid2: seq<byte>)
    requires IsVersion4(uuid1) && IsVersion4(uuid2)
    ensures 32 <= |Key(uuid1, uuid2)| <= 36
  {
    UuidDigits(uuid1);
    UuidDigits(uuid2);
    hide Digits, FromBytes;
  }

  // ----- how varied it is -----

  // The number whose k digits are all "7", the sixtieth of the alphabet.
  function AllSeven(k: nat): nat {
    if k == 0 then 0 else AllSeven(k - 1) * 62 + 59
  }

  function Sevens(k: nat): string {
    seq(k, _ => '7')
  }

  lemma OneDigitMore(n: nat, d: nat)
    requires 0 < d < 62
    ensures Digits(n * 62 + d) == [ALPHABET[d]] + Digits(n)
  {
    assert (n * 62 + d) % 62 == d && (n * 62 + d) / 62 == n;
  }

  lemma {:induction false} AllSevenDigits(k: nat)
    ensures Digits(AllSeven(k)) == Sevens(k)
  {
    hide Digits;
    if k == 0 {
      NoDigits();
    } else {
      AllSevenDigits(k - 1);
      OneDigitMore(AllSeven(k - 1), 59);
      assert ['7'] + Sevens(k - 1) == Sevens(k);
    }
  }

  lemma NoDigits()
    ensures Digits(0) == ""
  {
  }

  lemma OneByte(bytes: seq<byte>, b: byte)
    ensures FromBytes(bytes + [b]) == FromBytes(bytes) * 256 + b
  {
    assert (bytes + [b])[..|bytes|] == bytes;
  }

  lemma FourBytes(bytes: seq<byte>, a: byte, b: byte, c: byte, d: byte)
    ensures FromBytes(bytes + [a, b, c, d]) == FromBytes(bytes) * 0x1_0000_0000 + a as int * 0x100_0000 + b as int * 0x1_0000 + c as int * 0x100 + d
  {
    hide FromBytes;
    OneByte(bytes, a);
    OneByte(bytes + [a], b);
    OneByte(bytes + [a] + [b], c);
    OneByte(bytes + [a] + [b] + [c], d);
    assert bytes + [a] + [b] + [c] + [d] == bytes + [a, b, c, d];
  }

  // A version-4 UUID whose eighteen base-62 digits are all the same.
  const FIRST := [0x00, 0x00, 0x08, 0xBD]
  const SECOND := [0x23, 0xA1, 0x4C, 0x25]
  const THIRD := [0xB8, 0xF9, 0x45, 0xA8]
  const FOURTH := [0x2A, 0x75, 0x2E, 0x29]
  const MONOTONOUS: seq<byte> := FIRST + SECOND + THIRD + FOURTH

  lemma FirstIs()
    ensures FromBytes(FIRST) == 0x08BD
  {
    FourBytes([], 0x00, 0x00, 0x08, 0xBD);
    assert [] + FIRST == FIRST;
  }

  lemma MonotonousIsAllSeven()
    ensures FromBytes(MONOTONOUS) == AllSeven(18)
  {
    hide FromBytes, AllSeven;
    FirstIs();
    FourBytes(FIRST, 0x23, 0xA1, 0x4C, 0x25);
    FourBytes(FIRST + SECOND, 0xB8, 0xF9, 0x45, 0xA8);
    FourBytes(FIRST + SECOND + THIRD, 0x2A, 0x75, 0x2E, 0x29);
    AllSevenIs();
  }

  lemma AllSevenIs()
    ensures AllSeven(18) == 177244426516405739219441350422057
  {
    assert AllSeven(6) == 54937932777;
    assert AllSeven(12) == 3120487524286493269545;
  }

  // The validator also wants 20 different characters; that is likely, not guaranteed. This
  // UUID, drawn twice, gives a key of five different characters.
  lemma KeysCanBeMonotonous()
    ensures IsVersion4(MONOTONOUS) && Key(MONOTONOUS, MONOTONOUS) == PREFIX + Sevens(32)
  {
    hide *;
    MonotonousIsVersion4();
    MonotonousIsAllSeven();
    AllSevenDigits(18);
    SevensTwice(MONOTONOUS);
  }

  lemma SevensTwice(uuid: seq<byte>)
    requires Digits(FromBytes(uuid)) == Sevens(18)
    ensures Key(uuid, uuid) == PREFIX + Sevens(32)
  {
    hide FromBytes, Digits;
    assert PREFIX + Sevens(18) + Sevens(18)[..14] == PREFIX + Sevens(32);
  }

  lemma MonotonousIsVersion4()
    ensures IsVersion4(MONOTONOUS)
  {
    assert |MONOTONOUS| == 16 && MONOTONOUS[6] == 0x4C && MONOTONOUS[8] == 0xB8;
  }

  type digit = d: nat | d < 62

  // The digits of a number as numbers, least significant first.
  function Numeral(n: nat): seq<digit> {
    if n == 0 then [] else [n % 62] + Numeral(n / 62)
  }

  // The digits that follow the prefix: those of the first UUID, and of the second as many
  // as there is room for.
  function KeyDigits(uuid1: seq<byte>, uuid2: seq<byte>): seq<digit> {
    var first, second := Numeral(FromBytes(uuid1)), Numeral(FromBytes(uuid2));
    first + if |first| >= 32 then [] else if |first| + |second| <= 32 then second else second[..32 - |first|]
  }

  function Spell(ds: seq<digit>): string {
    seq(|ds|, i requires 0 <= i < |ds| => ALPHABET[ds[i]])
  }

  lemma {:induction false} DigitsAreSpelt(n: nat)
    ensures Digits(n) == Spell(Numeral(n))
  {
    if n > 0 {
      DigitsAreSpelt(n / 62);
      assert Spell([n % 62] + Numeral(n / 62)) == [ALPHABET[n % 62]] + Spell(Numeral(n / 62));
    }
  }

  lemma SpeltInTwo(a: seq<digit>, b: seq<digit>)
    ensures Spell(a + b) == Spell(a) + Spell(b)
  {
  }

  lemma SpeltFirst(a: seq<digit>, k: nat)
    requires k <= |a|
    ensures Spell(a[..k]) == Spell(a)[..k]
  {
  }

  lemma SpeltLength(a: seq<digit>)
    ensures |Spell(a)| == |a|
  {
  }

  lemma KeyIsSpelt(uuid1: seq<byte>, uuid2: seq<byte>)
    ensures Key(uuid1, uuid2) == PREFIX + Spell(KeyDigits(uuid1, uuid2))
  {
    hide FromBytes, Digits, Numeral, Spell;
    var first, second := Numeral(FromBytes(uuid1)), Numeral(FromBytes(uuid2));
    DigitsAreSpelt(FromBytes(uuid1));
    DigitsAreSpelt(FromBytes(uuid2));
    SpeltLength(first);
    SpeltLength(second);
    var more := KeyDigits(uuid1, uuid2)[|first|..];
    assert KeyDigits(uuid1, uuid2) == first + more;
    SpeltInTwo(first, more);
    SpeltLength(more);
    if |first| >= 32 {
      assert Spell(more) == "";
    } else if |first| + |second| > 32 {
      SpeltFirst(second, 32 - |first|);
    }
    assert PREFIX + Spell(first) + Spell(more) == PREFIX + (Spell(first) + Spell(more));
  }

  lemma LowerIs(d: nat)
    requires d < 26
    ensures "abcdefghijklmnopqrstuvwxyz"[d] as int == 97 + d
  {
  }

  lemma UpperIs(d: nat)
    requires d < 26
    ensures "ABCDEFGHIJKLMNOPQRSTUVWXYZ"[d] as int == 65 + d
  {
  }

  lemma DigitIs(d: nat)
    requires d < 10
    ensures "0123456789"[d] as int == 48 + d
  {
  }

  // Where a letter of the alphabet stands in it.
  lemma LetterAt(d: nat)
    requires d < 62
    ensures ALPHABET[d] ==
            if d < 26 then "abcdefghijklmnopqrstuvwxyz"[d]
            else if d < 52 then "ABCDEFGHIJKLMNOPQRSTUVWXYZ"[d - 26] else "0123456789"[d - 52]
  {
  }

  // The alphabet has no letter twice.
  lemma LetterIs(d: nat)
    requires d < 62
    ensures ALPHABET[d] as int == if d < 26 then 97 + d else if d < 52 then 39 + d else d - 4
  {
    LetterAt(d);
    if d < 26 {
      LowerIs(d);
    } else if d < 52 {
      UpperIs(d - 26);
    } else {
      DigitIs(d - 52);
    }
  }

  ghost function Letters(digits: set<digit>): set<char> {
    set d | d in digits :: ALPHABET[d]
  }

  lemma {:induction false} LettersCount(digits: set<digit>)
    ensures |Letters(digits)| == |digits|
  {
    if digits != {} {
      var d :| d in digits;
      LettersCount(digits - {d});
      forall e | e in digits && e != d ensures ALPHABET[e] != ALPHABET[d] {
        LetterIs(d);
        LetterIs(e);
      }
      assert Letters(digits) == Letters(digits - {d}) + {ALPHABET[d]};
    }
  }

  // The prefix has four different characters: three letters, whose digits are 0, 15 and 17,
  // and one that is no letter. So a key has 20 different characters, as the validator wants,
  // if and only if it uses 16 different digits besides those three.
  lemma Variety(uuid1: seq<byte>, uuid2: seq<byte>)
    ensures |set c | c in Key(uuid1, uuid2)| >= 20 <==> |(set d | d in KeyDigits(uuid1, uuid2)) - {0, 15, 17}| >= 16
  {
    hide FromBytes, KeyDigits, Key, Spell, Letters, ALPHABET;
    var ds := KeyDigits(uuid1, uuid2);
    var others := (set d | d in ds) - {0, 15, 17};
    KeyIsSpelt(uuid1, uuid2);
    PrefixLetters(ds, others);
    LettersCount(others);
    assert |{'a', 'p', 'r', '_'}| == 4;
  }

  lemma PrefixLetter(d: nat)
    requires d < 62
    ensures ALPHABET[d] != '_' && (ALPHABET[d] in {'a', 'p', 'r'} <==> d in {0, 15, 17})
  {
    LetterIs(d);
    LetterIs(0);
    LetterIs(15);
    LetterIs(17);
    hide ALPHABET;
  }

  lemma SpeltLetters(ds: seq<digit>, c: char)
    ensures c in Spell(ds) <==> exists d :: d in ds && ALPHABET[d] == c
  {
    if d :| d in ds && ALPHABET[d] == c {
      var i :| 0 <= i < |ds| && ds[i] == d;
      assert Spell(ds)[i] == c;
    }
  }

  lemma PrefixLetters(ds: seq<digit>, others: set<digit>)
    requires others == (set d | d in ds) - {0, 15, 17}
    ensures (set c | c in PREFIX + Spell(ds)) == {'a', 'p', 'r', '_'} + Letters(others)
    ensures {'a', 'p', 'r', '_'} !! Letters(others)
  {
    forall c
      ensures c in PREFIX + Spell(ds) <==> c in {'a', 'p', 'r', '_'} + Letters(others)
    {
      OneLetter(ds, others, c);
    }
    forall d | d in others
      ensures ALPHABET[d] !in {'a', 'p', 'r', '_'}
    {
      PrefixLetter(d);
    }
    hide ALPHABET, Spell;
  }

  lemma OneLetter(ds: seq<digit>, others: set<digit>, c: char)
    requires others == (set d | d in ds) - {0, 15, 17}
    ensures c in PREFIX + Spell(ds) <==> c in {'a', 'p', 'r', '_'} + Letters(others)
  {
    hide Spell;
    SpeltLetters(ds, c);
    assert c in PREFIX <==> c in {'a', 'p', 'r', '_'};
    if d :| d in ds && ALPHABET[d] == c {
      PrefixLetter(d);
      assert d in {0, 15, 17} || d in others;
    }
  }

  // ----- what a key stands for -----

  function LetterValue(c: char): int {
    if 'a' <= c <= 'z' then c as int - 'a' as int
    else if 'A' <= c <= 'Z' then c as int - 'A' as int + 26
    else c as int - '0' as int + 52
  }

  // The number written in base 62, least significant letter first.
  function Value(s: string): int {
    if s == "" then 0 else LetterValue(s[0]) + 62 * Value(s[1..])
  }

  function Pow(base: nat, k: nat): nat {
    if k == 0 then 1 else base * Pow(base, k - 1)
  }

  // The number whose octets these are, the first weighing most.
  function BigEndian(bytes: seq<byte>): nat {
    if bytes == [] then 0 else bytes[0] * Pow(256, |bytes| - 1) + BigEndian(bytes[1..])
  }

  lemma {:induction false} BytesAreBigEndian(bytes: seq<byte>)
    ensures FromBytes(bytes) == BigEndian(bytes)
  {
    if bytes != [] {
      BytesAreBigEndian(bytes[..|bytes| - 1]);
      BigEndianMore(bytes[..|bytes| - 1], bytes[|bytes| - 1]);
      assert bytes[..|bytes| - 1] + [bytes[|bytes| - 1]] == bytes;
    }
  }

  lemma {:induction false} BigEndianMore(bytes: seq<byte>, b: byte)
    ensures BigEndian(bytes + [b]) == BigEndian(bytes) * 256 + b
  {
    if bytes == [] {
      assert [b][1..] == [];
    } else {
      BigEndianMore(bytes[1..], b);
      assert (bytes + [b])[1..] == bytes[1..] + [b];
      Shifted(bytes[0], Pow(256, |bytes| - 1), BigEndian(bytes[1..]));
    }
  }

  lemma Shifted(a: nat, p: nat, b: nat)
    ensures a * (256 * p) + b * 256 == (a * p + b) * 256
  {
  }

  lemma {:induction false} DigitsStandFor(n: nat)
    ensures Value(Digits(n)) == n
  {
    if n > 0 {
      LetterIs(n % 62);
      DigitsStandFor(n / 62);
      assert Digits(n)[1..] == Digits(n / 62);
    }
  }

  lemma FirstDigit(n: nat, k: nat)
    requires 0 < k <= |Digits(n)|
    ensures k - 1 <= |Digits(n / 62)|
    ensures Value(Digits(n)[..k]) == n % 62 + 62 * Value(Digits(n / 62)[..k - 1])
  {
    LetterIs(n % 62);
    assert Digits(n)[..k][1..] == Digits(n / 62)[..k - 1];
  }

  lemma Carry(n: nat, v: int, p: nat, q: nat)
    requires n / 62 == v + p * q && 0 <= v < p
    ensures n == n % 62 + 62 * v + (62 * p) * q && 0 <= n % 62 + 62 * v < 62 * p
  {
    assert 62 * (p * q) == (62 * p) * q;
  }

  lemma PowOneMore(k: nat)
    ensures Pow(62, k + 1) == 62 * Pow(62, k) && Pow(62, 0) == 1
  {
  }

  // The first letters of a numeral stand for what the number is beyond a multiple of a power.
  lemma {:induction false} FirstDigitsStandFor(n: nat, k: nat) returns (rest: nat)
    requires k <= |Digits(n)|
    ensures n == Value(Digits(n)[..k]) + Pow(62, k) * rest
    ensures 0 <= Value(Digits(n)[..k]) < Pow(62, k)
  {
    hide Digits, Pow;
    if k == 0 {
      rest := n;
      PowOneMore(0);
    } else {
      hide Value;
      FirstDigit(n, k);
      rest := FirstDigitsStandFor(n / 62, k - 1);
      PowOneMore(k - 1);
      Carry(n, Value(Digits(n / 62)[..k - 1]), Pow(62, k - 1), rest);
    }
  }

  // The first UUID can be read back from the key whole, and the second as far as the key has
  // room, its least significant digits first.
  lemma KeyStandsFor(uuid1: seq<byte>, uuid2: seq<byte>) returns (first: string, second: string, rest: nat)
    requires IsVersion4(uuid1)
    ensures Key(uuid1, uuid2) == "apr_" + first + second
    ensures BigEndian(uuid1) == Value(first)
    ensures BigEndian(uuid2) == Value(second) + Pow(62, |second|) * rest && 0 <= Value(second) < Pow(62, |second|)
    ensures 4 + |first| + |second| == 36 || rest == 0
  {
    hide FromBytes, Digits, Value, Pow, BigEndian, IsVersion4;
    var n, m := FromBytes(uuid1), FromBytes(uuid2);
    UuidDigits(uuid1);
    BytesAreBigEndian(uuid1);
    BytesAreBigEndian(uuid2);
    DigitsStandFor(n);
    first, second := Digits(n), Take(Digits(m), 32 - |Digits(n)|);
    rest := FirstDigitsStandFor(m, |second|);
    assert second == Digits(m)[..|second|];
    assert "apr_" == PREFIX;
    if |second| == |Digits(m)| {
      rest := 0;
      DigitsStandFor(m);
    }
  }
}
