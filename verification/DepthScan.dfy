// The bracket pre-check that guards the JSON parser, against the nesting depth of the value
// a text stands for.
module DepthScan {
  import opened Wrappers
  import opened Machine
  import opened JsonValue

  // ----- the scanner -----

  datatype Verdict = Scanning(depth: nat, inString: bool, escaped: bool) | TooDeep | Unmatched

  const START := Scanning(0, false, false)

  function OnChar(max: nat): (Verdict, char) -> Verdict {
    (v: Verdict, c: char) =>
      if !v.Scanning? then v
      else if v.inString then
        if v.escaped then v.(escaped := false)
        else if c == '\\' then v.(escaped := true)
        else if c == '"' then v.(inString := false)
        else v
      else if c == '"' then v.(inString := true)
      else if c == '{' || c == '[' then
        if v.depth + 1 > max then TooDeep else v.(depth := v.depth + 1)
      else if c == '}' || c == ']' then
        if v.depth == 0 then Unmatched else v.(depth := v.depth - 1)
      else v
  }

  function Scan(max: nat, json: string): Verdict {
    Fold(OnChar(max), START, json)
  }

  datatype ParseError = DepthLimit | UnmatchedBracket | Syntax

  // The text is parsed only if the scan gets to its end.
  method ParseJsonWithDepthLimit(read: JsonReader, json: string, max: nat) returns (r: Result<Json, ParseError>)
    ensures match Scan(max, json)
            case TooDeep => r == Err(DepthLimit)
            case Unmatched => r == Err(UnmatchedBracket)
            case Scanning(_, _, _) => r == if read(json).Some? then Ok(read(json).value) else Err(Syntax)
  {
    var depth := 0;
    var inString := false;
    var escaped := false;
    assert json[..0] == [];
    for i := 0 to |json|
      invariant depth >= 0
      invariant Scan(max, json[..i]) == Scanning(depth, inString, escaped)
    {
      var ch := json[i];
      FoldOneMore(OnChar(max), START, json, i);
      if inString {
        if escaped {
          escaped := false;
        } else if ch == '\\' {
          escaped := true;
        } else if ch == '"' {
          inString := false;
        }
      } else if ch == '"' {
        inString := true;
      } else if ch == '{' || ch == '[' {
        depth := depth + 1;
        if depth > max {
          StopsEarly(max, json, i + 1);
          return Err(DepthLimit);
        }
      } else if ch == '}' || ch == ']' {
        if depth == 0 {
          StopsEarly(max, json, i + 1);
          return Err(UnmatchedBracket);
        }
        depth := depth - 1;
      }
    }
    assert json[..|json|] == json;
    var value := read(json);
    if value.Some? {
      return Ok(value.value);
    }
    return Err(Syntax);
  }

  lemma StopsEarly(max: nat, json: string, i: nat)
    requires i <= |json| && !Scan(max, json[..i]).Scanning?
    ensures Scan(max, json) == Scan(max, json[..i])
  {
    assert json == json[..i] + json[i..];
    FoldConcat(OnChar(max), START, json[..i], json[i..]);
    Stopped(max, Scan(max, json[..i]), json[i..]);
  }

  lemma {:induction false} Stopped(max: nat, v: Verdict, text: string)
    requires !v.Scanning?
    ensures Fold(OnChar(max), v, text) == v
  {
    if text != [] {
      Stopped(max, v, text[..|text| - 1]);
    }
  }

  // ----- JSON texts, section 2 of RFC 8259, as the values they stand for -----

  // Section 7: a string is made of unescaped characters and escapes; what follows the
  // backslash, hex digits apart, is one character.
  datatype Item = Plain(c: char) | Escape(c: char)

  // `before` and `after` are white space.
  datatype Doc = Doc(before: string, value: Value, after: string)

  datatype Value =
    | Scalar(text: string)                       // a number, true, false or null
    | Text(items: seq<Item>)
    | Array(elements: seq<Doc>, close: string)   // white space before the bracket
    | Object(members: seq<Member>, close: string)

  datatype Member = Member(before: string, name: seq<Item>, after: string, doc: Doc)

  // A character that means nothing to the scanner outside strings.
  predicate Inert(c: char) {
    c != '"' && c != '{' && c != '}' && c != '[' && c != ']'
  }

  predicate AllInert(s: string) {
    forall c :: c in s ==> Inert(c)
  }

  predicate ItemsOk(items: seq<Item>) {
    forall i :: i in items && i.Plain? ==> i.c != '"' && i.c != '\\'
  }

  // White space and scalars hold no quotes or brackets, and strings no bare quotes or
  // backslashes: all that this model asks of the grammar's leaves.
  predicate WellFormed(d: Doc)
    decreases d, 1
  {
    && AllInert(d.before) && AllInert(d.after)
    && match d.value
       case Scalar(text) => AllInert(text)
       case Text(items) => ItemsOk(items)
       case Array(elements, close) => AllInert(close) && ElementsOk(elements)
       case Object(members, close) => AllInert(close) && MembersOk(members)
  }

  predicate ElementsOk(ds: seq<Doc>)
    decreases ds, 0
  {
    ds == [] || (WellFormed(ds[0]) && ElementsOk(ds[1..]))
  }

  predicate MembersOk(ms: seq<Member>)
    decreases ms, 0
  {
    ms == [] || (AllInert(ms[0].before) && ItemsOk(ms[0].name) && AllInert(ms[0].after) && WellFormed(ms[0].doc) && MembersOk(ms[1..]))
  }

  function ItemText(i: Item): string {
    if i.Plain? then [i.c] else ['\\', i.c]
  }

  function Quoted(items: seq<Item>): string {
    ['"'] + FlatMap(ItemText, items) + ['"']
  }

  function Print(d: Doc): string
    decreases d, 1
  {
    d.before +
    (match d.value
     case Scalar(text) => text
     case Text(items) => Quoted(items)
     case Array(elements, close) => ['['] + PrintElements(elements) + close + [']']
     case Object(members, close) => ['{'] + PrintMembers(members) + close + ['}']) +
    d.after
  }

  function PrintElements(ds: seq<Doc>): string
    decreases ds, 0
  {
    if ds == [] then ""
    else if |ds| == 1 then Print(ds[0])
    else Print(ds[0]) + [','] + PrintElements(ds[1..])
  }

  function PrintMember(m: Member): string
    decreases m, 0
  {
    m.before + Quoted(m.name) + m.after + [':'] + Print(m.doc)
  }

  function PrintMembers(ms: seq<Member>): string
    decreases ms, 0
  {
    if ms == [] then ""
    else if |ms| == 1 then PrintMember(ms[0])
    else PrintMember(ms[0]) + [','] + PrintMembers(ms[1..])
  }

  function Max(a: nat, b: nat): nat {
    if a > b then a else b
  }

  // How deep arrays and objects are nested.
  function Depth(d: Doc): nat
    decreases d, 1
  {
    match d.value
    case Scalar(_) => 0
    case Text(_) => 0
    case Array(elements, _) => 1 + DepthOfElements(elements)
    case Object(members, _) => 1 + DepthOfMembers(members)
  }

  function DepthOfElements(ds: seq<Doc>): nat
    decreases ds, 0
  {
    if ds == [] then 0 else Max(Depth(ds[0]), DepthOfElements(ds[1..]))
  }

  function DepthOfMembers(ms: seq<Member>): nat
    decreases ms, 0
  {
    if ms == [] then 0 else Max(Depth(ms[0].doc), DepthOfMembers(ms[1..]))
  }

  // ----- the scan of a printed text -----

  // From `depth` open brackets, `text` either passes and closes all it opens, or is found
  // to reach `nested` more levels, too many.
  ghost predicate ScansAs(max: nat, depth: nat, text: string, nested: nat) {
    Fold(OnChar(max), Scanning(depth, false, false), text) ==
      if depth + nested <= max then Scanning(depth, false, false) else TooDeep
  }

  // Two texts in a row nest as deep as the deeper one.
  lemma Both(max: nat, depth: nat, a: string, m: nat, b: string, n: nat)
    requires depth <= max && ScansAs(max, depth, a, m) && ScansAs(max, depth, b, n)
    ensures ScansAs(max, depth, a + b, Max(m, n))
  {
    FoldConcat(OnChar(max), Scanning(depth, false, false), a, b);
    Stopped(max, TooDeep, b);
    hide Fold;
  }

  lemma {:induction false} InertScans(max: nat, depth: nat, text: string)
    requires depth <= max && AllInert(text)
    ensures ScansAs(max, depth, text, 0)
  {
    if text != [] {
      assert text[|text| - 1] in text && forall c :: c in text[..|text| - 1] ==> c in text;
      InertScans(max, depth, text[..|text| - 1]);
    }
  }

  lemma ItemScans(max: nat, depth: nat, i: Item)
    requires i.Plain? ==> i.c != '"' && i.c != '\\'
    ensures Fold(OnChar(max), Scanning(depth, true, false), ItemText(i)) == Scanning(depth, true, false)
  {
    var v := Scanning(depth, true, false);
    if i.Plain? {
      FoldOne(OnChar(max), v, i.c);
    } else {
      assert ItemText(i) == ['\\'] + [i.c];
      FoldOne(OnChar(max), v, '\\');
      FoldOne(OnChar(max), v.(escaped := true), i.c);
      FoldConcat(OnChar(max), v, ['\\'], [i.c]);
    }
  }

  lemma {:induction false} ItemsScan(max: nat, depth: nat, items: seq<Item>)
    requires ItemsOk(items)
    ensures Fold(OnChar(max), Scanning(depth, true, false), FlatMap(ItemText, items)) == Scanning(depth, true, false)
  {
    hide ItemText, OnChar;
    NothingFolded(OnChar(max), Scanning(depth, true, false));
    if items != [] {
      var before, i := items[..|items| - 1], items[|items| - 1];
      assert i in items && forall x :: x in before ==> x in items;
      ItemsScan(max, depth, before);
      ItemScans(max, depth, i);
      FoldConcat(OnChar(max), Scanning(depth, true, false), FlatMap(ItemText, before), ItemText(i));
    }
  }

  lemma QuotedScans(max: nat, depth: nat, items: seq<Item>)
    requires depth <= max && ItemsOk(items)
    ensures ScansAs(max, depth, Quoted(items), 0)
  {
    var v, q := Scanning(depth, false, false), Scanning(depth, true, false);
    var inner := FlatMap(ItemText, items);
    FoldOne(OnChar(max), v, '"');
    ItemsScan(max, depth, items);
    FoldOne(OnChar(max), q, '"');
    FoldConcat(OnChar(max), v, ['"'], inner);
    FoldConcat(OnChar(max), v, ['"'] + inner, ['"']);
  }

  // A bracketed text nests one level deeper than what is inside.
  lemma BracketsScan(max: nat, depth: nat, left: char, inner: string, right: char, nested: nat)
    requires (left == '[' && right == ']') || (left == '{' && right == '}')
    requires depth <= max && (depth + 1 <= max ==> ScansAs(max, depth + 1, inner, nested))
    ensures ScansAs(max, depth, [left] + inner + [right], 1 + nested)
  {
    var v := Scanning(depth, false, false);
    FoldOne(OnChar(max), v, left);
    FoldConcat(OnChar(max), v, [left], inner);
    FoldConcat(OnChar(max), v, [left] + inner, [right]);
    if depth + 1 + nested <= max {
      FoldOne(OnChar(max), Scanning(depth + 1, false, false), right);
    } else {
      Stopped(max, TooDeep, inner);
      Stopped(max, TooDeep, [right]);
    }
  }

  lemma SeparatorScans(max: nat, depth: nat, c: char)
    requires depth <= max && Inert(c)
    ensures ScansAs(max, depth, [c], 0)
  {
    FoldOne(OnChar(max), Scanning(depth, false, false), c);
  }

  lemma {:induction false} ElementsScan(max: nat, depth: nat, ds: seq<Doc>)
    requires depth <= max && ElementsOk(ds)
    ensures ScansAs(max, depth, PrintElements(ds), DepthOfElements(ds))
    decreases ds, 0
  {
    hide ScansAs;
    if ds == [] {
      InertScans(max, depth, "");
    } else {
      DocScans(max, depth, ds[0]);
      ElementsScan(max, depth, ds[1..]);
      if |ds| > 1 {
        SeparatorScans(max, depth, ',');
        Both(max, depth, Print(ds[0]), Depth(ds[0]), [','], 0);
        Both(max, depth, Print(ds[0]) + [','], Depth(ds[0]), PrintElements(ds[1..]), DepthOfElements(ds[1..]));
      }
    }
  }

  lemma {:induction false} MemberScans(max: nat, depth: nat, m: Member)
    requires depth <= max && AllInert(m.before) && ItemsOk(m.name) && AllInert(m.after) && WellFormed(m.doc)
    ensures ScansAs(max, depth, PrintMember(m), Depth(m.doc))
    decreases m, 0
  {
    InertScans(max, depth, m.before);
    QuotedScans(max, depth, m.name);
    InertScans(max, depth, m.after);
    SeparatorScans(max, depth, ':');
    DocScans(max, depth, m.doc);
    hide ScansAs;
    Both(max, depth, m.before, 0, Quoted(m.name), 0);
    Both(max, depth, m.before + Quoted(m.name), 0, m.after, 0);
    Both(max, depth, m.before + Quoted(m.name) + m.after, 0, [':'], 0);
    Both(max, depth, m.before + Quoted(m.name) + m.after + [':'], 0, Print(m.doc), Depth(m.doc));
  }

  lemma {:induction false} MembersScan(max: nat, depth: nat, ms: seq<Member>)
    requires depth <= max && MembersOk(ms)
    ensures ScansAs(max, depth, PrintMembers(ms), DepthOfMembers(ms))
    decreases ms, 0
  {
    hide ScansAs, PrintMember;
    if ms == [] {
      InertScans(max, depth, "");
    } else {
      MemberScans(max, depth, ms[0]);
      MembersScan(max, depth, ms[1..]);
      if |ms| > 1 {
        SeparatorScans(max, depth, ',');
        Both(max, depth, PrintMember(ms[0]), Depth(ms[0].doc), [','], 0);
        Both(max, depth, PrintMember(ms[0]) + [','], Depth(ms[0].doc), PrintMembers(ms[1..]), DepthOfMembers(ms[1..]));
      }
    }
  }

  lemma {:induction false} DocScans(max: nat, depth: nat, d: Doc)
    requires depth <= max && WellFormed(d)
    ensures ScansAs(max, depth, Print(d), Depth(d))
    decreases d, 1
  {
    InertScans(max, depth, d.before);
    InertScans(max, depth, d.after);
    var body: string;
    match d.value {
      case Scalar(text) =>
        body := text;
        InertScans(max, depth, text);
      case Text(items) =>
        body := Quoted(items);
        QuotedScans(max, depth, items);
      case Array(elements, close) =>
        body := ['['] + PrintElements(elements) + close + [']'];
        if depth + 1 <= max {
          ElementsScan(max, depth + 1, elements);
          InertScans(max, depth + 1, close);
          Both(max, depth + 1, PrintElements(elements), DepthOfElements(elements), close, 0);
        }
        BracketsScan(max, depth, '[', PrintElements(elements) + close, ']', DepthOfElements(elements));
        assert body == ['['] + (PrintElements(elements) + close) + [']'];
      case Object(members, close) =>
        body := ['{'] + PrintMembers(members) + close + ['}'];
        if depth + 1 <= max {
          MembersScan(max, depth + 1, members);
          InertScans(max, depth + 1, close);
          Both(max, depth + 1, PrintMembers(members), DepthOfMembers(members), close, 0);
        }
        BracketsScan(max, depth, '{', PrintMembers(members) + close, '}', DepthOfMembers(members));
        assert body == ['{'] + (PrintMembers(members) + close) + ['}'];
    }
    hide ScansAs;
    Both(max, depth, d.before, 0, body, Depth(d));
    Both(max, depth, d.before + body, Depth(d), d.after, 0);
  }

  // The pre-check lets a JSON text through exactly when its value is nested no deeper than
  // the limit, and then ends outside every bracket and string. It never takes a well-formed
  // text for an unmatched one.
  lemma DepthIsWhatIsScanned(max: nat, d: Doc)
    requires WellFormed(d)
    ensures Scan(max, Print(d)) == if Depth(d) <= max then START else TooDeep
  {
    DocScans(max, 0, d);
  }

  // ----- texts that need not be JSON -----

  // Any text is characters outside strings, strings, and perhaps a string that never ends,
  // `dangling` if its last character is an unescaped backslash.
  datatype Piece = Outside(c: char) | Quote(items: seq<Item>)

  datatype Tail = Closed | Open(items: seq<Item>, dangling: bool)

  predicate PieceOk(p: Piece) {
    if p.Outside? then p.c != '"' else ItemsOk(p.items)
  }

  ghost predicate PiecesOk(ps: seq<Piece>, tail: Tail) {
    (forall p :: p in ps ==> PieceOk(p)) && (tail.Open? ==> ItemsOk(tail.items))
  }

  function PieceText(p: Piece): string {
    if p.Outside? then [p.c] else Quoted(p.items)
  }

  function TailText(t: Tail): string {
    if t.Closed? then "" else ['"'] + FlatMap(ItemText, t.items) + if t.dangling then ['\\'] else []
  }

  function PiecedText(ps: seq<Piece>, tail: Tail): string {
    FlatMap(PieceText, ps) + TailText(tail)
  }

  // What a piece adds to the open brackets; brackets in strings do not count.
  function Balance(ps: seq<Piece>): int {
    if ps == [] then 0
    else
      var p := ps[|ps| - 1];
      Balance(ps[..|ps| - 1]) +
      if p == Outside('{') || p == Outside('[') then 1 else if p == Outside('}') || p == Outside(']') then -1 else 0
  }

  // The first balance below zero or beyond the limit, from left to right.
  function FirstOut(max: nat, ps: seq<Piece>): Option<int> {
    if ps == [] then None
    else
      var before := FirstOut(max, ps[..|ps| - 1]);
      if before.Some? then before
      else if 0 <= Balance(ps) <= max then None
      else Some(Balance(ps))
  }

  lemma PieceScans(max: nat, depth: nat, p: Piece)
    requires depth <= max && PieceOk(p)
    ensures var n := depth + Balance([p]);
            Fold(OnChar(max), Scanning(depth, false, false), PieceText(p)) ==
            if n > max then TooDeep else if n < 0 then Unmatched else Scanning(n, false, false)
  {
    assert Balance([p][..0]) == 0;
    if p.Outside? {
      FoldOne(OnChar(max), Scanning(depth, false, false), p.c);
    } else {
      QuotedScans(max, depth, p.items);
    }
  }

  lemma OutOneMore(max: nat, ps: seq<Piece>, p: Piece)
    ensures var n := Balance(ps) + Balance([p]);
            && Balance(ps + [p]) == n
            && FirstOut(max, ps + [p]) ==
               if FirstOut(max, ps).Some? then FirstOut(max, ps) else if 0 <= n <= max then None else Some(n)
  {
    assert (ps + [p])[..|ps|] == ps && [p][..0] == [];
  }

  lemma OnePieceMore(ps: seq<Piece>, p: Piece)
    ensures FlatMap(PieceText, ps + [p]) == FlatMap(PieceText, ps) + PieceText(p)
  {
    assert (ps + [p])[..|ps|] == ps;
  }

  ghost predicate ScansTo(max: nat, ps: seq<Piece>) {
    match FirstOut(max, ps)
    case Some(n) => Scan(max, FlatMap(PieceText, ps)) == if n > max then TooDeep else Unmatched
    case None => 0 <= Balance(ps) <= max && Scan(max, FlatMap(PieceText, ps)) == Scanning(Balance(ps), false, false)
  }

  lemma ScansOneMore(max: nat, ps: seq<Piece>, p: Piece)
    requires ScansTo(max, ps) && PieceOk(p)
    ensures ScansTo(max, ps + [p])
  {
    hide OnChar, PieceText, PieceOk, FirstOut, Balance, FlatMap;
    OutOneMore(max, ps, p);
    OnePieceMore(ps, p);
    FoldConcat(OnChar(max), START, FlatMap(PieceText, ps), PieceText(p));
    if FirstOut(max, ps).None? {
      PieceScans(max, Balance(ps), p);
    } else {
      Stopped(max, Scan(max, FlatMap(PieceText, ps)), PieceText(p));
    }
  }

  lemma {:induction false} PiecesScan(max: nat, ps: seq<Piece>)
    requires forall p :: p in ps ==> PieceOk(p)
    ensures ScansTo(max, ps)
  {
    if ps != [] {
      hide ScansTo, PieceOk;
      var before, p := ps[..|ps| - 1], ps[|ps| - 1];
      assert p in ps && forall x :: x in before ==> x in ps;
      PiecesScan(max, before);
      ScansOneMore(max, before, p);
      assert before + [p] == ps;
    }
  }

  lemma TailScans(max: nat, depth: nat, t: Tail)
    requires depth <= max && t.Open? && ItemsOk(t.items)
    ensures Fold(OnChar(max), Scanning(depth, false, false), TailText(t)) == Scanning(depth, true, t.dangling)
  {
    var v, q := Scanning(depth, false, false), Scanning(depth, true, false);
    var inner := FlatMap(ItemText, t.items);
    FoldOne(OnChar(max), v, '"');
    ItemsScan(max, depth, t.items);
    FoldConcat(OnChar(max), v, ['"'], inner);
    if t.dangling {
      FoldOne(OnChar(max), q, '\\');
      FoldConcat(OnChar(max), v, ['"'] + inner, ['\\']);
    } else {
      assert ['"'] + inner + [] == ['"'] + inner;
    }
  }

  // The verdict on any text: that of the first bracket outside strings that makes the balance
  // leave the range, and otherwise where the text ends.
  lemma VerdictIs(max: nat, ps: seq<Piece>, tail: Tail)
    requires PiecesOk(ps, tail)
    ensures Scan(max, PiecedText(ps, tail)) ==
            match FirstOut(max, ps)
            case Some(n) => (if n > max then TooDeep else Unmatched)
            case None => Scanning(Balance(ps), tail.Open?, tail.Open? && tail.dangling)
  {
    hide OnChar, PieceText, FirstOut, Balance, ItemsOk, PieceOk;
    var text := FlatMap(PieceText, ps);
    PiecesScan(max, ps);
    FoldConcat(OnChar(max), START, text, TailText(tail));
    if FirstOut(max, ps).Some? {
      Stopped(max, Scan(max, text), TailText(tail));
    } else if tail.Open? {
      TailScans(max, Balance(ps), tail);
    } else {
      assert text + "" == text;
    }
  }

  lemma OneItemMore(items: seq<Item>, i: Item)
    ensures FlatMap(ItemText, items + [i]) == FlatMap(ItemText, items) + ItemText(i)
  {
    assert (items + [i])[..|items|] == items;
  }

  // One character more.
  lemma PiecesGrow(ps: seq<Piece>, tail: Tail, c: char) returns (qs: seq<Piece>, end: Tail)
    requires PiecesOk(ps, tail)
    ensures PiecesOk(qs, end) && PiecedText(qs, end) == PiecedText(ps, tail) + [c]
  {
    hide FlatMap;
    qs, end := ps, tail;
    if tail.Closed? {
      if c == '"' {
        end := Open([], false);
        NoItems();
      } else {
        qs := ps + [Outside(c)];
        OnePieceMore(ps, Outside(c));
      }
    } else if tail.dangling {
      end := Open(tail.items + [Escape(c)], false);
      OneItemMore(tail.items, Escape(c));
    } else if c == '"' {
      qs, end := ps + [Quote(tail.items)], Closed;
      OnePieceMore(ps, Quote(tail.items));
    } else if c == '\\' {
      end := tail.(dangling := true);
    } else {
      end := Open(tail.items + [Plain(c)], false);
      OneItemMore(tail.items, Plain(c));
    }
  }

  lemma NoItems()
    ensures FlatMap(ItemText, []) == ""
  {
  }

  // And every text is one of these.
  lemma {:induction false} EveryTextIsPieced(json: string) returns (ps: seq<Piece>, tail: Tail)
    ensures PiecesOk(ps, tail) && PiecedText(ps, tail) == json
  {
    if json == "" {
      ps, tail := [], Closed;
    } else {
      hide PiecesOk, PiecedText;
      var before, c := json[..|json| - 1], json[|json| - 1];
      ps, tail := EveryTextIsPieced(before);
      ps, tail := PiecesGrow(ps, tail, c);
    }
  }
}
