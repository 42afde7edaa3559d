// Upstream records as the JSON an upstream writes. Printing a chunk names every field and
// every way a provider may leave one out; the converter reads back exactly the chunk, and
// every JSON value is such a print.
module Records {
  import opened Wrappers
  import opened JsonValue
  import opened Converter

  // A field's value, or its absence.
  type Field = Option<Json>

  type Fields = map<string, Json>

  function Put(fields: Fields, key: string, v: Field): Fields {
    if v.Some? then fields[key := v.value] else fields - {key}
  }

  // ----- the ways to say nothing -----

  // Absent, not a string, or empty.
  predicate NoText(v: Field) {
    v.Some? && v.value.Str? ==> v.value.s == ""
  }

  // Absent, not an integer, or outside 64 unsigned bits.
  predicate NoIndex(v: Field) {
    v.Some? && v.value.Int? ==> v.value.n < 0 || v.value.n >= 18446744073709551616
  }

  // As no text, or the literal "null".
  predicate NoFinish(v: Field) {
    v.Some? && v.value.Str? ==> v.value.s in {"", "null"}
  }

  predicate NoList(v: Field) {
    v.Some? ==> !v.value.Arr?
  }

  predicate NoObject(v: Field) {
    v.Some? ==> !v.value.Obj?
  }

  function TextField(text: string, blank: Field): Field {
    if text == "" then blank else Some(Str(text))
  }

  function StrField(text: Option<string>, blank: Field): Field {
    if text.Some? then Some(Str(text.value)) else blank
  }

  // ----- tool call fragments -----

  // How a fragment's function is written: an object with the two fields and any others, or,
  // when it has nothing to say, anything else.
  datatype FunctionStyle =
    | NoFunction(v: Field)
    | AFunction(name: Field, args: Field, others: Fields)

  datatype FragmentStyle =
    | NoFragment(v: Json)
    | AFragment(index: Field, id: Field, fn: FunctionStyle, others: Fields)

  predicate FunctionFits(name: string, args: string, s: FunctionStyle) {
    match s
    case NoFunction(v) => name == "" && args == "" && NoObject(v)
    case AFunction(noName, noArgs, others) => NoText(noName) && NoText(noArgs)
  }

  function PrintFunction(name: string, args: string, s: FunctionStyle): Field {
    match s
    case NoFunction(v) => v
    case AFunction(noName, noArgs, others) =>
      Some(Obj(Put(Put(others, "name", TextField(name, noName)), "arguments", TextField(args, noArgs))))
  }

  predicate FragmentFits(f: Fragment, s: FragmentStyle) {
    match s
    case NoFragment(v) => f == Fragment(None, None, "", "") && !v.Obj?
    case AFragment(noIndex, noId, fn, others) =>
      && (f.index.Some? ==> f.index.value < 18446744073709551616) && f.id != Some("")
      && NoIndex(noIndex) && NoText(noId) && FunctionFits(f.name, f.args, fn)
  }

  function PrintFragment(f: Fragment, s: FragmentStyle): Json {
    match s
    case NoFragment(v) => v
    case AFragment(noIndex, noId, fn, others) =>
      var index := if f.index.Some? then Some(Int(f.index.value)) else noIndex;
      Obj(Put(Put(Put(others, "index", index), "id", StrField(f.id, noId)), "function", PrintFunction(f.name, f.args, fn)))
  }

  predicate FragmentsFit(fs: seq<Fragment>, ss: seq<FragmentStyle>) {
    |fs| == |ss| && forall i :: 0 <= i < |fs| ==> FragmentFits(fs[i], ss[i])
  }

  function PrintFragments(fs: seq<Fragment>, ss: seq<FragmentStyle>): seq<Json>
    requires |fs| == |ss|
  {
    seq(|fs|, i requires 0 <= i < |fs| => PrintFragment(fs[i], ss[i]))
  }

  // ----- records -----

  // The reasoning stands under either name. Under the first, whatever it is, it hides the
  // second.
  datatype ReasoningStyle =
    | First(empty: Json, second: Field)
    | Second(blank: Field)

  datatype DeltaStyle =
    | NoDelta(v: Field)
    | ADelta(reasoning: ReasoningStyle, content: Field, tools: Field, calls: seq<FragmentStyle>, others: Fields)

  datatype ChoiceStyle =
    | NoChoice(v: Json)
    | AChoice(delta: DeltaStyle, finish: Field, others: Fields)

  // A record's first choice is read, any others are not.
  datatype Style =
    | NoChoices(v: Json)
    | SomeChoices(first: ChoiceStyle, more: seq<Json>, others: Fields)

  predicate ReasoningFits(s: ReasoningStyle) {
    match s
    case First(empty, second) => NoText(Some(empty))
    case Second(blank) => NoText(blank)
  }

  predicate DeltaFits(c: Chunk, s: DeltaStyle) {
    match s
    case NoDelta(v) => c.reasoning == "" && c.content == "" && c.tools.None? && NoObject(v)
    case ADelta(reasoning, noContent, noTools, calls, others) =>
      && ReasoningFits(reasoning) && NoText(noContent)
      && if c.tools.Some? then FragmentsFit(c.tools.value, calls) else NoList(noTools)
  }

  function PrintReasoning(fields: Fields, text: string, s: ReasoningStyle): Fields {
    match s
    case First(empty, second) =>
      Put(Put(fields, "reasoning_content", TextField(text, Some(empty))), "reasoning", second)
    case Second(blank) =>
      Put(Put(fields, "reasoning_content", None), "reasoning", TextField(text, blank))
  }

  function PrintDelta(c: Chunk, s: DeltaStyle): Field
    requires DeltaFits(c, s)
  {
    match s
    case NoDelta(v) => v
    case ADelta(reasoning, noContent, noTools, calls, others) =>
      var tools := if c.tools.Some? then Some(Arr(PrintFragments(c.tools.value, calls))) else noTools;
      Some(Obj(Put(Put(PrintReasoning(others, c.reasoning, reasoning), "content", TextField(c.content, noContent)),
                   "tool_calls", tools)))
  }

  predicate ChoiceFits(c: Chunk, s: ChoiceStyle) {
    match s
    case NoChoice(v) => c == Chunk("", "", None, None) && !v.Obj?
    case AChoice(delta, noFinish, others) => DeltaFits(c, delta) && NoFinish(noFinish) && c.finish !in {Some(""), Some("null")}
  }

  function PrintChoice(c: Chunk, s: ChoiceStyle): Json
    requires ChoiceFits(c, s)
  {
    match s
    case NoChoice(v) => v
    case AChoice(delta, noFinish, others) =>
      Obj(Put(Put(others, "delta", PrintDelta(c, delta)), "finish_reason", StrField(c.finish, noFinish)))
  }

  // Nothing a first choice could be read from.
  predicate Choiceless(v: Json) {
    v.Obj? && "choices" in v.fields && v.fields["choices"].Arr? ==> v.fields["choices"].items == []
  }

  predicate Fits(c: Chunk, s: Style) {
    match s
    case NoChoices(v) => c == Chunk("", "", None, None) && Choiceless(v)
    case SomeChoices(first, more, others) => ChoiceFits(c, first)
  }

  function Print(c: Chunk, s: Style): Json
    requires Fits(c, s)
  {
    match s
    case NoChoices(v) => v
    case SomeChoices(first, more, others) => Obj(Put(others, "choices", Some(Arr([PrintChoice(c, first)] + more))))
  }

  // ----- reading back -----

  lemma ReadsFunction(name: string, args: string, s: FunctionStyle)
    requires FunctionFits(name, args, s)
    ensures var fn := PrintFunction(name, args, s);
            && (if fn.Some? then fn.value.GetStr("name").GetOr("") else "") == name
            && (if fn.Some? then fn.value.GetStr("arguments").GetOr("") else "") == args
  {
  }

  lemma ReadsFragment(f: Fragment, s: FragmentStyle)
    requires FragmentFits(f, s)
    ensures ReadFragment(PrintFragment(f, s)) == f
  {
    hide PrintFunction, FunctionFits;
    if s.AFragment? {
      ReadsFunction(f.name, f.args, s.fn);
    }
  }

  lemma ReadsReasoning(fields: Fields, text: string, s: ReasoningStyle)
    requires ReasoningFits(s)
    ensures Reasoning(Obj(PrintReasoning(fields, text, s))).GetOr("") == text
  {
  }

  lemma ReadsFragments(fs: seq<Fragment>, ss: seq<FragmentStyle>)
    requires FragmentsFit(fs, ss)
    ensures ReadFragments(PrintFragments(fs, ss)) == fs
  {
    hide ReadFragment, PrintFragment, FragmentFits;
    forall i | 0 <= i < |fs|
      ensures ReadFragment(PrintFragment(fs[i], ss[i])) == fs[i]
    {
      ReadsFragment(fs[i], ss[i]);
    }
  }

  lemma ReadsDelta(c: Chunk, s: DeltaStyle)
    requires DeltaFits(c, s) && PrintDelta(c, s).Some?
    ensures var d := PrintDelta(c, s).value;
            && Reasoning(d).GetOr("") == c.reasoning && d.GetStr("content").GetOr("") == c.content
            && (d.GetArr("tool_calls").Some? <==> c.tools.Some?)
            && (c.tools.Some? ==> ReadFragments(d.GetArr("tool_calls").value) == c.tools.value)
  {
    hide FragmentsFit, ReadFragments, PrintFragments;
    if s.ADelta? {
      ReadsReasoning(s.others, c.reasoning, s.reasoning);
      if c.tools.Some? {
        ReadsFragments(c.tools.value, s.calls);
      }
    }
  }

  lemma ReadsChoice(c: Chunk, s: ChoiceStyle)
    requires ChoiceFits(c, s)
    ensures ReadFinish(PrintChoice(c, s)) == c.finish
    ensures s.AChoice? ==> PrintChoice(c, s).Get("delta") == PrintDelta(c, s.delta)
    ensures s.NoChoice? ==> PrintChoice(c, s).Get("delta").None?
  {
    hide DeltaFits, PrintDelta;
  }

  // A chunk comes back from every record that says it, whatever other fields and choices the
  // record holds and however it leaves out what the chunk has not.
  lemma ReadsBack(c: Chunk, s: Style)
    requires Fits(c, s)
    ensures ReadChunk(Print(c, s)) == c
  {
    if s.SomeChoices? {
      ReadsChoice(c, s.first);
      if s.first.AChoice? && PrintDelta(c, s.first.delta).Some? {
        ReadsDelta(c, s.first.delta);
      }
    }
    hide DeltaFits, PrintDelta, ReadFinish, Reasoning, ReadFragments;
  }

  // ----- every value is such a record -----

  lemma PutSame(v: Json, key: string)
    requires v.Obj?
    ensures Put(v.fields, key, v.Get(key)) == v.fields
  {
  }

  lemma PutText(v: Json, key: string)
    requires v.Obj?
    ensures Put(v.fields, key, TextField(v.GetStr(key).GetOr(""), Blank(v.Get(key)))) == v.fields
    ensures NoText(Blank(v.Get(key)))
  {
  }

  // The field itself if it says nothing.
  function Blank(v: Field): Field {
    if NoText(v) then v else None
  }

  function FunctionWas(v: Field): FunctionStyle {
    if v.Some? && v.value.Obj? then AFunction(Blank(v.value.Get("name")), Blank(v.value.Get("arguments")), v.value.fields)
    else NoFunction(v)
  }

  function FragmentWas(v: Json): FragmentStyle {
    if v.Obj? then
      AFragment(if NoIndex(v.Get("index")) then v.Get("index") else None, Blank(v.Get("id")), FunctionWas(v.Get("function")), v.fields)
    else NoFragment(v)
  }

  lemma FunctionSays(v: Field)
    ensures var name := if v.Some? then v.value.GetStr("name").GetOr("") else "";
            var args := if v.Some? then v.value.GetStr("arguments").GetOr("") else "";
            FunctionFits(name, args, FunctionWas(v)) && PrintFunction(name, args, FunctionWas(v)) == v
  {
    if v.Some? && v.value.Obj? {
      PutText(v.value, "name");
      PutText(v.value, "arguments");
    }
  }

  lemma FragmentSays(v: Json)
    ensures FragmentFits(ReadFragment(v), FragmentWas(v)) && PrintFragment(ReadFragment(v), FragmentWas(v)) == v
  {
    hide FunctionFits, PrintFunction, FunctionWas;
    if v.Obj? {
      PutSame(v, "index");
      PutSame(v, "id");
      PutSame(v, "function");
      FunctionSays(v.Get("function"));
    }
  }

  lemma FragmentsSay(vs: seq<Json>) returns (ss: seq<FragmentStyle>)
    ensures FragmentsFit(ReadFragments(vs), ss) && PrintFragments(ReadFragments(vs), ss) == vs
  {
    hide FragmentFits, PrintFragment, ReadFragment, FragmentWas;
    ss := seq(|vs|, i requires 0 <= i < |vs| => FragmentWas(vs[i]));
    forall i | 0 <= i < |vs|
      ensures FragmentFits(ReadFragment(vs[i]), ss[i]) && PrintFragment(ReadFragment(vs[i]), ss[i]) == vs[i]
    {
      FragmentSays(vs[i]);
    }
  }

  lemma ReasoningSays(v: Json) returns (s: ReasoningStyle)
    requires v.Obj?
    ensures ReasoningFits(s) && PrintReasoning(v.fields, Reasoning(v).GetOr(""), s) == v.fields
  {
    PutSame(v, "reasoning_content");
    PutSame(v, "reasoning");
    if v.Get("reasoning_content").Some? {
      var first := v.fields["reasoning_content"];
      s := First(if NoText(Some(first)) then first else Null, v.Get("reasoning"));
    } else {
      s := Second(Blank(v.Get("reasoning")));
    }
  }

  lemma DeltaSays(v: Json, c: Chunk) returns (s: DeltaStyle)
    requires v.Obj?
    requires c.reasoning == Reasoning(v).GetOr("") && c.content == v.GetStr("content").GetOr("")
    requires c.tools == if v.GetArr("tool_calls").Some? then Some(ReadFragments(v.GetArr("tool_calls").value)) else None
    ensures DeltaFits(c, s) && PrintDelta(c, s) == Some(v)
  {
    hide ReasoningFits, PrintReasoning, Reasoning, FragmentsFit, PrintFragments, ReadFragments;
    var reasoning := ReasoningSays(v);
    PutText(v, "content");
    PutSame(v, "tool_calls");
    var calls: seq<FragmentStyle> := [];
    if c.tools.Some? {
      calls := FragmentsSay(v.GetArr("tool_calls").value);
    }
    s := ADelta(reasoning, Blank(v.Get("content")), if c.tools.Some? then None else v.Get("tool_calls"), calls, v.fields);
  }

  lemma ChoiceSays(v: Json, c: Chunk) returns (s: ChoiceStyle)
    requires ReadFinish(v) == c.finish
    requires v.Get("delta").Some? ==>
               var d := v.Get("delta").value;
               && c.reasoning == Reasoning(d).GetOr("") && c.content == d.GetStr("content").GetOr("")
               && c.tools == if d.GetArr("tool_calls").Some? then Some(ReadFragments(d.GetArr("tool_calls").value)) else None
    requires v.Get("delta").None? ==> c.reasoning == c.content == "" && c.tools.None?
    ensures ChoiceFits(c, s) && PrintChoice(c, s) == v
  {
    hide ReadFragments;
    if v.Obj? {
      PutSame(v, "delta");
      PutSame(v, "finish_reason");
      var delta := NoDelta(v.Get("delta"));
      if v.Get("delta").Some? && v.Get("delta").value.Obj? {
        delta := DeltaSays(v.Get("delta").value, c);
      }
      hide DeltaFits, PrintDelta;
      s := AChoice(delta, if NoFinish(v.Get("finish_reason")) then v.Get("finish_reason") else None, v.fields);
    } else {
      s := NoChoice(v);
    }
  }

  // Every JSON value is a record that says what is read from it.
  lemma EveryValueSays(v: Json) returns (s: Style)
    ensures Fits(ReadChunk(v), s) && Print(ReadChunk(v), s) == v
  {
    hide ChoiceFits, PrintChoice, ReadFragments, Reasoning, ReadFinish;
    var choice := FirstChoice(v);
    if choice.Some? {
      var first := ChoiceSays(choice.value, ReadChunk(v));
      var choices := v.GetArr("choices").value;
      assert [choices[0]] + choices[1..] == choices;
      PutSame(v, "choices");
      s := SomeChoices(first, choices[1..], v.fields);
    } else {
      s := NoChoices(v);
    }
  }

  // A value is read as a chunk exactly when it is one of the records that say that chunk.
  lemma ReadsWhatIsSaid(v: Json, c: Chunk)
    ensures ReadChunk(v) == c <==> exists s :: Fits(c, s) && Print(c, s) == v
  {
    hide ReadChunk, Fits, Print;
    var s := EveryValueSays(v);
    forall s | Fits(c, s) && Print(c, s) == v
      ensures ReadChunk(v) == c
    {
      ReadsBack(c, s);
    }
  }
}
