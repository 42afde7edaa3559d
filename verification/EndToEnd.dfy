// From the JSON records an upstream writes, on the wire in any cut, to what the client
// receives.
module EndToEnd {
  import opened Bytes
  import opened JsonValue
  import opened Machine
  import opened StreamConverter
  import opened Pipeline
  import opened Wire
  import opened StreamAgreement
  import opened SpokenProse
  import C = Converter
  import R = Records
  import ToolSlots

  // The JSON values on the record lines; a payload that is no JSON is skipped.
  function Value(read: TextReader, i: Item): seq<Json> {
    if i.line.Record? && read(i.line.payload).Some? then [read(i.line.payload).value] else []
  }

  function Values(read: TextReader, items: seq<Item>): seq<Json> {
    FlatMap((i: Item) => Value(read, i), items)
  }

  // The values say the chunks, each in a style of its own.
  ghost predicate Says(values: seq<Json>, chunks: seq<C.Chunk>, styles: seq<R.Style>) {
    && |values| == |chunks| == |styles|
    && forall i :: 0 <= i < |values| ==> R.Fits(chunks[i], styles[i]) && values[i] == R.Print(chunks[i], styles[i])
  }

  function Inputs(values: seq<Json>): seq<C.Input> {
    seq(|values|, i requires 0 <= i < |values| => C.Data(C.ReadChunk(values[i])))
  }

  lemma {:induction false} RecordsAreInputs(read: TextReader, items: seq<Item>)
    requires forall i :: i in items ==> !i.line.Marker?
    ensures Meanings(read, items) == Inputs(Values(read, items))
  {
    hide C.ReadChunk;
    if items != [] {
      var before, last := items[..|items| - 1], items[|items| - 1];
      assert last in items && forall i :: i in before ==> i in items;
      RecordsAreInputs(read, before);
    }
  }

  lemma SaidIsHeard(values: seq<Json>, chunks: seq<C.Chunk>, styles: seq<R.Style>)
    requires Says(values, chunks, styles)
    ensures Inputs(values) == DataOf(chunks)
  {
    hide C.ReadChunk, R.Fits, R.Print;
    forall i | 0 <= i < |values|
      ensures C.ReadChunk(values[i]) == chunks[i]
    {
      R.ReadsBack(chunks[i], styles[i]);
    }
  }

  // The wire text of JSON records, each in any style, with event names and other lines in
  // between and the marker at the end, cut in any way that fits: the client receives what it
  // would have been sent as one message, under the same exact conditions.
  lemma WireTextAgrees(
      search: C.SearchOrder, read: TextReader, parse: JsonReader, items: seq<Item>, marker: Item, tail: seq<byte>,
      texts: seq<seq<byte>>, chunks: seq<C.Chunk>, styles: seq<R.Style>)
    requires AllProper(items + [marker]) && '\n' as byte !in tail
    requires marker.line.Marker? && forall i :: i in items ==> !i.line.Marker?
    requires Whole(texts) == WireText(items + [marker]) + tail && Fits(texts)
    requires Says(Values(read, items), chunks, styles)
    requires C.ListsKeys(search) && Orderly(chunks) && chunks != []
    requires ToolSlots.Regular(FlatMap(ChunkFragments, chunks))
    ensures AsOneMessage(parse, chunks, Run(ConvertStep(search, read), INITIAL, texts).events)
  {
    hide *;
    ConvertsTheLines(search, read, items + [marker], tail, texts);
    MeaningsSplit(read, items, marker, []);
    RecordsAreInputs(read, items);
    SaidIsHeard(Values(read, items), chunks, styles);
    StreamingAgrees(search, parse, chunks);
    NothingAfter(read, items, marker, chunks);
  }

  lemma NothingAfter(read: TextReader, items: seq<Item>, marker: Item, chunks: seq<C.Chunk>)
    requires Meanings(read, items + [marker] + []) == DataOf(chunks) + [C.Done] + Meanings(read, [])
    ensures Meanings(read, items + [marker]) == StreamOf(chunks)
  {
    hide Meaning;
    assert items + [marker] + [] == items + [marker];
    assert Meanings(read, []) == [];
  }
}
