// The upstream byte stream as text: chunks of bytes in, chunks of whole characters out,
// with an incomplete character carried over to the next chunk and a limit on the total.
module Utf8Stream {
  import opened Bytes
  import opened Wrappers
  import opened Machine
  import opened Utf8

  datatype Chunk = Bytes(bytes: seq<byte>) | Broken

  datatype Failure = SizeLimit | Upstream

  type Output = Result<seq<byte>, Failure>

  datatype Reader = Reader(leftover: seq<byte>, total: nat)

  const EMPTY := Reader([], 0)

  // What is emitted from the buffered bytes, and what stays buffered. Input that starts
  // with an error is held back until it is clear that no more bytes will repair it.
  function Decoded(buf: seq<byte>): (r: (seq<byte>, seq<byte>)) {
    var safe := ValidUpTo(buf);
    if safe == |buf| then (buf, [])
    else if safe > 0 then (buf[..safe], buf[safe..])
    else
      ErrorAfterPrefix(buf);
      assert buf[0..] == buf;
      var needed := ErrorLen(buf).GetOr(1);
      if |buf| > 4 + needed then (Lossy(buf), []) else ([], buf)
  }

  // A chunk over the limit is dropped, not counted, and does not end the stream.
  function OnBytes(max: nat, r: Reader, c: Chunk): Step<Reader, Output> {
    match c
    case Broken => Step(r, [Err(Upstream)])
    case Bytes(bytes) =>
      if r.total + |bytes| > max then Step(r, [Err(SizeLimit)])
      else
        var (text, rest) := Decoded(r.leftover + bytes);
        Step(Reader(rest, r.total + |bytes|), [Ok(text)])
  }

  function ByteStep(max: nat): (Reader, Chunk) -> Step<Reader, Output> {
    (r: Reader, c: Chunk) => OnBytes(max, r, c)
  }

  class ByteStream {
    const maxSize: nat
    var leftover: seq<byte>
    var totalBytes: nat

    constructor (maxSize: nat)
      ensures this.maxSize == maxSize && State() == EMPTY
    {
      this.maxSize := maxSize;
      leftover := [];
      totalBytes := 0;
    }

    ghost function State(): Reader
      reads this
    {
      Reader(leftover, totalBytes)
    }

    method Next(chunk: Chunk) returns (r: Output)
      modifies this
      ensures Step(State(), [r]) == OnBytes(maxSize, old(State()), chunk)
    {
      if chunk.Broken? {
        return Err(Upstream);
      }
      var size := |chunk.bytes|;
      if totalBytes + size > maxSize {
        return Err(SizeLimit);
      }
      totalBytes := totalBytes + size;
      leftover := leftover + chunk.bytes;
      var safe := ValidUpTo(leftover);
      if safe == |leftover| {
        r := Ok(leftover);
        leftover := [];
        return;
      }
      if safe == 0 {
        ErrorAfterPrefix(leftover);
        assert leftover[0..] == leftover;
        var needed := ErrorLen(leftover).GetOr(1);
        if |leftover| > 4 + needed {
          r := Ok(Lossy(leftover));
          leftover := [];
          return;
        }
        return Ok([]);
      }
      r := Ok(leftover[..safe]);
      leftover := leftover[safe..];
    }
  }

  // ----- reassembly -----

  function TextOf(o: Output): seq<byte> {
    if o.Ok? then o.value else []
  }

  function BytesOf(c: Chunk): seq<byte> {
    if c.Bytes? then c.bytes else []
  }

  predicate AllOk(outputs: seq<Output>) {
    forall o :: o in outputs ==> o.Ok?
  }

  predicate AllBytes(chunks: seq<Chunk>) {
    forall c :: c in chunks ==> c.Bytes?
  }

  // What is emitted and what is retained, when the rest can still become text.
  lemma DecodesTo(buf: seq<byte>)
    requires Viable(buf)
    ensures var safe := ValidUpTo(buf);
            Decoded(buf) == (buf[..safe], buf[safe..]) && |buf[safe..]| <= 3 && Valid(buf[..safe])
  {
    var safe := ValidUpTo(buf);
    ValidPrefix(buf);
    ErrorAfterPrefix(buf);
    assert buf[|buf|..] == [] && buf[..|buf|] == buf && buf[0..] == buf && buf[..0] == [];
  }

  // Of viable bytes, what can be decoded is emitted and the rest is at most three bytes.
  lemma DecodesViable(emitted: seq<byte>, buf: seq<byte>)
    requires Valid(emitted) && Viable(emitted + buf)
    ensures var (text, rest) := Decoded(buf);
            && text + rest == buf && Valid(emitted + text) && |rest| <= 3
            && |emitted + text| == ValidUpTo(emitted + buf)
  {
    hide Decoded, ErrorLen, CharLen, ValidUpTo, Viable;
    ValidThen(emitted, buf);
    ViableAfter(emitted, buf);
    DecodesTo(buf);
    ValidThen(emitted, buf[..ValidUpTo(buf)]);
  }

  lemma ViableAfter(emitted: seq<byte>, buf: seq<byte>)
    requires Valid(emitted) && Viable(emitted + buf)
    ensures Viable(buf)
  {
    hide ValidUpTo, CharLen, ErrorLen;
    ValidThen(emitted, buf);
    assert (emitted + buf)[|emitted| + ValidUpTo(buf)..] == buf[ValidUpTo(buf)..];
  }

  // Nothing failed, what has been emitted is the longest valid prefix of what came in, and
  // the rest, at most three bytes, is retained.
  ghost predicate InSync(t: Step<Reader, Output>, received: seq<byte>) {
    var emitted := FlatMap(TextOf, t.events);
    && AllOk(t.events)
    && emitted + t.state.leftover == received && |emitted| == ValidUpTo(received)
    && Valid(emitted)
    && |t.state.leftover| <= 3
    && t.state.total == |received|
  }

  lemma EmitsMore(events: seq<Output>, text: seq<byte>)
    requires AllOk(events)
    ensures FlatMap(TextOf, events + [Ok(text)]) == FlatMap(TextOf, events) + text && AllOk(events + [Ok(text)])
  {
    FlatMapOne(TextOf, Ok(text));
    FlatMapConcat(TextOf, events, [Ok(text)]);
  }

  lemma StaysInSync(max: nat, t: Step<Reader, Output>, received: seq<byte>, bytes: seq<byte>)
    requires InSync(t, received) && |received + bytes| <= max && Viable(received + bytes)
    ensures var u := OnBytes(max, t.state, Bytes(bytes));
            InSync(Step(u.state, t.events + u.events), received + bytes)
  {
    hide Decoded, ValidUpTo, Viable, FlatMap, Valid, AllOk;
    var emitted, buf := FlatMap(TextOf, t.events), t.state.leftover + bytes;
    assert emitted + buf == received + bytes;
    DecodesViable(emitted, buf);
    var (text, rest) := Decoded(buf);
    EmitsMore(t.events, text);
    assert emitted + text + rest == emitted + (text + rest);
  }

  lemma NothingReceived()
    ensures InSync(Step(EMPTY, []), [])
  {
  }

  lemma ViablePrefix(s: seq<byte>, t: seq<byte>)
    requires Viable(s + t)
    ensures Viable(s)
  {
    hide Viable, Valid;
    var future := ViableExtends(s + t);
    assert s + t + future == s + (t + future);
    ExtensibleIsViable(s, t + future);
  }

  // At any point of a stream within the limit whose bytes are the start of some valid text,
  // the reader is in sync: nothing is decoded lossily.
  lemma {:induction false} EmitsLongestPrefix(max: nat, chunks: seq<Chunk>)
    requires AllBytes(chunks)
    requires |FlatMap(BytesOf, chunks)| <= max && Viable(FlatMap(BytesOf, chunks))
    ensures InSync(Run(ByteStep(max), EMPTY, chunks), FlatMap(BytesOf, chunks))
  {
    hide OnBytes, InSync, Viable;
    if chunks == [] {
      NothingReceived();
    } else {
      var before, c := chunks[..|chunks| - 1], chunks[|chunks| - 1];
      assert c in chunks && forall x :: x in before ==> x in chunks;
      ViablePrefix(FlatMap(BytesOf, before), BytesOf(c));
      EmitsLongestPrefix(max, before);
      StaysInSync(max, Run(ByteStep(max), EMPTY, before), FlatMap(BytesOf, before), c.bytes);
    }
  }

  // The whole of a valid body comes out as it went in.
  lemma ReassemblesText(max: nat, chunks: seq<Chunk>)
    requires AllBytes(chunks)
    requires |FlatMap(BytesOf, chunks)| <= max && Valid(FlatMap(BytesOf, chunks))
    ensures var t := Run(ByteStep(max), EMPTY, chunks);
            && AllOk(t.events) && t.state.leftover == []
            && FlatMap(TextOf, t.events) == FlatMap(BytesOf, chunks)
  {
    EmitsLongestPrefix(max, chunks);
  }

  lemma DecodesToText(buf: seq<byte>)
    ensures Valid(Decoded(buf).0)
  {
    ValidPrefix(buf);
    LossyIsValid(buf);
  }

  // Whatever comes in, only text goes out.
  lemma {:induction false} OnlyEmitsText(max: nat, r: Reader, chunks: seq<Chunk>)
    ensures forall o :: o in Run(ByteStep(max), r, chunks).events && o.Ok? ==> Valid(o.value)
  {
    if chunks != [] {
      var before, c := chunks[..|chunks| - 1], chunks[|chunks| - 1];
      OnlyEmitsText(max, r, before);
      var t := Run(ByteStep(max), r, before);
      if c.Bytes? {
        DecodesToText(t.state.leftover + c.bytes);
      }
      hide Decoded, Valid;
    }
  }

  // ----- the size limit, on every run -----

  // The bytes of the chunks that were not refused, counted from what came in and went out.
  function Accepted(chunks: seq<Chunk>, outputs: seq<Output>): seq<byte>
    requires |chunks| == |outputs|
  {
    if chunks == [] then []
    else
      var n := |chunks| - 1;
      Accepted(chunks[..n], outputs[..n]) +
      if chunks[n].Bytes? && outputs[n] != Err(SizeLimit) then chunks[n].bytes else []
  }

  // What a chunk is answered with: a broken one with the upstream's error, and bytes with a
  // size error exactly when they and all bytes accepted before exceed the limit.
  predicate AnsweredRight(max: nat, chunks: seq<Chunk>, outputs: seq<Output>, i: nat)
    requires i < |chunks| == |outputs|
  {
    && (outputs[i] == Err(Upstream) <==> chunks[i].Broken?)
    && (outputs[i] == Err(SizeLimit) <==>
          chunks[i].Bytes? && |Accepted(chunks[..i], outputs[..i])| + |chunks[i].bytes| > max)
  }

  ghost predicate Limited(max: nat, chunks: seq<Chunk>, t: Step<Reader, Output>) {
    && |t.events| == |chunks|
    && t.state.total == |Accepted(chunks, t.events)| <= max
    && forall i :: 0 <= i < |chunks| ==> AnsweredRight(max, chunks, t.events, i)
  }

  lemma AcceptedMore(chunks: seq<Chunk>, outputs: seq<Output>, c: Chunk, o: Output)
    requires |chunks| == |outputs|
    ensures Accepted(chunks + [c], outputs + [o]) ==
            Accepted(chunks, outputs) + if c.Bytes? && o != Err(SizeLimit) then c.bytes else []
  {
    assert (chunks + [c])[..|chunks|] == chunks && (outputs + [o])[..|chunks|] == outputs;
  }

  lemma AnsweredBefore(max: nat, chunks: seq<Chunk>, outputs: seq<Output>, c: Chunk, o: Output, i: nat)
    requires i < |chunks| == |outputs|
    ensures AnsweredRight(max, chunks + [c], outputs + [o], i) == AnsweredRight(max, chunks, outputs, i)
  {
    hide Accepted;
    assert (chunks + [c])[..i] == chunks[..i] && (outputs + [o])[..i] == outputs[..i];
  }

  lemma LimitedStep(max: nat, chunks: seq<Chunk>, t: Step<Reader, Output>, c: Chunk)
    requires Limited(max, chunks, t)
    ensures var u := OnBytes(max, t.state, c);
            Limited(max, chunks + [c], Step(u.state, t.events + u.events))
  {
    hide Decoded, Accepted;
    var u := OnBytes(max, t.state, c);
    var o := u.events[0];
    assert u.events == [o];
    AcceptedMore(chunks, t.events, c, o);
    var all, outputs := chunks + [c], t.events + [o];
    assert all[..|chunks|] == chunks && outputs[..|chunks|] == t.events;
    forall i | 0 <= i < |all|
      ensures AnsweredRight(max, all, outputs, i)
    {
      if i < |chunks| {
        AnsweredBefore(max, chunks, t.events, c, o, i);
      }
    }
  }

  // Whatever comes in: the limit is enforced to the byte, and never exceeded.
  lemma {:induction false} LimitIsEnforced(max: nat, chunks: seq<Chunk>)
    ensures Limited(max, chunks, Run(ByteStep(max), EMPTY, chunks))
  {
    assert Limited(max, [], Step(EMPTY, []));
    hide OnBytes, Limited;
    if chunks != [] {
      var before, c := chunks[..|chunks| - 1], chunks[|chunks| - 1];
      LimitIsEnforced(max, before);
      LimitedStep(max, before, Run(ByteStep(max), EMPTY, before), c);
      assert before + [c] == chunks;
    }
  }

  // The chunks that were answered with text, and those answers.
  function Kept(chunks: seq<Chunk>, outputs: seq<Output>): seq<Chunk>
    requires |chunks| == |outputs|
  {
    if chunks == [] then []
    else
      var n := |chunks| - 1;
      Kept(chunks[..n], outputs[..n]) + if outputs[n].Ok? then [chunks[n]] else []
  }

  function Oks(outputs: seq<Output>): seq<Output> {
    if outputs == [] then []
    else
      var n := |outputs| - 1;
      Oks(outputs[..n]) + if outputs[n].Ok? then [outputs[n]] else []
  }

  lemma KeptMore(chunks: seq<Chunk>, outputs: seq<Output>, c: Chunk, o: Output)
    requires |chunks| == |outputs|
    ensures Kept(chunks + [c], outputs + [o]) == Kept(chunks, outputs) + if o.Ok? then [c] else []
    ensures Oks(outputs + [o]) == Oks(outputs) + if o.Ok? then [o] else []
  {
    assert (chunks + [c])[..|chunks|] == chunks && (outputs + [o])[..|chunks|] == outputs;
  }

  ghost predicate Traceless(max: nat, chunks: seq<Chunk>, t: Step<Reader, Output>) {
    && |t.events| == |chunks|
    && Run(ByteStep(max), EMPTY, Kept(chunks, t.events)) == Step(t.state, Oks(t.events))
  }

  // A step with one answer; a failed one leaves the reader alone.
  lemma OneAnswer(max: nat, r: Reader, c: Chunk)
    ensures var u := OnBytes(max, r, c);
            |u.events| == 1 && u.events == [u.events[0]] && (u.events[0].Err? ==> u.state == r)
  {
    hide Decoded;
  }

  lemma TracelessStep(max: nat, chunks: seq<Chunk>, t: Step<Reader, Output>, c: Chunk)
    requires Traceless(max, chunks, t)
    ensures var u := OnBytes(max, t.state, c);
            Traceless(max, chunks + [c], Step(u.state, t.events + u.events))
  {
    hide OnBytes, Kept, Oks, Run;
    OneAnswer(max, t.state, c);
    var u := OnBytes(max, t.state, c);
    KeptMore(chunks, t.events, c, u.events[0]);
    RunSnoc(ByteStep(max), EMPTY, Kept(chunks, t.events), c);
    assert Kept(chunks, t.events) + [] == Kept(chunks, t.events) && Oks(t.events) + [] == Oks(t.events);
  }

  // Failed chunks leave no trace: without them the run is the same, but for their errors.
  lemma {:induction false} FailuresLeaveNoTrace(max: nat, chunks: seq<Chunk>)
    ensures Traceless(max, chunks, Run(ByteStep(max), EMPTY, chunks))
  {
    assert Traceless(max, [], Step(EMPTY, []));
    hide OnBytes, Traceless;
    if chunks != [] {
      var before, c := chunks[..|chunks| - 1], chunks[|chunks| - 1];
      FailuresLeaveNoTrace(max, before);
      TracelessStep(max, before, Run(ByteStep(max), EMPTY, before), c);
      assert before + [c] == chunks;
    }
  }

  // ----- every accepted byte, on every run -----

  // The bytes an answer was decoded from: lossy decoding of them is the answer's text.
  ghost predicate DecodedFrom(segments: seq<seq<byte>>, outputs: seq<Output>) {
    |segments| == |outputs| && forall i :: 0 <= i < |outputs| ==> Lossy(segments[i]) == TextOf(outputs[i])
  }

  ghost predicate Accounted(chunks: seq<Chunk>, t: Step<Reader, Output>, segments: seq<seq<byte>>) {
    && |t.events| == |chunks|
    && DecodedFrom(segments, t.events)
    && FlatMap(AsIs, segments) + t.state.leftover == Accepted(chunks, t.events)
  }

  // Text decodes to itself, so decoding is always lossy decoding of what leaves the buffer.
  lemma DecodesLossily(buf: seq<byte>) returns (segment: seq<byte>)
    ensures segment + Decoded(buf).1 == buf && Lossy(segment) == Decoded(buf).0
  {
    hide Lossy, CharLen, ErrorLen;
    var safe := ValidUpTo(buf);
    ValidPrefix(buf);
    LossyOfText(buf[..safe]);
    LossyOfText([]);
    segment := if Decoded(buf).1 == [] then buf else buf[..safe];
    assert buf[..|buf|] == buf && buf[..safe] + buf[safe..] == buf && buf[..0] == [];
    assert buf + [] == buf;
    assert [] + buf == buf;
    if safe == 0 {
      assert buf[..safe] == [];
    }
  }

  lemma LossyOfText(s: seq<byte>)
    requires Valid(s)
    ensures Lossy(s) == s
  {
    LossyAfterValid(s, []);
    assert s + [] == s;
    assert Lossy([]) == [];
  }

  lemma AccountedStep(max: nat, chunks: seq<Chunk>, t: Step<Reader, Output>, segments: seq<seq<byte>>, c: Chunk)
    returns (segment: seq<byte>)
    requires Accounted(chunks, t, segments)
    ensures var u := OnBytes(max, t.state, c);
            Accounted(chunks + [c], Step(u.state, t.events + u.events), segments + [segment])
  {
    hide Decoded, Accepted, Lossy, FlatMap;
    var u := OnBytes(max, t.state, c);
    var o := u.events[0];
    assert u.events == [o];
    AcceptedMore(chunks, t.events, c, o);
    LossyOfText([]);
    segment := [];
    if o.Ok? {
      segment := DecodesLossily(t.state.leftover + c.bytes);
    }
    FlatMapConcat(AsIs, segments, [segment]);
    FlatMapOne(AsIs, segment);
    var sent, rest := FlatMap(AsIs, segments), u.state.leftover;
    if o.Ok? {
      assert sent + segment + rest == sent + (segment + rest) == sent + (t.state.leftover + c.bytes) == sent + t.state.leftover + c.bytes;
    } else {
      assert sent + [] + rest == sent + rest;
    }
  }

  // Whatever comes in, every accepted byte is either retained or decoded, once and in order:
  // the answers are the lossy decodings of consecutive segments of the accepted bytes.
  lemma {:induction false} EveryByteIsAccountedFor(max: nat, chunks: seq<Chunk>) returns (segments: seq<seq<byte>>)
    ensures Accounted(chunks, Run(ByteStep(max), EMPTY, chunks), segments)
  {
    hide OnBytes, Accounted;
    if chunks == [] {
      segments := [];
      NothingToAccountFor();
    } else {
      var before, c := chunks[..|chunks| - 1], chunks[|chunks| - 1];
      var segs := EveryByteIsAccountedFor(max, before);
      var segment := AccountedStep(max, before, Run(ByteStep(max), EMPTY, before), segs, c);
      segments := segs + [segment];
      assert before + [c] == chunks;
    }
  }

  lemma NothingToAccountFor()
    ensures Accounted([], Step(EMPTY, []), [])
  {
  }

  // Bytes are held back while they are a character cut short, or up to four more than the
  // error they start with.
  lemma HeldBack(buf: seq<byte>)
    requires buf != []
    ensures Decoded(buf).0 == [] <==>
            CharLen(buf) == 0 && (Viable(buf) || |buf| <= 4 + ErrorLen(buf).value)
  {
    ErrorAfterPrefix(buf);
    assert buf[0..] == buf;
    hide CharLen, ErrorLen;
    LossyIsSomething(buf);
    hide Lossy;
    assert ValidUpTo(buf) == 0 <==> CharLen(buf) == 0;
  }

  lemma LossyIsSomething(s: seq<byte>)
    requires s != []
    ensures Lossy(s) != []
  {
  }
}
