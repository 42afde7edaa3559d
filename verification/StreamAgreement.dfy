// Streaming and non-streaming translation agree: what a client reassembles from the
// converted stream is what the translator makes of the assembled OpenAI message.
module StreamAgreement {
  import opened Wrappers
  import opened JsonValue
  import opened Machine
  import opened Converter
  import opened ToolSlots
  import opened SpokenProse
  import opened Response
  import Endings

  // ----- the message a stream amounts to -----

  function ChunkFragments(c: Chunk): seq<Fragment> {
    c.tools.GetOr([])
  }

  // The stream names no call before its first fragments, which then open a call without an
  // id. Only the first call can be such a one.
  predicate Anonymous(fs: seq<Fragment>) {
    fs != [] && fs[0].id.None?
  }

  // The calls as sent in one message: each with the first name any of its fragments gives it.
  function Assemble(c: Calls, f: Fragment): Calls {
    var k := Target(c, f);
    if k < |c.list| then
      var name := if c.list[k].name == "" then f.name else c.list[k].name;
      c.(list := c.list[k := More(c.list[k], f.args).(name := name)], last := k)
    else Accumulate(c, f)
  }

  // A fragment that gives a call its first name, and is not the call's first.
  predicate NamesLate(c: Calls, f: Fragment) {
    var k := Target(c, f);
    k < |c.list| && c.list[k].name == "" && f.name != ""
  }

  predicate LateNames(fs: seq<Fragment>) {
    exists i :: 0 <= i < |fs| && NamesLate(Fold(Assemble, NO_CALLS, fs[..i]), fs[i])
  }

  function CallJson(c: ToolCall, named: bool): Json {
    Obj(map[
      "id" := if named then Str(c.id) else Null,
      "function" := Obj(map["name" := Str(c.name), "arguments" := Str(c.args)])])
  }

  function CallsJson(calls: seq<ToolCall>, anonymous: bool): seq<Json> {
    seq(|calls|, i requires 0 <= i < |calls| => CallJson(calls[i], i > 0 || !anonymous))
  }

  // The completion a non-streaming upstream would have sent.
  function Completion(h: Heard, calls: seq<ToolCall>, anonymous: bool, finish: Option<string>): Json {
    var message := Obj(map[
      "reasoning_content" := Str(h.reasoning), "content" := Str(h.content),
      "tool_calls" := Arr(CallsJson(calls, anonymous))]);
    var reason := if finish.Some? then Str(finish.value) else Null;
    Obj(map["choices" := Arr([Obj(map["message" := message, "finish_reason" := reason])])])
  }

  // A reassembled block as the client would have received it in a message.
  function Render(read: JsonReader, c: Content): Json {
    match c
    case TextContent(text) => TextJson(text)
    case ThinkingContent(text) => ThinkingJson(text)
    case ToolContent(call) => ToolUseJson(Str(call.id), Str(call.name), read(call.args).GetOr(EMPTY_OBJECT))
  }

  function RenderAll(read: JsonReader, blocks: seq<Content>): seq<Json> {
    seq(|blocks|, i requires 0 <= i < |blocks| => Render(read, blocks[i]))
  }

  // ----- from layered blocks to the message's content -----

  lemma ProseHasNoCalls(h: Heard)
    ensures FlatMap(CallIn, Prose(h)) == []
  {
    var a := if h.reasoning != "" then [ThinkingContent(h.reasoning)] else [];
    var b := if h.content != "" then [TextContent(h.content)] else [];
    FlatMapOne(CallIn, ThinkingContent(h.reasoning));
    FlatMapOne(CallIn, TextContent(h.content));
    FlatMapConcat(CallIn, a, b);
  }

  lemma {:induction false} ToolsAreCalls(blocks: seq<Content>)
    requires forall c :: c in blocks ==> c.ToolContent?
    ensures var calls := FlatMap(CallIn, blocks);
            |calls| == |blocks| && forall i :: 0 <= i < |blocks| ==> blocks[i] == ToolContent(calls[i])
  {
    if blocks != [] {
      var before := blocks[..|blocks| - 1];
      assert blocks[|blocks| - 1] in blocks && forall c :: c in before ==> c in blocks;
      ToolsAreCalls(before);
    }
  }

  // Layered blocks are the prose, then one tool block per call.
  lemma LayersSplit(base: seq<Content>, h: Heard, calls: seq<ToolCall>, blocks: seq<Content>)
    requires Layered(base, h, blocks) && FlatMap(CallIn, base) == [] && FlatMap(CallIn, blocks) == calls
    ensures var p := base + Prose(h);
            && |blocks| == |p| + |calls| && blocks[..|p|] == p
            && forall i :: 0 <= i < |calls| ==> blocks[|p| + i] == ToolContent(calls[i])
  {
    hide FlatMap, Prose;
    var p := base + Prose(h);
    var tools := blocks[|p|..];
    assert blocks == p + tools;
    FlatMapConcat(CallIn, p, tools);
    FlatMapConcat(CallIn, base, Prose(h));
    ProseHasNoCalls(h);
    LayeredTools(base, h, blocks);
    ToolsAreCalls(tools);
    assert [] + [] + FlatMap(CallIn, tools) == FlatMap(CallIn, tools);
  }

  lemma LayeredTools(base: seq<Content>, h: Heard, blocks: seq<Content>)
    requires Layered(base, h, blocks)
    ensures var p := base + Prose(h);
            p <= blocks && forall c :: c in blocks[|p|..] ==> c.ToolContent?
  {
    hide Prose;
  }

  lemma RenderAllConcat(read: JsonReader, xs: seq<Content>, ys: seq<Content>)
    ensures RenderAll(read, xs + ys) == RenderAll(read, xs) + RenderAll(read, ys)
  {
  }

  // No words of one kind both before and after the first finish reason.
  predicate Unbroken(head: Heard, late: Heard) {
    (head.reasoning == "" || late.reasoning == "") && (head.content == "" || late.content == "")
  }

  lemma ProseInTwo(a: Heard, b: Heard)
    requires a.content != "" ==> b.reasoning == ""
    ensures var p := Prose(a) + Prose(b);
            if Unbroken(a, b) then p == Prose(Both(a, b)) else |p| > |Prose(Both(a, b))|
  {
    assert a.reasoning + "" == a.reasoning && a.content + "" == a.content;
    assert "" + b.reasoning == b.reasoning && "" + b.content == b.content;
  }

  // Rendered prose and calls against a message's, when the prose is longer or the same.
  lemma SameOrNot(p: seq<Json>, q: seq<Json>, xs: seq<Json>, ys: seq<Json>)
    requires |xs| == |ys| && (p == q || |p| > |q|)
    ensures p + xs == q + ys <==> p == q && xs == ys
  {
    if p + xs == q + ys {
      assert |p + xs| == |p| + |xs|;
      assert xs == (p + xs)[|p|..] && ys == (q + ys)[|q|..];
    }
  }

  // The same calls, up to names that came late.
  ghost predicate Alike(calls: seq<ToolCall>, sent: seq<ToolCall>) {
    |calls| == |sent| && forall k :: 0 <= k < |calls| ==> calls[k].id == sent[k].id && calls[k].args == sent[k].args
  }

  lemma RendersAsMessage(
      read: JsonReader, a: Heard, late: Heard, h: Heard, calls: seq<ToolCall>, sent: seq<ToolCall>, anonymous: bool,
      finish: Option<string>, blocks: seq<Content>)
    requires Layered(Prose(a), h, blocks) && FlatMap(CallIn, blocks) == calls && Prose(h) == Prose(late)
    requires a.content != "" ==> late.reasoning == ""
    requires Alike(calls, sent) && (anonymous ==> calls != [])
    ensures RenderAll(read, blocks) ==
            MessageBlocks(read, Choice(Completion(Both(a, late), sent, anonymous, finish)).GetOrNull("message"))
            <==> Unbroken(a, late) && !anonymous && calls == sent
    ensures |blocks| == |Prose(a)| + |Prose(late)| + |calls|
  {
    hide Completion, Choice, RenderAll, Prose, FlatMap, ToolUses, CallsJson, TextJson, ThinkingJson, Layered, Reasoning, Both, Unbroken, Alike;
    ProseHasNoCalls(a);
    LayersSplit(Prose(a), h, calls, blocks);
    var p, q := Prose(a) + Prose(late), Prose(Both(a, late));
    var tools := blocks[|p|..];
    assert blocks == p + tools;
    RenderAllConcat(read, p, tools);
    RenderedLength(read, p);
    RenderedLength(read, q);
    ProseInTwo(a, late);
    RendersProse(read, Both(a, late));
    RendersCalls(read, calls, sent, anonymous, tools);
    CompletionFields(Both(a, late), sent, anonymous, finish);
    SameOrNot(RenderAll(read, p), RenderAll(read, q), RenderAll(read, tools), ToolUses(read, CallsJson(sent, anonymous)));
  }

  lemma RenderedLength(read: JsonReader, blocks: seq<Content>)
    ensures |RenderAll(read, blocks)| == |blocks|
  {
  }

  lemma RendersProse(read: JsonReader, h: Heard)
    ensures RenderAll(read, Prose(h)) ==
            (if h.reasoning != "" then [ThinkingJson(h.reasoning)] else []) +
            (if h.content != "" then [TextJson(h.content)] else [])
  {
    hide TextJson, ThinkingJson;
  }

  lemma RendersCall(read: JsonReader, call: ToolCall, sent: ToolCall, named: bool)
    requires call.id == sent.id && call.args == sent.args
    ensures ToolUse(read, CallJson(sent, named)) == Render(read, ToolContent(call)) <==> named && call == sent
  {
    var j := CallJson(sent, named);
    var id := if named then Str(sent.id) else Null;
    var fn := Obj(map["name" := Str(sent.name), "arguments" := Str(sent.args)]);
    assert j.Get("id") == Some(id) && j.Get("function") == Some(fn);
    assert fn.Get("name") == Some(Str(sent.name)) && fn.GetStr("arguments") == Some(sent.args);
    var input := read(call.args).GetOr(EMPTY_OBJECT);
    UseIsRead(id, Str(sent.name), input);
    UseIsRead(Str(call.id), Str(call.name), input);
    hide CallJson, ToolUseJson;
  }

  lemma UseIsRead(id: Json, name: Json, input: Json)
    ensures ToolUseJson(id, name, input).Get("id") == Some(id) && ToolUseJson(id, name, input).Get("name") == Some(name)
  {
  }

  lemma RendersCalls(read: JsonReader, calls: seq<ToolCall>, sent: seq<ToolCall>, anonymous: bool, tools: seq<Content>)
    requires |calls| == |tools| && forall i :: 0 <= i < |tools| ==> tools[i] == ToolContent(calls[i])
    requires Alike(calls, sent) && (anonymous ==> calls != [])
    ensures |RenderAll(read, tools)| == |ToolUses(read, CallsJson(sent, anonymous))|
    ensures RenderAll(read, tools) == ToolUses(read, CallsJson(sent, anonymous)) <==> !anonymous && calls == sent
  {
    hide ToolUse, Render, CallJson;
    var uses := ToolUses(read, CallsJson(sent, anonymous));
    forall i | 0 <= i < |tools|
      ensures RenderAll(read, tools)[i] == uses[i] <==> (i > 0 || !anonymous) && calls[i] == sent[i]
    {
      RendersCall(read, calls[i], sent[i], i > 0 || !anonymous);
    }
    if anonymous {
      assert RenderAll(read, tools)[0] != uses[0];
    } else if calls != sent {
      var i :| 0 <= i < |calls| && calls[i] != sent[i];
      assert RenderAll(read, tools)[i] != uses[i];
    }
  }

  lemma CompletionFields(h: Heard, calls: seq<ToolCall>, anonymous: bool, finish: Option<string>)
    ensures var choice := Choice(Completion(h, calls, anonymous, finish));
            var message := choice.GetOrNull("message");
            && Reasoning(message) == Some(h.reasoning)
            && message.GetStr("content") == Some(h.content)
            && message.GetArr("tool_calls") == Some(CallsJson(calls, anonymous))
            && choice.GetStr("finish_reason") == finish
  {
    var message := Obj(map[
      "reasoning_content" := Str(h.reasoning), "content" := Str(h.content),
      "tool_calls" := Arr(CallsJson(calls, anonymous))]);
    var choice := Obj(map["message" := message, "finish_reason" := if finish.Some? then Str(finish.value) else Null]);
    assert choice.Get("message") == Some(message);
    assert Choice(Completion(h, calls, anonymous, finish)) == choice;
  }

  // ----- the agreement -----

  lemma {:induction false} StreamFragments(chunks: seq<Chunk>)
    ensures FlatMap(FragmentsOf, DataOf(chunks)) == FlatMap(ChunkFragments, chunks)
    ensures FlatMap(FragmentsOf, StreamOf(chunks)) == FlatMap(ChunkFragments, chunks)
  {
    if chunks == [] {
      assert DataOf(chunks) == [];
    } else {
      var before := chunks[..|chunks| - 1];
      StreamFragments(before);
      assert DataOf(chunks)[..|before|] == DataOf(before);
    }
    FlatMapOne(FragmentsOf, Done);
    FlatMapConcat(FragmentsOf, DataOf(chunks), [Done]);
  }

  lemma FragmentsMakeCalls(fs: seq<Fragment>)
    requires fs != []
    ensures Fold(Accumulate, NO_CALLS, fs).list != []
  {
    var c := Fold(Accumulate, NO_CALLS, fs[..|fs| - 1]);
    assert Accumulate(c, fs[|fs| - 1]).list != [];
  }

  lemma {:induction false} EndingStays(xs: seq<Input>, ys: seq<Input>)
    requires Endings.Ending(xs).Some?
    ensures Endings.Ending(xs + ys) == Endings.Ending(xs)
  {
    if ys == [] {
      assert xs + ys == xs;
    } else {
      assert (xs + ys)[..|xs + ys| - 1] == xs + ys[..|ys| - 1];
      EndingStays(xs, ys[..|ys| - 1]);
    }
  }

  lemma RecordsEnding(chunks: seq<Chunk>)
    ensures Endings.Ending(DataOf(chunks)) == FirstFinish(chunks)
  {
    var n := UpToFinish(chunks);
    if FirstFinish(chunks).Some? {
      var before, head := chunks[..n - 1], chunks[..n];
      NotYetEnding(before);
      assert DataOf(head)[..n - 1] == DataOf(before) && DataOf(head)[n - 1] == Data(chunks[n - 1]);
      EndingStays(DataOf(head), DataOf(chunks[n..]));
      assert DataOf(chunks) == DataOf(head) + DataOf(chunks[n..]);
    } else {
      NotYetEnding(chunks);
    }
  }

  lemma StreamEnding(chunks: seq<Chunk>)
    requires chunks != []
    ensures Endings.Ending(StreamOf(chunks)) == Some(FirstFinish(chunks).GetOr("stop"))
  {
    RecordsEnding(chunks);
    var all := DataOf(chunks);
    assert Endings.HasRecord(all) by { assert all[0].Data?; }
    assert StreamOf(chunks)[..|all|] == all;
    hide FirstFinish;
  }

  lemma {:induction false} LateReasoning(head: seq<Chunk>, tail: seq<Chunk>)
    requires Orderly(head + tail) && Fold(Hear, SILENCE, head).content != ""
    ensures Fold(Hear, SILENCE, tail).reasoning == ""
  {
    hide OrderlyAfter;
    if tail != [] {
      var before, c := tail[..|tail| - 1], tail[|tail| - 1];
      LastOfBoth(head, tail);
      OrderlyPrefix(SILENCE, head + tail);
      LateReasoning(head, before);
    }
  }

  lemma LastOfBoth(head: seq<Chunk>, tail: seq<Chunk>)
    requires tail != []
    ensures var before, all := tail[..|tail| - 1], head + tail;
            && all[..|all| - 1] == head + before && all[|all| - 1] == tail[|tail| - 1]
            && Fold(Hear, SILENCE, head + before) == Both(Fold(Hear, SILENCE, head), Fold(Hear, SILENCE, before))
  {
    hide Hear, Both;
    var before := tail[..|tail| - 1];
    FoldConcat(Hear, SILENCE, head, before);
    HearFrom(Fold(Hear, SILENCE, head), before);
  }

  // ----- names -----

  lemma {:induction false} SamePosition(xs: seq<ToolCall>, ys: seq<ToolCall>, id: string)
    requires Alike(xs, ys)
    ensures PositionOf(xs, id) == PositionOf(ys, id)
  {
    if xs != [] {
      SamePosition(xs[1..], ys[1..], id);
    }
  }

  // What the converter made of some fragments, and what one message would have made of them.
  ghost predicate Parallel(a: Calls, b: Calls) {
    && Alike(a.list, b.list) && a.last == b.last && a.drawn == b.drawn
    && forall k :: 0 <= k < |a.list| ==> a.list[k].name in {b.list[k].name, ""}
  }

  lemma ParallelStep(a: Calls, b: Calls, f: Fragment)
    requires Parallel(a, b)
    ensures var c, d := Accumulate(a, f), Assemble(b, f);
            Parallel(c, d) && (c.list == d.list <==> a.list == b.list && !NamesLate(b, f))
  {
    if f.index.None? && f.id.Some? {
      SamePosition(a.list, b.list, f.id.value);
    }
    hide PositionOf;
    var k, c, d := Target(a, f), Accumulate(a, f), Assemble(b, f);
    assert k == Target(b, f);
    if a.list != b.list {
      var j :| 0 <= j < |a.list| && a.list[j] != b.list[j];
      assert c.list[j] != d.list[j];
    } else if k < |a.list| {
      assert c.list[k] == d.list[k] <==> !NamesLate(b, f);
      assert forall j :: 0 <= j < |a.list| && j != k ==> c.list[j] == d.list[j];
      assert |c.list| == |d.list| == |a.list|;
    }
  }

  // The names are the same if and only if none comes late.
  lemma {:induction false} NamesAgree(fs: seq<Fragment>)
    ensures var a, b := Fold(Accumulate, NO_CALLS, fs), Fold(Assemble, NO_CALLS, fs);
            Parallel(a, b) && (a.list == b.list <==> !LateNames(fs))
  {
    hide Accumulate, Assemble, NamesLate, Alike;
    if fs == [] {
      assert Alike([], []) by { NothingAlike(); }
    } else {
      var before, f := fs[..|fs| - 1], fs[|fs| - 1];
      NamesAgree(before);
      ParallelStep(Fold(Accumulate, NO_CALLS, before), Fold(Assemble, NO_CALLS, before), f);
      LastLate(fs);
    }
  }

  lemma NothingAlike()
    ensures Alike([], [])
  {
  }

  lemma LastLate(fs: seq<Fragment>)
    requires fs != []
    ensures var before, f := fs[..|fs| - 1], fs[|fs| - 1];
            LateNames(fs) <==> LateNames(before) || NamesLate(Fold(Assemble, NO_CALLS, before), f)
  {
    hide Fold, NamesLate;
    var before := fs[..|fs| - 1];
    assert forall i :: 0 <= i < |before| ==> fs[..i] == before[..i] && fs[i] == before[i];
    if LateNames(before) {
      var i :| 0 <= i < |before| && NamesLate(Fold(Assemble, NO_CALLS, before[..i]), before[i]);
      assert NamesLate(Fold(Assemble, NO_CALLS, fs[..i]), fs[i]);
    }
  }

  // What a client is sent by the stream is what it would have been sent as one message: the
  // same blocks, with parsed arguments, and the same stop reason, that of the first finish
  // reason, whatever follows it. The blocks agree if and only if the message is not empty,
  // the first finish reason cuts no thinking or text in two, the first call has an id, and
  // no call gets its first name after its first fragment.
  ghost predicate AsOneMessage(read: JsonReader, chunks: seq<Chunk>, events: seq<Event>) {
    var n, fragments := UpToFinish(chunks), FlatMap(ChunkFragments, chunks);
    var head, late, heard := Fold(Hear, SILENCE, chunks[..n]), Fold(Hear, SILENCE, chunks[n..]), Fold(Hear, SILENCE, chunks);
    var sent := Fold(Assemble, NO_CALLS, fragments).list;
    var completion := Completion(heard, sent, Anonymous(fragments), FirstFinish(chunks));
    && (RenderAll(read, Reassemble(events)) == ContentBlocks(read, completion)
        <==>
        && (heard.reasoning != "" || heard.content != "" || sent != [])
        && Unbroken(head, late)
        && !Anonymous(fragments)
        && !LateNames(fragments))
    && FlatMap(Endings.Reported, events) == [StopReasonOf(completion)]
  }

  lemma StreamingAgrees(search: SearchOrder, read: JsonReader, chunks: seq<Chunk>)
    requires ListsKeys(search) && Orderly(chunks) && chunks != []
    requires Regular(FlatMap(ChunkFragments, chunks))
    ensures AsOneMessage(read, chunks, Run(OpStep(search), INITIAL, OpsOf(StreamOf(chunks))).events)
  {
    hide OnOp, Run, Fold, FlatMap, Completion, Choice, ContentBlocks, StopReason, Regular, OrderlyAfter, ListsKeys, UpToFinish, FirstFinish, Receive, LeavesProse, Unbroken, LateNames;
    var t := Run(OpStep(search), INITIAL, OpsOf(StreamOf(chunks)));
    var n, fragments := UpToFinish(chunks), FlatMap(ChunkFragments, chunks);
    var calls, sent := Fold(Accumulate, NO_CALLS, fragments).list, Fold(Assemble, NO_CALLS, fragments).list;
    StreamLayers(search, chunks);
    StreamCalls(search, chunks);
    NamesAgree(fragments);
    StreamEnding(chunks);
    Endings.ReportsItsEnding(search, StreamOf(chunks));
    assert chunks[..n] + chunks[n..] == chunks;
    Agrees(read, t, chunks[..n], chunks[n..], calls, sent, Anonymous(fragments), FirstFinish(chunks));
    CompletionFields(Fold(Hear, SILENCE, chunks), sent, Anonymous(fragments), FirstFinish(chunks));
    Endings.StopReasonIsMapped(FirstFinish(chunks).GetOr("stop"));
    hide Endings.Mapped;
  }

  lemma StreamCalls(search: SearchOrder, chunks: seq<Chunk>)
    requires ListsKeys(search) && Regular(FlatMap(ChunkFragments, chunks))
    ensures var fragments := FlatMap(ChunkFragments, chunks);
            var calls := Fold(Accumulate, NO_CALLS, fragments).list;
            && FlatMap(CallIn, Reassemble(Run(OpStep(search), INITIAL, OpsOf(StreamOf(chunks))).events)) == calls
            && (fragments != [] ==> calls != [])
  {
    hide OnOp, Run, Fold, FlatMap, Regular, ListsKeys;
    StreamFragments(chunks);
    FragmentsReachTheirCall(search, StreamOf(chunks));
    if FlatMap(ChunkFragments, chunks) != [] {
      FragmentsMakeCalls(FlatMap(ChunkFragments, chunks));
    }
  }

  lemma Agrees(
      read: JsonReader, t: Transition, xs: seq<Chunk>, ys: seq<Chunk>, calls: seq<ToolCall>, sent: seq<ToolCall>,
      anonymous: bool, finish: Option<string>)
    requires Orderly(xs + ys) && FlatMap(CallIn, Reassemble(t.events)) == calls && (anonymous ==> calls != [])
    requires LeavesProse(t, Fold(Hear, SILENCE, xs), Fold(Hear, SILENCE, ys)) && Alike(calls, sent)
    ensures var head, late, heard := Fold(Hear, SILENCE, xs), Fold(Hear, SILENCE, ys), Fold(Hear, SILENCE, xs + ys);
            RenderAll(read, Reassemble(t.events)) == ContentBlocks(read, Completion(heard, sent, anonymous, finish))
            <==>
            && (heard.reasoning != "" || heard.content != "" || sent != [])
            && Unbroken(head, late)
            && !anonymous
            && calls == sent
  {
    var head, late, heard := Fold(Hear, SILENCE, xs), Fold(Hear, SILENCE, ys), Fold(Hear, SILENCE, xs + ys);
    FoldConcat(Hear, SILENCE, xs, ys);
    HearFrom(head, ys);
    if head.content != "" {
      LateReasoning(xs, ys);
    }
    var h := Heard(late.reasoning, late.content, head.tools || late.tools);
    hide OrderlyAfter, Fold, FlatMap, RenderAll, Completion, Choice, MessageBlocks, Layered, TextJson;
    RendersAsMessage(read, head, late, h, calls, sent, anonymous, finish, Reassemble(t.events));
    RenderedLength(read, Reassemble(t.events));
    MessageLength(read, heard, sent, anonymous, finish);
  }

  lemma MessageLength(read: JsonReader, h: Heard, calls: seq<ToolCall>, anonymous: bool, finish: Option<string>)
    ensures |MessageBlocks(read, Choice(Completion(h, calls, anonymous, finish)).GetOrNull("message"))| ==
            |Prose(h)| + |calls|
  {
    hide Completion, Choice, TextJson, ThinkingJson, Reasoning, ToolUse, CallJson;
    CompletionFields(h, calls, anonymous, finish);
  }

  // ----- a name that comes late -----

  const NAMELESS := Fragment(Some(0), Some("a"), "", "")
  const NAME := Fragment(Some(0), None, "f", "{}")
  const LATE_NAME := [Chunk("", "", Some([NAMELESS]), None), Chunk("", "", Some([NAME]), Some("tool_calls"))]

  lemma LateNameFragments()
    ensures FlatMap(ChunkFragments, LATE_NAME) == [NAMELESS, NAME]
  {
    FlatMapOne(ChunkFragments, LATE_NAME[0]);
    FlatMapConcat(ChunkFragments, [LATE_NAME[0]], [LATE_NAME[1]]);
    FlatMapOne(ChunkFragments, LATE_NAME[1]);
    assert LATE_NAME == [LATE_NAME[0]] + [LATE_NAME[1]];
  }

  const ONE_CALL := Calls([ToolCall("a", "", "")], 0, 0)

  lemma NamelessFirst()
    ensures Fold(Accumulate, NO_CALLS, [NAMELESS, NAME][..1]) == ONE_CALL == Fold(Assemble, NO_CALLS, [NAMELESS, NAME][..1])
  {
    assert [NAMELESS, NAME][..1] == [NAMELESS];
    FoldOne(Accumulate, NO_CALLS, NAMELESS);
    FoldOne(Assemble, NO_CALLS, NAMELESS);
  }

  lemma ThenNamed()
    ensures Permitted(NO_CALLS, NAMELESS) && Permitted(ONE_CALL, NAME) && NamesLate(ONE_CALL, NAME)
    ensures Assemble(ONE_CALL, NAME).list == [ToolCall("a", "f", "{}")]
  {
    assert More(ToolCall("a", "", ""), "{}").args == "{}";
  }

  lemma LateNameIs()
    ensures Regular([NAMELESS, NAME]) && LateNames([NAMELESS, NAME])
    ensures Fold(Assemble, NO_CALLS, [NAMELESS, NAME]).list == [ToolCall("a", "f", "{}")]
  {
    hide Accumulate, Assemble, Permitted, NamesLate;
    var fs := [NAMELESS, NAME];
    NamelessFirst();
    ThenNamed();
    assert fs[..0] == [] && fs[..2] == fs;
    assert NamesLate(Fold(Assemble, NO_CALLS, fs[..1]), fs[1]);
    FoldOneMore(Assemble, NO_CALLS, fs, 1);
  }

  lemma LateNameIsOrderly()
    ensures Orderly(LATE_NAME) && Fold(Hear, SILENCE, LATE_NAME) == Heard("", "", true)
    ensures FirstFinish(LATE_NAME) == Some("tool_calls") && LATE_NAME != []
  {
  }

  // The client is sent a call without the name that one message would have given it.
  lemma LateNameIsLost(search: SearchOrder, read: JsonReader)
    requires ListsKeys(search)
    ensures var events := Run(OpStep(search), INITIAL, OpsOf(StreamOf(LATE_NAME))).events;
            RenderAll(read, Reassemble(events)) !=
            ContentBlocks(read, Completion(Heard("", "", true), [ToolCall("a", "f", "{}")], false, Some("tool_calls")))
  {
    LateNameFragments();
    LateNameIs();
    LateNameIsOrderly();
    NotAnonymous();
    hide *;
    StreamingAgrees(search, read, LATE_NAME);
    NotAsOneMessage(read, Run(OpStep(search), INITIAL, OpsOf(StreamOf(LATE_NAME))).events);
  }

  lemma NotAsOneMessage(read: JsonReader, events: seq<Event>)
    requires AsOneMessage(read, LATE_NAME, events)
    requires FlatMap(ChunkFragments, LATE_NAME) == [NAMELESS, NAME] && LateNames([NAMELESS, NAME]) && !Anonymous([NAMELESS, NAME])
    requires Fold(Hear, SILENCE, LATE_NAME) == Heard("", "", true) && FirstFinish(LATE_NAME) == Some("tool_calls")
    requires Fold(Assemble, NO_CALLS, [NAMELESS, NAME]).list == [ToolCall("a", "f", "{}")]
    ensures RenderAll(read, Reassemble(events)) !=
            ContentBlocks(read, Completion(Heard("", "", true), [ToolCall("a", "f", "{}")], false, Some("tool_calls")))
  {
    hide Fold, FlatMap, RenderAll, Reassemble, ContentBlocks, Completion, LateNames, Unbroken, Anonymous, StopReasonOf, UpToFinish, FirstFinish;
  }

  lemma NotAnonymous()
    ensures !Anonymous([NAMELESS, NAME])
  {
  }
}
