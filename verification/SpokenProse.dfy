// The prose of a stream, as a client reassembles it: thinking and text blocks before the
// tool blocks, split where the first finish reason falls between two words of a kind.
module SpokenProse {
  import opened Wrappers
  import opened JsonValue
  import opened Machine
  import opened Converter
  import opened EventGrammar
  import opened ToolSlots
  import Endings

  // ----- what a stream says -----

  // What the records said so far: all reasoning, all content, and whether tools were heard.
  datatype Heard = Heard(reasoning: string, content: string, tools: bool)

  function Hear(h: Heard, c: Chunk): Heard {
    Heard(h.reasoning + c.reasoning, h.content + c.content, h.tools || c.tools.Some?)
  }

  const SILENCE := Heard("", "", false)

  // Reasoning comes before content, and content before tool calls.
  predicate InTurn(h: Heard, c: Chunk) {
    && (h.content != "" || h.tools ==> c.reasoning == "")
    && (h.tools ==> c.content == "")
  }

  ghost predicate OrderlyAfter(h: Heard, chunks: seq<Chunk>) {
    forall i :: 0 <= i < |chunks| ==> InTurn(Fold(Hear, h, chunks[..i]), chunks[i])
  }

  ghost predicate Orderly(chunks: seq<Chunk>) {
    OrderlyAfter(SILENCE, chunks)
  }

  // ----- the prose a client has reassembled -----

  function Prose(h: Heard): seq<Content> {
    (if h.reasoning != "" then [ThinkingContent(h.reasoning)] else []) +
    (if h.content != "" then [TextContent(h.content)] else [])
  }

  // The prose blocks of before, `base`, and those of what was heard since; then only tool
  // blocks, and none of those before tools are heard.
  ghost predicate Layered(base: seq<Content>, h: Heard, blocks: seq<Content>) {
    && base + Prose(h) <= blocks
    && (forall c :: c in base ==> !c.ToolContent?)
    && (forall i :: |base| + |Prose(h)| <= i < |blocks| ==> blocks[i].ToolContent?)
    && (!h.tools ==> |blocks| == |base| + |Prose(h)|)
  }

  // The open block is the one the last words went to.
  ghost predicate Speaking(base: seq<Content>, s: State, h: Heard, blocks: seq<Content>) {
    && Layered(base, h, blocks)
    && s.thinkingOpen == (h.reasoning != "" && h.content == "" && !h.tools)
    && s.textOpen == (h.content != "" && !h.tools)
    && |blocks| == s.next + (if ProseOpen(s) then 1 else 0)
  }

  // A block that starts with its first words, and one that goes on, seen by the client.
  lemma NewBlock(blocks: seq<Content>, b: Block, d: Delta)
    ensures Fold(Receive, blocks, [BlockStart(|blocks|, b)] + [BlockDelta(|blocks|, d)]) == blocks + [Extend(Empty(b), d)]
  {
    hide Extend, Empty, Fold;
    StartsBlock(blocks, b);
    LastBlock(blocks + [Empty(b)], d);
    FoldConcat(Receive, blocks, [BlockStart(|blocks|, b)], [BlockDelta(|blocks|, d)]);
    assert (blocks + [Empty(b)])[..|blocks|] == blocks;
  }

  lemma StartsBlock(blocks: seq<Content>, b: Block)
    ensures Fold(Receive, blocks, [BlockStart(|blocks|, b)]) == blocks + [Empty(b)]
  {
    FoldOne(Receive, blocks, BlockStart(|blocks|, b));
  }

  lemma LastBlock(blocks: seq<Content>, d: Delta)
    requires blocks != []
    ensures var last := |blocks| - 1;
            Fold(Receive, blocks, [BlockDelta(last, d)]) == blocks[..last] + [Extend(blocks[last], d)]
  {
    hide Extend;
    FoldOne(Receive, blocks, BlockDelta(|blocks| - 1, d));
  }

  lemma ReasonSpeaks(base: seq<Content>, s: State, h: Heard, blocks: seq<Content>, text: string)
    requires Speaking(base, s, h, blocks)
    requires text != "" ==> h.content == "" && !h.tools
    ensures var t := OnReasoning(s, text);
            Speaking(base, t.state, h.(reasoning := h.reasoning + text), Fold(Receive, blocks, t.events))
  {
    if text == "" {
      assert h.reasoning + text == h.reasoning;
    } else {
      assert !s.textOpen && blocks == base + Prose(h);
      var d := BlockDelta(s.next, ThinkingDelta(text));
      if s.thinkingOpen {
        LastBlock(blocks, ThinkingDelta(text));
        assert OnReasoning(s, text).events == [d];
      } else {
        NewBlock(blocks, ThinkingBlock, ThinkingDelta(text));
        assert h.reasoning == "" && "" + text == text;
        assert OnReasoning(s, text).events == [BlockStart(s.next, ThinkingBlock)] + [d];
      }
      hide Fold;
    }
  }

  lemma ContentSpeaks(base: seq<Content>, s: State, h: Heard, blocks: seq<Content>, text: string)
    requires Speaking(base, s, h, blocks)
    requires text != "" ==> !h.tools
    ensures var t := OnContent(s, text);
            Speaking(base, t.state, h.(content := h.content + text), Fold(Receive, blocks, t.events))
  {
    if text == "" {
      assert h.content + text == h.content;
    } else {
      assert blocks == base + Prose(h);
      if s.textOpen {
        LastBlock(blocks, TextDelta(text));
        assert OnContent(s, text).events == [BlockDelta(s.next, TextDelta(text))];
      } else {
        FirstContentSpeaks(base, s, h, blocks, text);
      }
    }
  }

  lemma FirstContentSpeaks(base: seq<Content>, s: State, h: Heard, blocks: seq<Content>, text: string)
    requires Speaking(base, s, h, blocks) && text != "" && !h.tools && !s.textOpen
    ensures var t := OnContent(s, text);
            Speaking(base, t.state, h.(content := h.content + text), Fold(Receive, blocks, t.events))
  {
    var c := CloseThinking(s);
    assert |blocks| == c.state.next && h.content == "" && "" + text == text;
    var start, d := BlockStart(c.state.next, TextBlock), BlockDelta(c.state.next, TextDelta(text));
    NewBlock(blocks, TextBlock, TextDelta(text));
    QuietEvents(blocks, c.events);
    FoldConcat(Receive, blocks, c.events, [start] + [d]);
    assert OnContent(s, text).events == c.events + ([start] + [d]);
    hide Fold, CloseThinking;
  }

  lemma SealSpeaks(base: seq<Content>, s: State, h: Heard, blocks: seq<Content>)
    requires Speaking(base, s, h, blocks)
    ensures var t := SealProse(s);
            Speaking(base, t.state, h.(tools := true), Fold(Receive, blocks, t.events))
  {
    StillLayered(base, h, blocks);
    hide Layered, Fold;
    var t := SealProse(s);
    assert !t.state.textOpen && !t.state.thinkingOpen && |blocks| == t.state.next;
    QuietEvents(blocks, t.events);
  }

  lemma StillLayered(base: seq<Content>, h: Heard, blocks: seq<Content>)
    requires Layered(base, h, blocks)
    ensures Layered(base, h.(tools := true), blocks)
  {
  }

  // Tool events leave the prose as it is.
  lemma ToolStartLayers(base: seq<Content>, h: Heard, blocks: seq<Content>, id: string, name: string)
    requires Layered(base, h, blocks) && h.tools
    ensures var after := Fold(Receive, blocks, [BlockStart(|blocks|, ToolBlock(id, name))]);
            Layered(base, h, after) && |after| == |blocks| + 1
  {
    FoldOne(Receive, blocks, BlockStart(|blocks|, ToolBlock(id, name)));
    hide Prose, Fold;
  }

  lemma ArgumentsLayer(base: seq<Content>, h: Heard, blocks: seq<Content>, b: nat, json: string)
    requires Layered(base, h, blocks) && h.tools
    ensures var after := Fold(Receive, blocks, [BlockDelta(b, InputJson(json))]);
            Layered(base, h, after) && |after| == |blocks|
  {
    FoldOne(Receive, blocks, BlockDelta(b, InputJson(json)));
    var p := base + Prose(h);
    if b < |p| {
      assert blocks[b] == p[b];
      assert !p[b].ToolContent?;
      assert blocks[b := blocks[b]] == blocks;
    }
    hide Fold;
  }

  lemma CallSpeaks(base: seq<Content>, search: SearchOrder, s: State, h: Heard, blocks: seq<Content>, f: Fragment)
    requires Speaking(base, s, h, blocks) && h.tools
    ensures var t := OnFragment(search, s, f);
            Speaking(base, t.state, h, Fold(Receive, blocks, t.events))
  {
    var slot, u := Resolve(search, s, f).0, Touch(search, s, f);
    assert Speaking(base, u, h, blocks) && !ProseOpen(u);
    var c := if IsNewCall(u.slots, slot, f.id) then OpenCall(u, slot, f) else Step(u, []);
    if IsNewCall(u.slots, slot, f.id) {
      ToolStartLayers(base, h, blocks, c.state.slots[slot].id, f.name);
    }
    hide OpenCall, Layered, Resolve, Touch;
    var after := Fold(Receive, blocks, c.events);
    assert Speaking(base, c.state, h, after);
    if f.args != "" {
      var b := c.state.slots[slot].block;
      ArgumentsLayer(base, h, after, b, f.args);
      FoldConcat(Receive, blocks, c.events, [BlockDelta(b, InputJson(f.args))]);
    }
  }

  lemma {:induction false} CallsSpeak(base: seq<Content>, search: SearchOrder, s: State, h: Heard, blocks: seq<Content>, fs: seq<Fragment>)
    requires Speaking(base, s, h, blocks) && h.tools
    ensures var t := Run(OpStep(search), s, CallOps(fs));
            Speaking(base, t.state, h, Fold(Receive, blocks, t.events))
  {
    hide Speaking, OnFragment;
    if fs == [] {
      assert CallOps(fs) == [];
    } else {
      var before, f := fs[..|fs| - 1], fs[|fs| - 1];
      assert CallOps(fs) == CallOps(before) + [Op.Call(f)];
      CallsSpeak(base, search, s, h, blocks, before);
      var t := Run(OpStep(search), s, CallOps(before));
      CallSpeaks(base, search, t.state, h, Fold(Receive, blocks, t.events), f);
      RunSnoc(OpStep(search), s, CallOps(before), Op.Call(f));
      FoldConcat(Receive, blocks, t.events, OnFragment(search, t.state, f).events);
    }
  }

  function BodyOps(c: Chunk): seq<Op> {
    [Begin, Reason(c.reasoning), Op.Content(c.content)] + ToolOps(c.tools)
  }

  lemma ToolsSpeak(base: seq<Content>, search: SearchOrder, s: State, h: Heard, blocks: seq<Content>, tools: Option<seq<Fragment>>)
    requires Speaking(base, s, h, blocks)
    ensures var t := Run(OpStep(search), s, ToolOps(tools));
            Speaking(base, t.state, h.(tools := h.tools || tools.Some?), Fold(Receive, blocks, t.events))
  {
    hide Speaking, SealProse, OnFragment, Fold, Run, CallOps;
    if tools.Some? {
      SealSpeaks(base, s, h, blocks);
      var a := SealProse(s);
      var b := Run(OpStep(search), a.state, CallOps(tools.value));
      CallsSpeak(base, search, a.state, h.(tools := true), Fold(Receive, blocks, a.events), tools.value);
      RunOne(OpStep(search), s, Seal);
      RunConcat(OpStep(search), s, [Seal], CallOps(tools.value));
      FoldConcat(Receive, blocks, a.events, b.events);
    } else {
      NothingSaid(search, s, blocks);
    }
  }

  lemma NothingSaid(search: SearchOrder, s: State, blocks: seq<Content>)
    ensures Run(OpStep(search), s, ToolOps(None)) == Step(s, []) && Fold(Receive, blocks, []) == blocks
  {
  }

  lemma StartSpeaks(base: seq<Content>, s: State, h: Heard, blocks: seq<Content>)
    requires Speaking(base, s, h, blocks)
    ensures Speaking(base, Start(s).state, h, blocks) && Fold(Receive, blocks, Start(s).events) == blocks
  {
    hide Layered;
    QuietEvents(blocks, Start(s).events);
  }

  lemma ProseSpeaks(base: seq<Content>, search: SearchOrder, s: State, h: Heard, blocks: seq<Content>, reasoning: string, content: string)
    requires Speaking(base, s, h, blocks)
    requires reasoning != "" ==> h.content == "" && !h.tools
    requires content != "" ==> !h.tools
    ensures var t := Run(OpStep(search), s, [Begin, Reason(reasoning), Op.Content(content)]);
            Speaking(base, t.state, Heard(h.reasoning + reasoning, h.content + content, h.tools), Fold(Receive, blocks, t.events))
  {
    hide Speaking, OnReasoning, OnContent, Start, Fold, Run;
    var a := Start(s);
    StartSpeaks(base, s, h, blocks);
    var b := OnReasoning(a.state, reasoning);
    var c := OnContent(b.state, content);
    var heard := h.(reasoning := h.reasoning + reasoning);
    ReasonSpeaks(base, a.state, h, blocks, reasoning);
    ContentSpeaks(base, b.state, heard, Fold(Receive, blocks, b.events), content);
    RunThree(OpStep(search), s, Begin, Reason(reasoning), Op.Content(content));
    FoldConcat(Receive, blocks, a.events, b.events);
    FoldConcat(Receive, blocks, a.events + b.events, c.events);
  }

  lemma BodySpeaks(base: seq<Content>, search: SearchOrder, s: State, h: Heard, blocks: seq<Content>, c: Chunk)
    requires Speaking(base, s, h, blocks) && InTurn(h, c)
    ensures var t := Run(OpStep(search), s, BodyOps(c));
            Speaking(base, t.state, Hear(h, c), Fold(Receive, blocks, t.events))
  {
    hide Speaking;
    var prose := [Begin, Reason(c.reasoning), Op.Content(c.content)];
    ProseSpeaks(base, search, s, h, blocks, c.reasoning, c.content);
    var a := Run(OpStep(search), s, prose);
    var heard := Heard(h.reasoning + c.reasoning, h.content + c.content, h.tools);
    ToolsSpeak(base, search, a.state, heard, Fold(Receive, blocks, a.events), c.tools);
    var b := Run(OpStep(search), a.state, ToolOps(c.tools));
    RunConcat(OpStep(search), s, prose, ToolOps(c.tools));
    FoldConcat(Receive, blocks, a.events, b.events);
  }

  // ----- whole streams -----

  function DataOf(chunks: seq<Chunk>): seq<Input> {
    seq(|chunks|, i requires 0 <= i < |chunks| => Data(chunks[i]))
  }

  lemma OrderlyPrefix(h: Heard, chunks: seq<Chunk>)
    requires OrderlyAfter(h, chunks) && chunks != []
    ensures OrderlyAfter(h, chunks[..|chunks| - 1])
    ensures InTurn(Fold(Hear, h, chunks[..|chunks| - 1]), chunks[|chunks| - 1])
  {
    var before := chunks[..|chunks| - 1];
    forall i | 0 <= i < |before|
      ensures InTurn(Fold(Hear, h, before[..i]), before[i])
    {
      assert before[..i] == chunks[..i];
    }
  }

  ghost predicate SpeaksSoFar(base: seq<Content>, t: Transition, h: Heard) {
    Speaking(base, t.state, h, Reassemble(t.events))
  }

  lemma InitialSpeaks()
    ensures SpeaksSoFar([], Step(INITIAL, []), SILENCE)
  {
  }

  // A record's words, followed by operations that say nothing.
  lemma RecordSpeaks(search: SearchOrder, base: seq<Content>, t: Transition, h: Heard, c: Chunk)
    requires SpeaksSoFar(base, t, h) && InTurn(h, c)
    ensures var u := Run(OpStep(search), t.state, BodyOps(c));
            SpeaksSoFar(base, Step(u.state, t.events + u.events), Hear(h, c)) && u.state.ended == t.state.ended
  {
    hide Speaking, InTurn, Hear, OnOp, Run;
    BodySpeaks(base, search, t.state, h, Reassemble(t.events), c);
    FoldConcat(Receive, [], t.events, Run(OpStep(search), t.state, BodyOps(c)).events);
    Endings.RunSilently(search, t.state, BodyOps(c));
  }

  // After message_stop a finish reason does nothing; before, it stops the open block, and
  // words that follow start another.
  lemma FinishSpeaks(base: seq<Content>, s: State, h: Heard, blocks: seq<Content>, reason: string)
    requires Speaking(base, s, h, blocks)
    ensures var t := CloseWithReason(s, reason);
            && Fold(Receive, blocks, t.events) == blocks && t.state.ended
            && (if s.ended then t.state == s else Speaking(base + Prose(h), t.state, Heard("", "", h.tools), blocks))
  {
    CloseIsQuiet(s, reason);
    QuietEvents(blocks, CloseWithReason(s, reason).events);
    if !s.ended {
      StopsProse(s, reason);
      StartsAfresh(base, h, blocks);
      hide Layered, Fold, CloseWithReason;
    }
  }

  lemma StopsProse(s: State, reason: string)
    requires !s.ended
    ensures var t := CloseWithReason(s, reason).state;
            && !t.textOpen && !t.thinkingOpen && t.ended
            && (!(s.textOpen && s.thinkingOpen) ==> t.next == s.next + (if ProseOpen(s) then 1 else 0))
  {
    hide ToolStops, StopReason;
  }

  lemma StartsAfresh(base: seq<Content>, h: Heard, blocks: seq<Content>)
    requires Layered(base, h, blocks)
    ensures Layered(base + Prose(h), Heard("", "", h.tools), blocks)
  {
    var p := base + Prose(h);
    assert Prose(Heard("", "", h.tools)) == [] && p + [] == p;
    forall c | c in p ensures !c.ToolContent? {
      assert c in base || c in Prose(h);
    }
  }

  // Records none of which ends the message: there is no finish reason, or it has ended.
  ghost predicate NoneEnds(s: State, chunks: seq<Chunk>) {
    s.ended || forall c :: c in chunks ==> c.finish.None?
  }

  lemma PlainRecordSpeaks(search: SearchOrder, base: seq<Content>, t: Transition, h: Heard, c: Chunk)
    requires SpeaksSoFar(base, t, h) && InTurn(h, c) && (t.state.ended || c.finish.None?)
    ensures var u := Run(OpStep(search), t.state, ChunkOps(c));
            SpeaksSoFar(base, Step(u.state, t.events + u.events), Hear(h, c)) && u.state.ended == t.state.ended
  {
    hide SpeaksSoFar, InTurn, Hear, OnOp, BodyOps, Run;
    RecordSpeaks(search, base, t, h, c);
    var u := Run(OpStep(search), t.state, BodyOps(c));
    FinishIs(search, t.state, c);
    if c.finish.Some? {
      assert u.events + [] == u.events;
    }
  }

  // A record is its words and its finish reason, if it has one.
  lemma FinishIs(search: SearchOrder, s: State, c: Chunk)
    ensures var a := Run(OpStep(search), s, BodyOps(c));
            Run(OpStep(search), s, ChunkOps(c)) ==
            if c.finish.None? then a
            else var b := CloseWithReason(a.state, c.finish.value); Step(b.state, a.events + b.events)
  {
    hide BodyOps, CloseWithReason;
    RecordIs(c);
    if c.finish.Some? {
      RunSnoc(OpStep(search), s, BodyOps(c), Finish(c.finish.value));
    }
  }

  lemma RecordIs(c: Chunk)
    ensures ChunkOps(c) == BodyOps(c) + FinishOps(c.finish)
    ensures c.finish.None? ==> ChunkOps(c) == BodyOps(c)
  {
  }

  lemma {:induction false} RecordsSpeak(search: SearchOrder, base: seq<Content>, t: Transition, h: Heard, chunks: seq<Chunk>)
    requires SpeaksSoFar(base, t, h) && OrderlyAfter(h, chunks) && NoneEnds(t.state, chunks)
    ensures var u := Run(OpStep(search), t.state, OpsOf(DataOf(chunks)));
            && SpeaksSoFar(base, Step(u.state, t.events + u.events), Fold(Hear, h, chunks))
            && u.state.ended == t.state.ended
  {
    hide OnOp, SpeaksSoFar, OrderlyAfter, InTurn, Hear, ChunkOps;
    if chunks == [] {
      assert DataOf(chunks) == [] && t.events + [] == t.events;
    } else {
      var before, c := chunks[..|chunks| - 1], chunks[|chunks| - 1];
      assert c in chunks && forall x :: x in before ==> x in chunks;
      OrderlyPrefix(h, chunks);
      RecordsSpeak(search, base, t, h, before);
      assert DataOf(chunks) == DataOf(before) + [Data(c)];
      RunOneMore(search, t.state, DataOf(before), Data(c));
      var u := Run(OpStep(search), t.state, OpsOf(DataOf(before)));
      PlainRecordSpeaks(search, base, Step(u.state, t.events + u.events), Fold(Hear, h, before), c);
      var v := Run(OpStep(search), u.state, ChunkOps(c));
      assert t.events + u.events + v.events == t.events + (u.events + v.events);
    }
  }

  // In every prefix without a finish reason.
  lemma StreamSpeaks(search: SearchOrder, chunks: seq<Chunk>)
    requires Orderly(chunks) && forall c :: c in chunks ==> c.finish.None?
    ensures SpeaksSoFar([], Run(OpStep(search), INITIAL, OpsOf(DataOf(chunks))), Fold(Hear, SILENCE, chunks))
  {
    hide SpeaksSoFar, OrderlyAfter, Run;
    InitialSpeaks();
    RecordsSpeak(search, [], Step(INITIAL, []), SILENCE, chunks);
    var u := Run(OpStep(search), INITIAL, OpsOf(DataOf(chunks)));
    assert [] + u.events == u.events;
  }

  // ----- the first finish reason -----

  // How many records there are up to and including the first with a finish reason.
  function UpToFinish(chunks: seq<Chunk>): (n: nat)
    ensures n <= |chunks|
    ensures forall i :: 0 <= i < n - 1 ==> chunks[i].finish.None?
    ensures n < |chunks| ==> n > 0 && chunks[n - 1].finish.Some?
  {
    if chunks == [] then 0
    else if chunks[0].finish.Some? then 1
    else 1 + UpToFinish(chunks[1..])
  }

  function FirstFinish(chunks: seq<Chunk>): Option<string> {
    var n := UpToFinish(chunks);
    if n == 0 then None else chunks[n - 1].finish
  }

  // What was heard in one stretch and then in another.
  function Both(a: Heard, b: Heard): Heard {
    Heard(a.reasoning + b.reasoning, a.content + b.content, a.tools || b.tools)
  }

  lemma {:induction false} HearFrom(a: Heard, chunks: seq<Chunk>)
    ensures Fold(Hear, a, chunks) == Both(a, Fold(Hear, SILENCE, chunks))
  {
    if chunks != [] {
      HearFrom(a, chunks[..|chunks| - 1]);
      hide Hear;
    }
  }

  lemma OrderlyLater(head: seq<Chunk>, tail: seq<Chunk>)
    requires Orderly(head + tail)
    ensures Orderly(head) && OrderlyAfter(Heard("", "", Fold(Hear, SILENCE, head).tools), tail)
  {
    var a := Fold(Hear, SILENCE, head);
    var all, h := head + tail, Heard("", "", a.tools);
    forall i | 0 <= i < |head| ensures InTurn(Fold(Hear, SILENCE, head[..i]), head[i]) {
      assert head[..i] == all[..i] && head[i] == all[i];
    }
    forall i | 0 <= i < |tail| ensures InTurn(Fold(Hear, h, tail[..i]), tail[i]) {
      assert all[..|head| + i] == head + tail[..i] && all[|head| + i] == tail[i];
      FoldConcat(Hear, SILENCE, head, tail[..i]);
      HearFrom(a, tail[..i]);
      HearFrom(h, tail[..i]);
    }
  }

  // The prose a stream leaves behind: that of its first stretch, up to the first finish
  // reason, and that of the records after it.
  ghost predicate LeavesProse(t: Transition, head: Heard, late: Heard) {
    Layered(Prose(head), Heard(late.reasoning, late.content, head.tools || late.tools), Reassemble(t.events))
  }

  lemma {:induction false} NotYetEnding(chunks: seq<Chunk>)
    requires forall c :: c in chunks ==> c.finish.None?
    ensures Endings.Ending(DataOf(chunks)).None?
  {
    if chunks != [] {
      var before := chunks[..|chunks| - 1];
      assert chunks[|chunks| - 1] in chunks && forall x :: x in before ==> x in chunks;
      NotYetEnding(before);
      assert DataOf(chunks)[..|before|] == DataOf(before);
    }
  }

  // The record with the first finish reason: its words, then the end of its last block.
  lemma EndingRecordSpeaks(search: SearchOrder, t: Transition, h: Heard, c: Chunk)
    requires SpeaksSoFar([], t, h) && InTurn(h, c) && !t.state.ended && c.finish.Some?
    ensures var u := Run(OpStep(search), t.state, ChunkOps(c));
            var a := Hear(h, c);
            SpeaksSoFar(Prose(a), Step(u.state, t.events + u.events), Heard("", "", a.tools)) && u.state.ended
  {
    hide OnOp, Speaking, InTurn, Hear, ChunkOps, BodyOps, Run, CloseWithReason, Prose;
    RecordSpeaks(search, [], t, h, c);
    FinishIs(search, t.state, c);
    var u := Run(OpStep(search), t.state, BodyOps(c));
    FinishSpeaks([], u.state, Hear(h, c), Reassemble(t.events + u.events), c.finish.value);
    var v := CloseWithReason(u.state, c.finish.value);
    FoldConcat(Receive, [], t.events + u.events, v.events);
    assert t.events + (u.events + v.events) == t.events + u.events + v.events;
    assert [] + Prose(Hear(h, c)) == Prose(Hear(h, c));
  }

  lemma HeadSpeaks(search: SearchOrder, before: seq<Chunk>, c: Chunk)
    requires Orderly(before + [c]) && c.finish.Some? && forall x :: x in before ==> x.finish.None?
    ensures var t := Run(OpStep(search), INITIAL, OpsOf(DataOf(before + [c])));
            var a := Fold(Hear, SILENCE, before + [c]);
            SpeaksSoFar(Prose(a), t, Heard("", "", a.tools)) && t.state.ended
  {
    hide OnOp, SpeaksSoFar, OrderlyAfter, InTurn, Hear, ChunkOps, Run, OpsOf, Prose;
    OneMoreRecord(before, c);
    OrderlyPrefix(SILENCE, before + [c]);
    StreamSpeaks(search, before);
    Endings.ReportsItsEnding(search, DataOf(before));
    NotYetEnding(before);
    RunOneMore(search, INITIAL, DataOf(before), Data(c));
    EndingRecordSpeaks(search, Run(OpStep(search), INITIAL, OpsOf(DataOf(before))), Fold(Hear, SILENCE, before), c);
  }

  lemma OneMoreRecord(before: seq<Chunk>, c: Chunk)
    ensures var all := before + [c];
            && all[..|all| - 1] == before && all[|all| - 1] == c
            && DataOf(all) == DataOf(before) + [Data(c)]
            && Fold(Hear, SILENCE, all) == Hear(Fold(Hear, SILENCE, before), c)
  {
    FoldSnoc(Hear, SILENCE, before, c);
  }

  lemma CloseIsQuiet(s: State, reason: string)
    ensures forall e :: e in CloseWithReason(s, reason).events ==> Quiet(e)
  {
    var a := SealProse(s.(ended := true));
    StopsAreQuiet(a.state.slots, a.state.order);
    assert forall e :: e in a.events ==> Quiet(e);
    hide SealProse, ToolStops;
  }

  function StreamOf(chunks: seq<Chunk>): seq<Input> {
    DataOf(chunks) + [Done]
  }

  lemma DoneIsQuiet(search: SearchOrder, inputs: seq<Input>)
    ensures Reassemble(Run(OpStep(search), INITIAL, OpsOf(inputs + [Done])).events) ==
            Reassemble(Run(OpStep(search), INITIAL, OpsOf(inputs)).events)
  {
    hide CloseWithReason;
    var t := Run(OpStep(search), INITIAL, OpsOf(inputs));
    RunOneMore(search, INITIAL, inputs, Done);
    RunOne(OpStep(search), t.state, Close);
    CloseIsQuiet(t.state, "stop");
    var u := CloseStream(t.state);
    QuietEvents(Reassemble(t.events), u.events);
    FoldConcat(Receive, [], t.events, u.events);
  }

  lemma LayersSoFar(base: seq<Content>, t: Transition, h: Heard)
    requires SpeaksSoFar(base, t, h)
    ensures Layered(base, h, Reassemble(t.events))
  {
  }

  lemma DataOfBoth(search: SearchOrder, xs: seq<Chunk>, ys: seq<Chunk>)
    ensures var a := Run(OpStep(search), INITIAL, OpsOf(DataOf(xs)));
            var b := Run(OpStep(search), a.state, OpsOf(DataOf(ys)));
            Run(OpStep(search), INITIAL, OpsOf(DataOf(xs + ys))) == Step(b.state, a.events + b.events)
  {
    hide OnOp, InputOps;
    assert DataOf(xs + ys) == DataOf(xs) + DataOf(ys);
    FlatMapConcat(InputOps, DataOf(xs), DataOf(ys));
    RunConcat(OpStep(search), INITIAL, OpsOf(DataOf(xs)), OpsOf(DataOf(ys)));
  }

  lemma EndedStreamLayers(search: SearchOrder, before: seq<Chunk>, c: Chunk, tail: seq<Chunk>)
    requires Orderly(before + [c] + tail) && c.finish.Some? && forall x :: x in before ==> x.finish.None?
    ensures LeavesProse(
              Run(OpStep(search), INITIAL, OpsOf(DataOf(before + [c] + tail))),
              Fold(Hear, SILENCE, before + [c]), Fold(Hear, SILENCE, tail))
  {
    hide OnOp, Layered, SpeaksSoFar, OrderlyAfter, Hear, OpsOf, DataOf, NoneEnds, Fold, Run, Prose;
    var head := before + [c];
    OrderlyLater(head, tail);
    HeadSpeaks(search, before, c);
    var t, a := Run(OpStep(search), INITIAL, OpsOf(DataOf(head))), Fold(Hear, SILENCE, head);
    var h := Heard("", "", a.tools);
    EndedEndsNot(t.state, tail);
    RecordsSpeak(search, Prose(a), t, h, tail);
    DataOfBoth(search, head, tail);
    HearFrom(h, tail);
    BothSilent(a.tools, Fold(Hear, SILENCE, tail));
    LayersSoFar(Prose(a), Run(OpStep(search), INITIAL, OpsOf(DataOf(head + tail))), Fold(Hear, h, tail));
  }

  lemma BothSilent(tools: bool, late: Heard)
    ensures Both(Heard("", "", tools), late) == Heard(late.reasoning, late.content, tools || late.tools)
  {
    assert "" + late.reasoning == late.reasoning && "" + late.content == late.content;
  }

  lemma EndedEndsNot(s: State, chunks: seq<Chunk>)
    requires s.ended
    ensures NoneEnds(s, chunks)
  {
  }

  lemma StreamLayers(search: SearchOrder, chunks: seq<Chunk>)
    requires Orderly(chunks)
    ensures var n := UpToFinish(chunks);
            LeavesProse(
              Run(OpStep(search), INITIAL, OpsOf(StreamOf(chunks))),
              Fold(Hear, SILENCE, chunks[..n]), Fold(Hear, SILENCE, chunks[n..]))
  {
    hide OnOp, Layered, OrderlyAfter, InTurn, Hear, OpsOf, Run, UpToFinish;
    var n := UpToFinish(chunks);
    assert chunks == chunks[..n] + chunks[n..];
    DoneIsQuiet(search, DataOf(chunks));
    if FirstFinish(chunks).Some? {
      assert chunks[..n] == chunks[..n - 1] + [chunks[n - 1]];
      EndedStreamLayers(search, chunks[..n - 1], chunks[n - 1], chunks[n..]);
    } else {
      assert chunks[..n] == chunks && chunks[n..] == [];
      StreamSpeaks(search, chunks);
      var t := Run(OpStep(search), INITIAL, OpsOf(DataOf(chunks)));
      StartsAfresh([], Fold(Hear, SILENCE, chunks), Reassemble(t.events));
      assert [] + Prose(Fold(Hear, SILENCE, chunks)) == Prose(Fold(Hear, SILENCE, chunks));
    }
  }
}
