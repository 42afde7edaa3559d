// Tool calls and their answers in the translated conversation: OpenAI wants an assistant
// message with tool calls to be followed at once by one tool message for each call.
module Adjacency {
  import opened Wrappers
  import opened JsonValue
  import opened Machine
  import opened Request

  // ----- what OpenAI demands of a list of messages -----

  predicate IsTool(m: Json) {
    m.GetStr("role") == Some("tool")
  }

  function ToolId(m: Json): string {
    m.GetStr("tool_call_id").GetOr("")
  }

  function Ids(calls: seq<Json>): seq<string> {
    seq(|calls|, i requires 0 <= i < |calls| => calls[i].GetStr("id").GetOr(""))
  }

  function CallIds(m: Json): seq<string> {
    if IsTool(m) then [] else Ids(m.GetArr("tool_calls").GetOr([]))
  }

  function AnswerIds(m: Json): seq<string> {
    if IsTool(m) then [ToolId(m)] else []
  }

  // The calls still to be answered, or the knowledge that the demand was violated.
  datatype Pairing = Broken | Pending(ids: multiset<string>)

  const IDLE := Pending(multiset{})

  function PairMessage(p: Pairing, m: Json): Pairing {
    if p.Broken? then Broken
    else if IsTool(m) then
      if ToolId(m) in p.ids then Pending(p.ids - multiset{ToolId(m)}) else Broken
    else if p != IDLE then Broken
    else Pending(multiset(CallIds(m)))
  }

  ghost predicate WellPaired(out: seq<Json>) {
    Fold(PairMessage, IDLE, out) == IDLE
  }

  // Messages that settle `ids`: first a tool message for each of them, then no further one.
  ghost predicate Settles(ids: multiset<string>, out: seq<Json>) {
    && |ids| <= |out|
    && (forall j :: 0 <= j < |ids| ==> IsTool(out[j]))
    && multiset(FlatMap(AnswerIds, out[..|ids|])) == ids
    && (|ids| < |out| ==> !IsTool(out[|ids|]))
  }

  // The same demand by positions.
  ghost predicate CallsAreAnswered(out: seq<Json>) {
    && (forall k: nat :: k < |out| && !IsTool(out[k]) ==> Settles(multiset(CallIds(out[k])), out[k + 1..]))
    && (|out| > 0 ==> !IsTool(out[0]))
  }

  lemma {:induction false} BrokenStays(xs: seq<Json>)
    ensures Fold(PairMessage, Broken, xs) == Broken
  {
    if xs != [] {
      BrokenStays(xs[..|xs| - 1]);
    }
  }

  lemma PeelFirst(p: Pairing, out: seq<Json>)
    requires out != []
    ensures Fold(PairMessage, p, out) == Fold(PairMessage, PairMessage(p, out[0]), out[1..])
    ensures FlatMap(AnswerIds, out) == AnswerIds(out[0]) + FlatMap(AnswerIds, out[1..])
  {
    hide PairMessage, AnswerIds;
    FoldConcat(PairMessage, p, [out[0]], out[1..]);
    FoldOne(PairMessage, p, out[0]);
    FlatMapConcat(AnswerIds, [out[0]], out[1..]);
    FlatMapOne(AnswerIds, out[0]);
    assert [out[0]] + out[1..] == out;
  }

  lemma {:induction false} PendingIsSettled(ids: multiset<string>, out: seq<Json>)
    requires Fold(PairMessage, Pending(ids), out) == IDLE
    ensures Settles(ids, out)
    decreases |out|
  {
    if out == [] {
    } else {
      PeelFirst(Pending(ids), out);
      BrokenStays(out[1..]);
      if IsTool(out[0]) {
        var rest := ids - multiset{ToolId(out[0])};
        PendingIsSettled(rest, out[1..]);
        SettleOne(ids, out);
      } else {
        assert ids == multiset{};
        assert out[..0] == [];
      }
    }
  }

  lemma AnswersTaken(out: seq<Json>, n: nat)
    requires 0 < n <= |out| && IsTool(out[0])
    ensures multiset(FlatMap(AnswerIds, out[..n])) ==
            multiset([ToolId(out[0])]) + multiset(FlatMap(AnswerIds, out[1..][..n - 1]))
  {
    assert out[..n][0] == out[0] && out[..n][1..] == out[1..][..n - 1];
    PeelFirst(IDLE, out[..n]);
  }

  lemma SettleOne(ids: multiset<string>, out: seq<Json>)
    requires out != [] && IsTool(out[0]) && ToolId(out[0]) in ids
    requires Settles(ids - multiset{ToolId(out[0])}, out[1..])
    ensures Settles(ids, out)
  {
    hide FlatMap, IsTool, ToolId;
    var id, tail := ToolId(out[0]), out[1..];
    AnswersTaken(out, |ids|);
    forall j | 0 < j < |ids| ensures IsTool(out[j]) {
      assert tail[j - 1] == out[j];
    }
    assert |ids| < |out| ==> tail[|ids| - 1] == out[|ids|];
  }

  lemma SplitAt(out: seq<Json>, k: nat)
    requires k < |out|
    ensures var p := Fold(PairMessage, IDLE, out[..k]);
            Fold(PairMessage, IDLE, out) == Fold(PairMessage, PairMessage(p, out[k]), out[k + 1..])
  {
    hide PairMessage;
    FoldConcat(PairMessage, IDLE, out[..k], out[k..]);
    assert out[..k] + out[k..] == out;
    assert out[k..][0] == out[k] && out[k..][1..] == out[k + 1..];
    PeelFirst(Fold(PairMessage, IDLE, out[..k]), out[k..]);
  }

  lemma PairedAt(out: seq<Json>, k: nat)
    requires WellPaired(out) && k < |out| && !IsTool(out[k])
    ensures Settles(multiset(CallIds(out[k])), out[k + 1..])
  {
    hide Settles;
    SplitAt(out, k);
    BrokenStays(out[k + 1..]);
    PendingIsSettled(multiset(CallIds(out[k])), out[k + 1..]);
  }

  lemma PairedIsAnswered(out: seq<Json>)
    requires WellPaired(out)
    ensures CallsAreAnswered(out)
  {
    hide Settles;
    forall k: nat | k < |out| && !IsTool(out[k]) ensures Settles(multiset(CallIds(out[k])), out[k + 1..]) {
      PairedAt(out, k);
    }
    if out != [] {
      PeelFirst(IDLE, out);
      BrokenStays(out[1..]);
    }
  }

  lemma {:induction false} SettlingIsPaired(ids: multiset<string>, out: seq<Json>)
    requires Settles(ids, out) && |ids| <= |out|
    ensures Fold(PairMessage, Pending(ids), out[..|ids|]) == IDLE
    decreases |out|
  {
    hide Settles, PairMessage, IsTool, ToolId;
    if |ids| == 0 {
      assert ids == multiset{} && out[..0] == [];
    } else {
      FirstIsWanted(ids, out);
      var rest := ids - multiset{ToolId(out[0])};
      SettlingIsPaired(rest, out[1..]);
      PeelFirst(Pending(ids), out[..|ids|]);
      assert out[..|ids|][1..] == out[1..][..|rest|];
    }
  }

  lemma FirstIsWanted(ids: multiset<string>, out: seq<Json>)
    requires Settles(ids, out) && |ids| > 0
    ensures PairMessage(Pending(ids), out[0]) == Pending(ids - multiset{ToolId(out[0])})
    ensures |ids - multiset{ToolId(out[0])}| == |ids| - 1
    ensures Settles(ids - multiset{ToolId(out[0])}, out[1..])
  {
    hide FlatMap, IsTool, ToolId;
    var tail := out[1..];
    AnswersTaken(out, |ids|);
    var id := ToolId(out[0]);
    assert id in multiset([id]);
    assert multiset(FlatMap(AnswerIds, tail[..|ids| - 1])) == ids - multiset{id};
    forall j | 0 <= j < |ids| - 1 ensures IsTool(tail[j]) {
      assert tail[j] == out[j + 1];
    }
    assert |ids| < |out| ==> tail[|ids| - 1] == out[|ids|];
  }

  lemma AnsweredTail(out: seq<Json>, n: nat)
    requires CallsAreAnswered(out) && n <= |out| && (n < |out| ==> !IsTool(out[n]))
    ensures CallsAreAnswered(out[n..])
  {
    hide Settles, IsTool, CallIds;
    var tail := out[n..];
    forall k: nat | k < |tail| && !IsTool(tail[k]) ensures Settles(multiset(CallIds(tail[k])), tail[k + 1..]) {
      assert tail[k] == out[n + k] && tail[k + 1..] == out[n + k + 1..];
    }
  }

  lemma AnsweredHead(out: seq<Json>)
    requires CallsAreAnswered(out) && out != []
    ensures !IsTool(out[0]) && Settles(multiset(CallIds(out[0])), out[1..])
  {
    hide Settles, IsTool, CallIds;
    assert out[0 + 1..] == out[1..];
  }

  lemma Cut<T>(xs: seq<T>, n: nat)
    requires n + 1 <= |xs|
    ensures xs[1..] == xs[1..][..n] + xs[n + 1..]
  {
  }

  // A message, the answers to its calls, and the rest.
  lemma PairedFromHead(out: seq<Json>, n: nat)
    requires out != [] && !IsTool(out[0])
    requires n + 1 <= |out| && Fold(PairMessage, Pending(multiset(CallIds(out[0]))), out[1..][..n]) == IDLE
    ensures Fold(PairMessage, IDLE, out) == Fold(PairMessage, IDLE, out[n + 1..])
  {
    Cut(out, n);
    PeelFirst(IDLE, out);
    FoldConcat(PairMessage, Pending(multiset(CallIds(out[0]))), out[1..][..n], out[n + 1..]);
  }

  lemma {:induction false} AnsweredIsPaired(out: seq<Json>)
    requires CallsAreAnswered(out)
    ensures WellPaired(out)
    decreases |out|
  {
    hide Settles, CallsAreAnswered, PairMessage, IsTool;
    if out != [] {
      AnsweredHead(out);
      var ids := multiset(CallIds(out[0]));
      NextIsNoTool(ids, out);
      AnsweredTail(out, |ids| + 1);
      AnsweredIsPaired(out[|ids| + 1..]);
      SettlingIsPaired(ids, out[1..]);
      PairedFromHead(out, |ids|);
    }
  }

  lemma NextIsNoTool(ids: multiset<string>, out: seq<Json>)
    requires out != [] && Settles(ids, out[1..])
    ensures |ids| + 1 <= |out| && (|ids| + 1 < |out| ==> !IsTool(out[|ids| + 1]))
  {
    hide FlatMap, IsTool;
    assert |ids| + 1 < |out| ==> out[1..][|ids|] == out[|ids| + 1];
  }

  // The machine and the positions say the same.
  lemma PairedMeansAnswered(out: seq<Json>)
    ensures WellPaired(out) <==> CallsAreAnswered(out)
  {
    hide WellPaired, CallsAreAnswered;
    if WellPaired(out) {
      PairedIsAnswered(out);
    }
    if CallsAreAnswered(out) {
      AnsweredIsPaired(out);
    }
  }

  // ----- turns of an Anthropic conversation -----

  // What matters of a turn: the ids it calls, the ids it answers and whether it says
  // anything else; or that it says nothing OpenAI can be told.
  datatype Turn = Silent | Plain | Calls(ids: seq<string>) | Results(ids: seq<string>, more: bool)

  function UseId(b: Json): seq<string> {
    if IsToolUse(b) then [b.GetStr("id").GetOr("")] else []
  }

  function ResultId(b: Json): seq<string> {
    if IsToolResult(b) then [b.GetStr("tool_use_id").GetOr("")] else []
  }

  predicate SaysMore(blocks: seq<Json>) {
    exists b :: b in blocks && !IsToolResult(b) && !IsThinking(b)
  }

  function AssistantTurn(blocks: seq<Json>): Turn {
    var ids := FlatMap(UseId, blocks);
    if ids != [] then Calls(ids)
    else if forall b :: b in blocks ==> IsThinking(b) then Silent
    else Plain
  }

  // A turn sent as one message of its own role. With the role "tool" that is an answer
  // without an id, which reads as the empty id.
  function OneMessage(role: string): Turn {
    if role == "tool" then Results([""], false) else Plain
  }

  function UserTurn(role: string, blocks: seq<Json>): Turn {
    var ids := FlatMap(ResultId, blocks);
    if ids != [] then Results(ids, SaysMore(blocks)) else OneMessage(role)
  }

  function TurnOf(msg: Json): Turn {
    var content := msg.Get("content");
    if content.Some? && content.value.Arr? then
      if Role(msg) == "assistant" then AssistantTurn(content.value.items) else UserTurn(Role(msg), content.value.items)
    else OneMessage(Role(msg))
  }

  function Turns(msgs: seq<Json>): seq<Turn> {
    seq(|msgs|, i requires 0 <= i < |msgs| => TurnOf(msgs[i]))
  }

  // The demand on the turns: results may be spread over several turns, but nothing else is
  // said while a call is unanswered.
  function PairTurn(p: Pairing, t: Turn): Pairing {
    match t
    case Silent => p
    case Plain => if p == IDLE then IDLE else Broken
    case Calls(ids) => if p == IDLE then Pending(multiset(ids)) else Broken
    case Results(ids, more) => Answer(p, ids, more)
  }

  function Answer(p: Pairing, ids: seq<string>, more: bool): Pairing {
    if p.Broken? || !(multiset(ids) <= p.ids) then Broken
    else if more && p.ids != multiset(ids) then Broken
    else Pending(p.ids - multiset(ids))
  }

  lemma PlainReads(show: JsonPrinter, role: string, content: Option<Json>)
    ensures var m := PlainMessage(show, role, content);
            && IsTool(m) == (role == "tool") && ToolId(m) == ""
            && CallIds(m) == [] && AnswerIds(m) == if role == "tool" then [""] else []
  {
    hide PlainContent;
  }

  lemma PlainTurn(show: JsonPrinter, p: Pairing, role: string, content: Option<Json>)
    ensures Fold(PairMessage, p, [PlainMessage(show, role, content)]) == PairTurn(p, OneMessage(role))
  {
    hide PlainMessage, IsTool, ToolId, CallIds;
    var m := PlainMessage(show, role, content);
    FoldOne(PairMessage, p, m);
    PlainReads(show, role, content);
    if role == "tool" {
      AnswerOneMore(p, [], m);
      assert [] + [ToolId(m)] == [""];
    }
  }

  lemma {:induction false} UsesHaveIds(show: JsonPrinter, blocks: seq<Json>)
    ensures |Uses(blocks)| == |FlatMap(UseId, blocks)|
    ensures forall i :: 0 <= i < |Uses(blocks)| ==> Uses(blocks)[i].GetStr("id").GetOr("") == FlatMap(UseId, blocks)[i]
  {
    if blocks != [] {
      UsesHaveIds(show, blocks[..|blocks| - 1]);
    }
  }

  lemma CallHasId(show: JsonPrinter, b: Json, index: nat)
    ensures ToolCall(show, b, index).GetStr("id").GetOr("") == b.GetStr("id").GetOr("")
  {
  }

  lemma CallsCarryIds(show: JsonPrinter, content: Json, blocks: seq<Json>)
    ensures var m := CallsMessage(content, ToolCalls(show, Uses(blocks)));
            !IsTool(m) && CallIds(m) == FlatMap(UseId, blocks)
  {
    hide ToolCall, FlatMap;
    UsesHaveIds(show, blocks);
    var uses := Uses(blocks);
    forall i | 0 <= i < |uses| ensures Ids(ToolCalls(show, uses))[i] == FlatMap(UseId, blocks)[i] {
      CallHasId(show, uses[i], i);
    }
    assert Ids(ToolCalls(show, uses)) == FlatMap(UseId, blocks);
  }

  lemma {:induction false} AllThinking(blocks: seq<Json>)
    ensures WithoutThinking(blocks) == [] <==> forall b :: b in blocks ==> IsThinking(b)
  {
    if blocks != [] {
      AllThinking(blocks[..|blocks| - 1]);
      assert forall b :: b in blocks <==> b in blocks[..|blocks| - 1] || b == blocks[|blocks| - 1];
    }
  }

  lemma AssistantPairs(show: JsonPrinter, p: Pairing, blocks: seq<Json>)
    ensures Fold(PairMessage, p, ExpandAssistant(show, blocks)) == PairTurn(p, AssistantTurn(blocks))
  {
    hide FlatMap, IsThinking, PlainMessage, CallsMessage;
    UsesHaveIds(show, blocks);
    AllThinking(blocks);
    if Uses(blocks) != [] {
      var content := SaidContent(FlatMap(SaidText, blocks));
      CallsCarryIds(show, content, blocks);
      FoldOne(PairMessage, p, CallsMessage(content, ToolCalls(show, Uses(blocks))));
    } else if WithoutThinking(blocks) == [] {
    } else {
      PlainTurn(show, p, "assistant", Some(Arr(WithoutThinking(blocks))));
    }
  }

  lemma ToolAnswers(show: JsonPrinter, b: Json)
    requires IsToolResult(b)
    ensures IsTool(ToolMessage(show, b)) && [ToolId(ToolMessage(show, b))] == ResultId(b)
  {
    hide ResultContent;
  }

  lemma OneMoreFits(ids: multiset<string>, taken: multiset<string>, id: string)
    ensures taken + multiset{id} <= ids <==> taken <= ids && id in ids - taken
    ensures ids - taken - multiset{id} == ids - (taken + multiset{id})
  {
    if taken <= ids && id in ids - taken {
      assert taken + multiset{id} <= ids;
    }
    if taken + multiset{id} <= ids {
      assert taken <= taken + multiset{id};
      assert (taken + multiset{id})[id] <= ids[id];
    }
  }

  // One answer more.
  lemma AnswerOneMore(p: Pairing, ids: seq<string>, m: Json)
    requires IsTool(m)
    ensures PairMessage(Answer(p, ids, false), m) == Answer(p, ids + [ToolId(m)], false)
  {
    hide IsTool, ToolId;
    var id := ToolId(m);
    assert multiset(ids + [id]) == multiset(ids) + multiset{id};
    if p.Pending? {
      OneMoreFits(p.ids, multiset(ids), id);
    }
  }

  lemma OneMoreBlock(show: JsonPrinter, blocks: seq<Json>)
    requires blocks != []
    ensures var before, b := blocks[..|blocks| - 1], blocks[|blocks| - 1];
            && ToolMessages(show, blocks) == ToolMessages(show, before) + KeepResult(show, b)
            && FlatMap(ResultId, blocks) == FlatMap(ResultId, before) + ResultId(b)
  {
    hide KeepResult, ResultId;
  }

  lemma {:induction false} ToolsPair(show: JsonPrinter, p: Pairing, blocks: seq<Json>)
    ensures |ToolMessages(show, blocks)| == |FlatMap(ResultId, blocks)|
    ensures Fold(PairMessage, p, ToolMessages(show, blocks)) == Answer(p, FlatMap(ResultId, blocks), false)
  {
    hide ToolMessage, PairMessage, FlatMap, Fold, Answer;
    if blocks == [] {
      NoBlocks(show, p);
    } else {
      var before, b := blocks[..|blocks| - 1], blocks[|blocks| - 1];
      ToolsPair(show, p, before);
      OneMoreBlock(show, blocks);
      if IsToolResult(b) {
        ToolAnswers(show, b);
        FoldSnoc(PairMessage, p, ToolMessages(show, before), ToolMessage(show, b));
        AnswerOneMore(p, FlatMap(ResultId, before), ToolMessage(show, b));
      } else {
        assert ToolMessages(show, blocks) == ToolMessages(show, before);
        assert FlatMap(ResultId, blocks) == FlatMap(ResultId, before);
      }
    }
  }

  lemma NoBlocks(show: JsonPrinter, p: Pairing)
    ensures ToolMessages(show, []) == [] && FlatMap(ResultId, []) == []
    ensures Fold(PairMessage, p, []) == p == Answer(p, [], false)
  {
  }

  lemma PartOrThinking(show: JsonPrinter, b: Json)
    ensures Part(show, b) == [] <==> IsThinking(b)
  {
  }

  lemma {:induction false} NothingMore(show: JsonPrinter, blocks: seq<Json>)
    ensures Parts(show, Others(blocks)) == [] <==> !SaysMore(blocks)
  {
    hide Part, IsThinking, IsToolResult;
    if blocks != [] {
      var before, b := blocks[..|blocks| - 1], blocks[|blocks| - 1];
      NothingMore(show, before);
      PartOrThinking(show, b);
      FlatMapConcat((b: Json) => Part(show, b), Others(before), KeepOther(b));
      FlatMapOne((b: Json) => Part(show, b), b);
      assert forall c :: c in blocks <==> c in before || c == b;
    }
  }

  lemma UserPairs(show: JsonPrinter, p: Pairing, role: string, blocks: seq<Json>)
    ensures Fold(PairMessage, p, ExpandUser(show, role, blocks)) == PairTurn(p, UserTurn(role, blocks))
  {
    hide FlatMap, ToolMessages, PlainMessage, SaysMore, Parts, Message, PairMessage;
    ToolsPair(show, p, blocks);
    NothingMore(show, blocks);
    var ids := FlatMap(ResultId, blocks);
    if ids == [] {
      PlainTurn(show, p, role, Some(Arr(blocks)));
    } else {
      var tools, more := ToolMessages(show, blocks), FollowUp(show, Others(blocks));
      FoldConcat(PairMessage, p, tools, more);
      if SaysMore(blocks) {
        FollowUpPairs(show, Answer(p, ids, false), Others(blocks));
        AnswerThenMore(p, ids);
      }
    }
  }

  lemma FollowUpPairs(show: JsonPrinter, p: Pairing, others: seq<Json>)
    requires Parts(show, others) != []
    ensures Fold(PairMessage, p, FollowUp(show, others)) == PairTurn(p, Plain)
  {
    hide Parts;
    var m := Message("user", Arr(Parts(show, others)));
    FoldOne(PairMessage, p, m);
    assert !IsTool(m) && CallIds(m) == [];
  }

  lemma AnswerThenMore(p: Pairing, ids: seq<string>)
    ensures PairTurn(Answer(p, ids, false), Plain) == Answer(p, ids, true)
  {
    if !p.Broken? && multiset(ids) <= p.ids {
      assert p.ids == multiset(ids) + (p.ids - multiset(ids));
    }
  }
}
