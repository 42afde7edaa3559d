// Whole conversations: the translation keeps the pairing of tool calls with their answers,
// neither mending nor breaking it, and keeps every id in its place.
module Conversation {
  import opened Wrappers
  import opened JsonValue
  import opened Machine
  import opened Request
  import opened Adjacency

  function MessagesOf(anthropic: Json): seq<Json> {
    anthropic.GetArr("messages").GetOr([])
  }

  lemma TurnPairs(show: JsonPrinter, p: Pairing, msg: Json)
    ensures Fold(PairMessage, p, ExpandTurn(show)(msg)) == PairTurn(p, TurnOf(msg))
  {
    hide PairMessage, PairTurn, ExpandAssistant, ExpandUser, PlainMessage, AssistantTurn, UserTurn, Role;
    var content := msg.Get("content");
    if content.Some? && content.value.Arr? {
      AssistantPairs(show, p, content.value.items);
      UserPairs(show, p, Role(msg), content.value.items);
    } else {
      PlainTurn(show, p, Role(msg), content);
    }
  }

  lemma {:induction false} TurnsPair(show: JsonPrinter, p: Pairing, msgs: seq<Json>)
    ensures Fold(PairMessage, p, FlatMap(ExpandTurn(show), msgs)) == Fold(PairTurn, p, Turns(msgs))
  {
    hide PairMessage, PairTurn, ExpandTurn, Role, TurnOf;
    if msgs != [] {
      var before, msg := msgs[..|msgs| - 1], msgs[|msgs| - 1];
      TurnsPair(show, p, before);
      var q := Fold(PairTurn, p, Turns(before));
      TurnPairs(show, q, msg);
      FoldConcat(PairMessage, p, FlatMap(ExpandTurn(show), before), ExpandTurn(show)(msg));
      assert Turns(msgs)[..|msgs| - 1] == Turns(before);
    }
  }

  lemma SystemPairs(anthropic: Json)
    ensures Fold(PairMessage, IDLE, SystemMessages(anthropic)) == IDLE
    ensures FlatMap(CallIds, SystemMessages(anthropic)) == [] == FlatMap(AnswerIds, SystemMessages(anthropic))
  {
    hide ExtractText;
    if SystemMessages(anthropic) != [] {
      var m := SystemMessages(anthropic)[0];
      assert !IsTool(m) && CallIds(m) == [];
      FoldOne(PairMessage, IDLE, m);
      FlatMapOne(CallIds, m);
      FlatMapOne(AnswerIds, m);
    }
  }

  // The OpenAI messages answer their calls in place if and only if the conversation does.
  lemma PairingIsPreserved(show: JsonPrinter, anthropic: Json)
    ensures CallsAreAnswered(Messages(show, anthropic)) <==> Fold(PairTurn, IDLE, Turns(MessagesOf(anthropic))) == IDLE
  {
    hide PairMessage, PairTurn, ExpandTurn, Role, TurnOf, CallsAreAnswered, SystemMessages;
    SystemPairs(anthropic);
    TurnsPair(show, IDLE, MessagesOf(anthropic));
    FoldConcat(PairMessage, IDLE, SystemMessages(anthropic), FlatMap(ExpandTurn(show), MessagesOf(anthropic)));
    PairedMeansAnswered(Messages(show, anthropic));
  }

  // The usual discipline: a turn that calls is followed by a turn answering exactly its
  // calls, in any order, and no other turn answers anything.
  ghost predicate AnsweredNext(turns: seq<Turn>) {
    && (forall i :: 0 <= i < |turns| && turns[i].Calls? ==> AnsweredBy(turns, i))
    && (forall i :: 0 <= i < |turns| && turns[i].Results? ==> 0 < i && turns[i - 1].Calls?)
  }

  ghost predicate AnsweredBy(turns: seq<Turn>, i: nat)
    requires i < |turns| && turns[i].Calls?
  {
    && i + 1 < |turns|
    && turns[i + 1].Results?
    && multiset(turns[i + 1].ids) == multiset(turns[i].ids)
  }

  // What is pending after the first `i` turns.
  function PendingAfter(turns: seq<Turn>, i: nat): Pairing
    requires i <= |turns|
  {
    if i > 0 && turns[i - 1].Calls? then Pending(multiset(turns[i - 1].ids)) else IDLE
  }

  lemma {:induction false} DisciplinePairs(turns: seq<Turn>, i: nat)
    requires AnsweredNext(turns) && i <= |turns|
    ensures Fold(PairTurn, IDLE, turns[..i]) == PendingAfter(turns, i)
  {
    if i > 0 {
      DisciplinePairs(turns, i - 1);
      FoldOneMore(PairTurn, IDLE, turns, i - 1);
      assert AnsweredNext(turns);
      NextTurn(turns, i - 1);
    }
  }

  lemma NextTurn(turns: seq<Turn>, i: nat)
    requires AnsweredNext(turns) && i < |turns|
    ensures PairTurn(PendingAfter(turns, i), turns[i]) == PendingAfter(turns, i + 1)
  {
    if i > 0 && turns[i - 1].Calls? {
      assert AnsweredBy(turns, i - 1);
    }
  }

  // Each assistant message with tool calls is followed at once by the tool messages for
  // exactly its ids.
  lemma AnswersFollowTheirCalls(show: JsonPrinter, anthropic: Json)
    requires AnsweredNext(Turns(MessagesOf(anthropic)))
    ensures CallsAreAnswered(Messages(show, anthropic))
  {
    hide PairTurn, AnsweredNext, CallsAreAnswered, TurnOf;
    var turns := Turns(MessagesOf(anthropic));
    DisciplinePairs(turns, |turns|);
    assert turns[..|turns|] == turns;
    LastAnswered(turns);
    PairingIsPreserved(show, anthropic);
  }

  lemma LastAnswered(turns: seq<Turn>)
    requires AnsweredNext(turns)
    ensures PendingAfter(turns, |turns|) == IDLE
  {
  }

  predicate CallsAreNamed(turns: seq<Turn>) {
    forall t :: t in turns && t.Calls? ==> "" !in t.ids
  }

  predicate AnswersBlankly(turns: seq<Turn>) {
    exists t :: t in turns && t.Results? && "" in t.ids
  }

  lemma {:induction false} BlankIsNeverPending(turns: seq<Turn>)
    requires CallsAreNamed(turns)
    ensures var p := Fold(PairTurn, IDLE, turns);
            p.Broken? || ("" !in p.ids && !AnswersBlankly(turns))
  {
    if turns != [] {
      var before, t := turns[..|turns| - 1], turns[|turns| - 1];
      assert turns == before + [t] && t in turns;
      BlankIsNeverPending(before);
    }
  }

  // The validator lets the role "tool" through. Such a turn without a tool result, sent as it
  // is, answers no call that has an id, so the messages are not as OpenAI demands.
  lemma OrphanAnswersBreak(show: JsonPrinter, anthropic: Json, i: nat)
    requires i < |MessagesOf(anthropic)| && TurnOf(MessagesOf(anthropic)[i]) == OneMessage("tool")
    requires CallsAreNamed(Turns(MessagesOf(anthropic)))
    ensures !CallsAreAnswered(Messages(show, anthropic))
  {
    hide PairTurn, TurnOf, CallsAreAnswered, MessagesOf;
    var turns := Turns(MessagesOf(anthropic));
    assert turns[i] in turns && "" in turns[i].ids;
    BlankIsNeverPending(turns);
    PairingIsPreserved(show, anthropic);
  }

  // ----- every id, in order -----

  function TurnCalls(t: Turn): seq<string> {
    if t.Calls? then t.ids else []
  }

  function TurnResults(t: Turn): seq<string> {
    if t.Results? then t.ids else []
  }

  lemma PlainIds(show: JsonPrinter, role: string, content: Option<Json>)
    ensures var out, t := [PlainMessage(show, role, content)], OneMessage(role);
            FlatMap(CallIds, out) == TurnCalls(t) && FlatMap(AnswerIds, out) == TurnResults(t)
  {
    hide PlainMessage, CallIds, AnswerIds;
    PlainReads(show, role, content);
    FlatMapOne(CallIds, PlainMessage(show, role, content));
    FlatMapOne(AnswerIds, PlainMessage(show, role, content));
  }

  lemma AssistantIds(show: JsonPrinter, blocks: seq<Json>)
    ensures var out, t := ExpandAssistant(show, blocks), AssistantTurn(blocks);
            FlatMap(CallIds, out) == TurnCalls(t) && FlatMap(AnswerIds, out) == TurnResults(t)
  {
    hide IsThinking, PlainMessage, CallsMessage, Uses, UseId, SaidText, SaidContent;
    UsesHaveIds(show, blocks);
    AllThinking(blocks);
    if Uses(blocks) != [] {
      var content := SaidContent(FlatMap(SaidText, blocks));
      CallsCarryIds(show, content, blocks);
      FlatMapOne(CallIds, CallsMessage(content, ToolCalls(show, Uses(blocks))));
      FlatMapOne(AnswerIds, CallsMessage(content, ToolCalls(show, Uses(blocks))));
    } else if WithoutThinking(blocks) != [] {
      PlainIds(show, "assistant", Some(Arr(WithoutThinking(blocks))));
    }
  }

  lemma {:induction false} ToolMessageIds(show: JsonPrinter, blocks: seq<Json>)
    ensures FlatMap(CallIds, ToolMessages(show, blocks)) == []
    ensures FlatMap(AnswerIds, ToolMessages(show, blocks)) == FlatMap(ResultId, blocks)
  {
    hide ToolMessage, IsTool, ToolId;
    if blocks != [] {
      var before, b := blocks[..|blocks| - 1], blocks[|blocks| - 1];
      ToolMessageIds(show, before);
      OneMoreBlock(show, blocks);
      if IsToolResult(b) {
        var m := ToolMessage(show, b);
        ToolAnswers(show, b);
        FlatMapConcat(CallIds, ToolMessages(show, before), [m]);
        FlatMapConcat(AnswerIds, ToolMessages(show, before), [m]);
        FlatMapOne(CallIds, m);
        FlatMapOne(AnswerIds, m);
      } else {
        assert ToolMessages(show, blocks) == ToolMessages(show, before);
      }
    }
  }

  lemma FollowUpIds(show: JsonPrinter, others: seq<Json>)
    ensures FlatMap(CallIds, FollowUp(show, others)) == [] == FlatMap(AnswerIds, FollowUp(show, others))
  {
    hide Parts;
    if FollowUp(show, others) != [] {
      var m := Message("user", Arr(Parts(show, others)));
      assert !IsTool(m) && CallIds(m) == [];
      FlatMapOne(CallIds, m);
      FlatMapOne(AnswerIds, m);
    }
  }

  lemma UserIds(show: JsonPrinter, role: string, blocks: seq<Json>)
    ensures var out, t := ExpandUser(show, role, blocks), UserTurn(role, blocks);
            FlatMap(CallIds, out) == TurnCalls(t) && FlatMap(AnswerIds, out) == TurnResults(t)
  {
    hide PlainMessage, ToolMessages, FollowUp, SaysMore, FlatMap;
    ToolMessageIds(show, blocks);
    ToolsPair(show, IDLE, blocks);
    if ToolMessages(show, blocks) != [] {
      var tools, more := ToolMessages(show, blocks), FollowUp(show, Others(blocks));
      FollowUpIds(show, Others(blocks));
      FlatMapConcat(CallIds, tools, more);
      FlatMapConcat(AnswerIds, tools, more);
    } else {
      PlainIds(show, role, Some(Arr(blocks)));
    }
  }

  lemma TurnIds(show: JsonPrinter, msg: Json)
    ensures var out, t := ExpandTurn(show)(msg), TurnOf(msg);
            FlatMap(CallIds, out) == TurnCalls(t) && FlatMap(AnswerIds, out) == TurnResults(t)
  {
    hide ExpandAssistant, ExpandUser, PlainMessage, AssistantTurn, UserTurn, Role, FlatMap;
    var content := msg.Get("content");
    if content.Some? && content.value.Arr? {
      AssistantIds(show, content.value.items);
      UserIds(show, Role(msg), content.value.items);
    } else {
      PlainIds(show, Role(msg), content);
    }
  }

  lemma {:induction false} TurnsIds(show: JsonPrinter, msgs: seq<Json>)
    ensures FlatMap(CallIds, FlatMap(ExpandTurn(show), msgs)) == FlatMap(TurnCalls, Turns(msgs))
    ensures FlatMap(AnswerIds, FlatMap(ExpandTurn(show), msgs)) == FlatMap(TurnResults, Turns(msgs))
  {
    hide ExpandTurn, Role, TurnOf, CallIds, AnswerIds, TurnCalls, TurnResults;
    if msgs != [] {
      var before, msg := msgs[..|msgs| - 1], msgs[|msgs| - 1];
      TurnsIds(show, before);
      TurnIds(show, msg);
      FlatMapConcat(CallIds, FlatMap(ExpandTurn(show), before), ExpandTurn(show)(msg));
      FlatMapConcat(AnswerIds, FlatMap(ExpandTurn(show), before), ExpandTurn(show)(msg));
      assert Turns(msgs)[..|msgs| - 1] == Turns(before);
    }
  }

  // No call and no answer is lost, added or moved.
  lemma IdsAreKept(show: JsonPrinter, anthropic: Json)
    ensures var out, turns := Messages(show, anthropic), Turns(MessagesOf(anthropic));
            && FlatMap(CallIds, out) == FlatMap(TurnCalls, turns)
            && FlatMap(AnswerIds, out) == FlatMap(TurnResults, turns)
  {
    hide ExpandTurn, TurnOf, SystemMessages, FlatMap;
    SystemPairs(anthropic);
    TurnsIds(show, MessagesOf(anthropic));
    var rest := FlatMap(ExpandTurn(show), MessagesOf(anthropic));
    FlatMapConcat(CallIds, SystemMessages(anthropic), rest);
    FlatMapConcat(AnswerIds, SystemMessages(anthropic), rest);
  }
}
