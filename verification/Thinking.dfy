// Reasoning in the conversation sent upstream: OpenAI has no place for it, and the
// translation must not let any of it through.
module Thinking {
  import opened Wrappers
  import opened JsonValue
  import opened Machine
  import opened Request
  import opened Adjacency

  function ExpandBlocks(show: JsonPrinter, role: string, blocks: seq<Json>): seq<Json> {
    Expand(show, role, Some(Arr(blocks)))
  }

  predicate HasThinking(blocks: seq<Json>) {
    exists b :: b in blocks && IsThinking(b)
  }

  lemma {:induction false} WithoutMeans(blocks: seq<Json>, b: Json)
    ensures b in WithoutThinking(blocks) <==> b in blocks && !IsThinking(b)
  {
    InFlatMap(Unthinking, blocks, b);
    assert b in blocks && !IsThinking(b) ==> b in Unthinking(b);
  }

  lemma {:induction false} WithoutIsAll(blocks: seq<Json>)
    ensures !HasThinking(blocks) <==> WithoutThinking(blocks) == blocks
  {
    if !HasThinking(blocks) {
      KeepsAll(blocks);
    } else {
      var b :| b in blocks && IsThinking(b);
      WithoutMeans(blocks, b);
    }
  }

  lemma {:induction false} KeepsAll(blocks: seq<Json>)
    requires !HasThinking(blocks)
    ensures WithoutThinking(blocks) == blocks
  {
    if blocks != [] {
      KeepsAll(blocks[..|blocks| - 1]);
    }
  }

  // A reading that finds nothing in thinking blocks finds the same without them.
  lemma {:induction false} Skips<O>(f: Json -> seq<O>, blocks: seq<Json>)
    requires forall b :: IsThinking(b) ==> f(b) == []
    ensures FlatMap(f, WithoutThinking(blocks)) == FlatMap(f, blocks)
  {
    if blocks != [] {
      var before, b := blocks[..|blocks| - 1], blocks[|blocks| - 1];
      Skips(f, before);
      FlatMapConcat(f, WithoutThinking(before), Unthinking(b));
      if !IsThinking(b) {
        FlatMapOne(f, b);
      }
    }
  }

  function MessagePartOf(show: JsonPrinter): Json -> seq<Json> {
    (b: Json) => MessagePart(show, b)
  }

  function ResultOf(show: JsonPrinter): Json -> seq<Json> {
    (b: Json) => KeepResult(show, b)
  }

  function OtherPartOf(show: JsonPrinter): Json -> seq<Json> {
    (b: Json) => if IsToolResult(b) then [] else Part(show, b)
  }

  lemma {:induction false} OtherParts(show: JsonPrinter, blocks: seq<Json>)
    ensures Parts(show, Others(blocks)) == FlatMap(OtherPartOf(show), blocks)
  {
    hide Part, IsToolResult;
    if blocks != [] {
      var before, b := blocks[..|blocks| - 1], blocks[|blocks| - 1];
      OtherParts(show, before);
      FlatMapConcat((b: Json) => Part(show, b), Others(before), KeepOther(b));
      FlatMapOne((b: Json) => Part(show, b), b);
    }
  }

  lemma NothingInThinking(show: JsonPrinter, b: Json)
    requires IsThinking(b)
    ensures KeepUse(b) == [] && SaidText(b) == [] && KeepResult(show, b) == []
    ensures MessagePart(show, b) == [] && OtherPartOf(show)(b) == []
  {
    PartOrThinking(show, b);
  }

  // Every reading of a turn, apart from the question whether it is all text.
  ghost predicate ReadsSame(show: JsonPrinter, a: seq<Json>, b: seq<Json>) {
    && Uses(a) == Uses(b)
    && FlatMap(SaidText, a) == FlatMap(SaidText, b)
    && ToolMessages(show, a) == ToolMessages(show, b)
    && MessageParts(show, a) == MessageParts(show, b)
    && Parts(show, Others(a)) == Parts(show, Others(b))
  }

  lemma ReadingsSkip(show: JsonPrinter, blocks: seq<Json>)
    ensures ReadsSame(show, WithoutThinking(blocks), blocks)
  {
    forall b | IsThinking(b)
      ensures KeepUse(b) == [] && SaidText(b) == []
      ensures ResultOf(show)(b) == [] && MessagePartOf(show)(b) == [] && OtherPartOf(show)(b) == []
    {
      NothingInThinking(show, b);
    }
    hide FlatMap, IsThinking, KeepUse, SaidText, KeepResult, MessagePart, Part, WithoutThinking, Others;
    var without := WithoutThinking(blocks);
    Skips(KeepUse, blocks);
    Skips(SaidText, blocks);
    Skips(ResultOf(show), blocks);
    Skips(MessagePartOf(show), blocks);
    Skips(OtherPartOf(show), blocks);
    OtherParts(show, blocks);
    OtherParts(show, without);
  }

  lemma {:induction false} WithoutTwice(blocks: seq<Json>)
    ensures WithoutThinking(WithoutThinking(blocks)) == WithoutThinking(blocks)
  {
    forall b ensures b in WithoutThinking(blocks) ==> !IsThinking(b) {
      WithoutMeans(blocks, b);
    }
    WithoutIsAll(WithoutThinking(blocks));
  }

  // An assistant turn is sent as if it had never thought.
  lemma AssistantThinksUnseen(show: JsonPrinter, blocks: seq<Json>)
    ensures ExpandAssistant(show, WithoutThinking(blocks)) == ExpandAssistant(show, blocks)
  {
    hide FlatMap, WithoutThinking, PlainMessage, CallsMessage, ToolCalls;
    ReadingsSkip(show, blocks);
    WithoutTwice(blocks);
  }

  // What is left of the turn shows by itself that the turn is not all text.
  predicate LeftNonText(blocks: seq<Json>) {
    exists b :: b in blocks && !IsThinking(b) && b.GetStr("type") != Some("text")
  }

  lemma LeftMeans(blocks: seq<Json>)
    ensures HasNonText(WithoutThinking(blocks)) <==> LeftNonText(blocks)
  {
    forall b ensures b in WithoutThinking(blocks) <==> b in blocks && !IsThinking(b) {
      WithoutMeans(blocks, b);
    }
  }

  lemma ThinkingIsNonText(blocks: seq<Json>)
    ensures HasThinking(blocks) ==> HasNonText(blocks)
    ensures LeftNonText(blocks) ==> HasNonText(blocks)
  {
  }

  lemma {:induction false} ResultsAreNonText(show: JsonPrinter, blocks: seq<Json>)
    ensures ToolMessages(show, blocks) != [] ==> LeftNonText(blocks)
  {
    hide ToolMessage, IsThinking;
    if ToolMessages(show, blocks) != [] {
      var m := ToolMessages(show, blocks)[0];
      InFlatMap((b: Json) => KeepResult(show, b), blocks, m);
      var b :| b in blocks && m in KeepResult(show, b);
      ResultIsNonText(b);
    }
  }

  lemma ResultIsNonText(b: Json)
    requires IsToolResult(b)
    ensures !IsThinking(b) && b.GetStr("type") != Some("text")
  {
  }

  lemma MessageHasContent(role: string, content: Json)
    ensures Message(role, content).Get("content") == Some(content)
  {
  }

  lemma UserThinksUnseen(show: JsonPrinter, role: string, blocks: seq<Json>)
    ensures ExpandUser(show, role, WithoutThinking(blocks)) == ExpandUser(show, role, blocks) <==>
            !HasThinking(blocks) || LeftNonText(blocks)
    ensures HasThinking(blocks) ==>
            ExpandUser(show, role, blocks) ==
            if ToolMessages(show, blocks) != [] then
              ToolMessages(show, WithoutThinking(blocks)) + FollowUp(show, Others(WithoutThinking(blocks)))
            else [Message(role, Arr(MessageParts(show, WithoutThinking(blocks))))]
  {
    hide FlatMap, WithoutThinking, ToolMessages, HasNonText, HasThinking, LeftNonText, Others, Parts, MessageParts, Message;
    ReadingsSkip(show, blocks);
    MessageHasContent(role, PlainContent(show, Some(Arr(blocks))));
    MessageHasContent(role, PlainContent(show, Some(Arr(WithoutThinking(blocks)))));
    WithoutIsAll(blocks);
    LeftMeans(blocks);
    ThinkingIsNonText(blocks);
    ResultsAreNonText(show, blocks);
  }

  // Leaving out the thinking blocks leaves the OpenAI messages as they are, except when a
  // turn that is not the assistant's has thinking beside nothing but text: then the content
  // is a list of text parts instead of one string.
  lemma ThinkingIsInvisible(show: JsonPrinter, role: string, blocks: seq<Json>)
    ensures ExpandBlocks(show, role, WithoutThinking(blocks)) == ExpandBlocks(show, role, blocks) <==>
            role == "assistant" || !HasThinking(blocks) || LeftNonText(blocks)
  {
    hide ExpandAssistant, ExpandUser, WithoutThinking, HasThinking, LeftNonText;
    AssistantThinksUnseen(show, blocks);
    UserThinksUnseen(show, role, blocks);
  }

  // What was thought does not show: two turns that differ only in their thinking are sent
  // alike.
  lemma ThinkingIsNotLeaked(show: JsonPrinter, role: string, a: seq<Json>, b: seq<Json>)
    requires WithoutThinking(a) == WithoutThinking(b) && HasThinking(a) == HasThinking(b)
    ensures ExpandBlocks(show, role, a) == ExpandBlocks(show, role, b)
  {
    hide ExpandAssistant, ExpandUser, WithoutThinking, HasThinking, ToolMessages, Parts, MessageParts, Others;
    AssistantThinksUnseen(show, a);
    AssistantThinksUnseen(show, b);
    UserThinksUnseen(show, role, a);
    UserThinksUnseen(show, role, b);
    ReadingsSkip(show, a);
    ReadingsSkip(show, b);
    WithoutIsAll(a);
    WithoutIsAll(b);
  }
}
