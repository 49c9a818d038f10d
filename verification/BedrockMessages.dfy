/** Converting a prepared transcript to the Bedrock message list. */
module BedrockMessages {
  import opened Wrappers
  import opened Text
  import opened Messages
  import opened MessageTransform
  import opened MessageItems

  datatype OutBlock =
    | OutText(text: string)
    | OutImage(data: string, mimeType: string)
    | OutReasoning(text: string, signature: Option<string>)
    | OutToolUse(id: string, name: string, input: string)
    | OutToolResult(toolUseId: string, content: seq<OutBlock>, isError: bool)

  datatype OutMessage =
    | UserTurn(blocks: seq<OutBlock>)
    | AssistantTurn(blocks: seq<OutBlock>)

  const EMPTY_TEXT_PLACEHOLDER := "<empty>"

  /** Blank texts are dropped; images are kept. */
  function ConvertParts(parts: seq<Part>): seq<OutBlock> {
    if parts == [] then []
    else
      (match parts[0]
       case TextPart(text) => if IsBlank(text) then [] else [OutText(text)]
       case ImagePart(data, mimeType) => [OutImage(data, mimeType)])
      + ConvertParts(parts[1..])
  }

  /** A content is never empty: nothing left becomes a placeholder. */
  function NonEmpty(blocks: seq<OutBlock>): seq<OutBlock> {
    if blocks == [] then [OutText(EMPTY_TEXT_PLACEHOLDER)] else blocks
  }

  function ConvertUser(user: UserContent): seq<OutBlock> {
    match user
    case Plain(text) => [OutText(if IsBlank(text) then EMPTY_TEXT_PLACEHOLDER else text)]
    case Blocks(parts) => NonEmpty(ConvertParts(parts))
  }

  function ConvertBlock(block: Block, signedThinking: bool): Option<OutBlock> {
    match block
    case TextBlock(text, _) => if IsBlank(text) then None else Some(OutText(text))
    case CallBlock(call) => Some(OutToolUse(call.id, call.name, call.arguments))
    case ThinkingBlock(thinking, signature, _) =>
      if IsBlank(thinking) then None
      else if !signedThinking then Some(OutReasoning(thinking, None))
      else if signature.Some? && !IsBlank(signature.value) then Some(OutReasoning(thinking, signature))
      else Some(OutText(thinking))
  }

  function ConvertBlocks(blocks: seq<Block>, signedThinking: bool): seq<OutBlock> {
    if blocks == [] then []
    else
      var head := ConvertBlock(blocks[0], signedThinking);
      (if head.Some? then [head.value] else []) + ConvertBlocks(blocks[1..], signedThinking)
  }

  function ConvertResult(result: ToolResult): OutBlock {
    OutToolResult(result.toolCallId, NonEmpty(ConvertParts(result.content)), result.isError)
  }

  /** The result blocks of the tool results a transcript begins with, and the rest of it. */
  function LeadingResults(messages: seq<Message>): (seq<OutBlock>, seq<Message>)
    ensures |LeadingResults(messages).1| <= |messages|
    ensures messages != [] && messages[0].ToolResultMessage? ==> |LeadingResults(messages).1| < |messages|
  {
    if messages == [] || !messages[0].ToolResultMessage? then ([], messages)
    else
      var (rest, after) := LeadingResults(messages[1..]);
      ([ConvertResult(messages[0].result)] + rest, after)
  }

  function Convert(messages: seq<Message>, signedThinking: bool): seq<OutMessage>
    decreases |messages|
  {
    if messages == [] then []
    else
      match messages[0]
      case UserMessage(user, _) => [UserTurn(ConvertUser(user))] + Convert(messages[1..], signedThinking)
      case AssistantMessage(a) =>
        var content := ConvertBlocks(a.content, signedThinking);
        (if content == [] then [] else [AssistantTurn(content)]) + Convert(messages[1..], signedThinking)
      case ToolResultMessage(_) =>
        var (results, after) := LeadingResults(messages);
        [UserTurn(results)] + Convert(after, signedThinking)
  }

  function UseIds(blocks: seq<OutBlock>): set<string> {
    set i | 0 <= i < |blocks| && blocks[i].OutToolUse? :: blocks[i].id
  }

  function AnsweredIds(blocks: seq<OutBlock>): set<string> {
    set i | 0 <= i < |blocks| && blocks[i].OutToolResult? :: blocks[i].toolUseId
  }

  predicate AnswersAll(messages: seq<OutMessage>, ids: set<string>) {
    messages != [] && messages[0].UserTurn? && ids <= AnsweredIds(messages[0].blocks)
  }

  /** Each assistant turn with tool uses is followed by one user turn answering all of them, and no
      turn is empty. */
  predicate EveryUseAnswered(messages: seq<OutMessage>) {
    messages != [] ==>
      && messages[0].blocks != []
      && (messages[0].AssistantTurn? && UseIds(messages[0].blocks) != {} ==>
            AnswersAll(messages[1..], UseIds(messages[0].blocks)))
      && EveryUseAnswered(messages[1..])
  }

  /** Every tool result answers a tool use of the turn right before it; `uses` are the ids of the
      turn before the list. */
  predicate EveryResultAnswers(messages: seq<OutMessage>, uses: set<string>) {
    messages == [] ||
      match messages[0]
      case UserTurn(blocks) => AnsweredIds(blocks) <= uses && EveryResultAnswers(messages[1..], {})
      case AssistantTurn(blocks) => EveryResultAnswers(messages[1..], UseIds(blocks))
  }

  lemma UseIdsPrepend(head: Option<OutBlock>, rest: seq<OutBlock>)
    ensures var out := (if head.Some? then [head.value] else []) + rest;
            UseIds(out) == (if head.Some? && head.value.OutToolUse? then {head.value.id} else {}) + UseIds(rest)
  {
    var out := (if head.Some? then [head.value] else []) + rest;
    if head.None? {
      assert out == rest;
    } else {
      assert out[0] == head.value && forall i :: 0 <= i < |rest| ==> out[i + 1] == rest[i];
      assert forall i :: 0 < i < |out| ==> out[i] == rest[i - 1];
    }
  }

  lemma {:induction false} UsesAreTheCalls(blocks: seq<Block>, signedThinking: bool)
    ensures UseIds(ConvertBlocks(blocks, signedThinking)) == IdSet(CallsOf(blocks))
  {
    if blocks != [] {
      UsesAreTheCalls(blocks[1..], signedThinking);
      UseIdsPrepend(ConvertBlock(blocks[0], signedThinking), ConvertBlocks(blocks[1..], signedThinking));
      IdSetUnfolds(blocks);
    }
  }

  lemma {:induction false} LeadingResultsAnswer(messages: seq<Message>, ids: set<string>)
    requires EveryCallAnswered(messages)
    ensures var (results, after) := LeadingResults(messages);
            && AnsweredIds(results) == LeadingIds(messages)
            && EveryCallAnswered(after)
            && (NoOrphans(messages, ids) <==> LeadingIds(messages) <= ids && NoOrphans(after, {}))
  {
    if messages != [] && messages[0].ToolResultMessage? {
      LeadingResultsAnswer(messages[1..], ids);
      AnsweredIdsPrepend(ConvertResult(messages[0].result), LeadingResults(messages[1..]).0);
    }
  }

  lemma AnsweredIdsPrepend(block: OutBlock, rest: seq<OutBlock>)
    requires block.OutToolResult?
    ensures AnsweredIds([block] + rest) == {block.toolUseId} + AnsweredIds(rest)
  {
    var results := [block] + rest;
    assert results[0] == block && forall i :: 0 <= i < |rest| ==> results[i + 1] == rest[i];
    assert forall i :: 0 < i < |results| ==> results[i] == rest[i - 1];
  }

  lemma {:induction false} ConversionAnswersEveryUse(messages: seq<Message>, signedThinking: bool)
    requires EveryCallAnswered(messages)
    ensures EveryUseAnswered(Convert(messages, signedThinking))
    ensures messages != [] && messages[0].ToolResultMessage? ==>
              AnswersAll(Convert(messages, signedThinking), LeadingIds(messages))
    decreases |messages|
  {
    if messages != [] {
      var out := Convert(messages, signedThinking);
      match messages[0]
      case UserMessage(user, _) =>
        ConversionAnswersEveryUse(messages[1..], signedThinking);
        assert out[1..] == Convert(messages[1..], signedThinking);
      case AssistantMessage(a) =>
        ConversionAnswersEveryUse(messages[1..], signedThinking);
        var tail := Convert(messages[1..], signedThinking);
        assert out == tail || out[1..] == tail;
        UsesAreTheCalls(a.content, signedThinking);
      case ToolResultMessage(_) =>
        LeadingResultsAnswer(messages, {});
        ConversionAnswersEveryUse(LeadingResults(messages).1, signedThinking);
        assert out[1..] == Convert(LeadingResults(messages).1, signedThinking);
        assert LeadingResults(messages).0 != [];
    }
  }

  lemma {:induction false} PartsHaveNoResults(parts: seq<Part>)
    ensures forall i :: 0 <= i < |ConvertParts(parts)| ==> !ConvertParts(parts)[i].OutToolResult?
  {
    if parts != [] {
      PartsHaveNoResults(parts[1..]);
    }
  }

  lemma UserAnswersNothing(user: UserContent)
    ensures AnsweredIds(ConvertUser(user)) == {}
  {
    if user.Blocks? {
      PartsHaveNoResults(user.parts);
    }
  }

  /** Grouping makes no result lose its call and finds none for a result that had none. */
  lemma {:induction false} ConversionKeepsOrphans(messages: seq<Message>, signedThinking: bool, ids: set<string>)
    requires EveryCallAnswered(messages)
    requires ids != {} ==> messages != [] && messages[0].ToolResultMessage?
    ensures EveryResultAnswers(Convert(messages, signedThinking), ids) <==> NoOrphans(messages, ids)
    decreases |messages|
  {
    if messages != [] {
      var out := Convert(messages, signedThinking);
      match messages[0]
      case UserMessage(user, _) =>
        ConversionKeepsOrphans(messages[1..], signedThinking, {});
        UserAnswersNothing(user);
        assert out[1..] == Convert(messages[1..], signedThinking);
      case AssistantMessage(a) =>
        var content := ConvertBlocks(a.content, signedThinking);
        UsesAreTheCalls(a.content, signedThinking);
        ConversionKeepsOrphans(messages[1..], signedThinking, UseIds(content));
        var tail := Convert(messages[1..], signedThinking);
        assert if content == [] then out == tail else out[0] == AssistantTurn(content) && out[1..] == tail;
      case ToolResultMessage(_) =>
        LeadingResultsAnswer(messages, ids);
        ConversionKeepsOrphans(LeadingResults(messages).1, signedThinking, {});
        assert out[1..] == Convert(LeadingResults(messages).1, signedThinking);
    }
  }

  /** End to end, for every transcript, model and id normalizer; results answer a use of the turn
      before them if and only if none stands without its call in the prepared transcript without
      its failed assistant messages. */
  lemma BedrockProtocolHolds(rules: Rules, messages: seq<Message>, signedThinking: bool, now: int)
    ensures var out := Convert(Transform(rules, messages, now), signedThinking);
            && EveryUseAnswered(out)
            && (EveryResultAnswers(out, {}) <==> NoOrphans(Kept(Prepared(rules, messages)), {}))
  {
    RepairedAnswersEveryCall(Prepared(rules, messages), [], {}, now);
    ConversionAnswersEveryUse(Transform(rules, messages, now), signedThinking);
    ConversionKeepsOrphans(Transform(rules, messages, now), signedThinking, {});
    TransformLeavesNoOrphansWhen(rules, messages, now);
  }

  // ---------------------------------------------------------------------
  // What the converted list says is what the transcript says.

  function BlockItems(role: Role, block: OutBlock): seq<Item>
    decreases block
  {
    match block
    case OutText(text) => [Says(role, text)]
    case OutImage(data, mimeType) => [Shows(data, mimeType)]
    case OutReasoning(text, signature) => [Thinks(text, if signature.Some? then signature.value else "")]
    case OutToolUse(id, name, input) => [Calls(id, name, input)]
    case OutToolResult(id, content, isError) => [Answers(id, isError, BlocksItems(FromUser, content))]
  }

  function BlocksItems(role: Role, blocks: seq<OutBlock>): seq<Item>
    decreases blocks
  {
    if blocks == [] then [] else BlockItems(role, blocks[0]) + BlocksItems(role, blocks[1..])
  }

  function SaidBy(message: OutMessage): seq<Item> {
    match message
    case UserTurn(blocks) => BlocksItems(FromUser, blocks)
    case AssistantTurn(blocks) => BlocksItems(FromAssistant, blocks)
  }

  /** The items of a message list, in order. */
  function OutItems(messages: seq<OutMessage>): seq<Item> {
    if messages == [] then [] else SaidBy(messages[0]) + OutItems(messages[1..])
  }

  /** A content that would say nothing says so. */
  function OrEmpty(items: seq<Item>): seq<Item> {
    if items == [] then [Says(FromUser, "<empty>")] else items
  }

  function UserItems(user: UserContent): seq<Item> {
    match user
    case Plain(text) => OrEmpty(if IsBlank(text) then [] else [Says(FromUser, text)])
    case Blocks(parts) => OrEmpty(SpokenItems(parts))
  }

  /** A block of an answer: blank texts and thoughts say nothing, others are said.  Where the model takes
      signatures, thoughts go out under theirs, or as a text when they have none. */
  function AnswerItem(block: Block, signedThinking: bool): seq<Item> {
    match block
    case TextBlock(text, _) => if IsBlank(text) then [] else [Says(FromAssistant, text)]
    case CallBlock(call) => [Calls(call.id, call.name, call.arguments)]
    case ThinkingBlock(thinking, signature, _) =>
      if IsBlank(thinking) then []
      else if signedThinking && SignatureOf(signature) == "" then [Says(FromAssistant, thinking)]
      else [Thinks(thinking, if signedThinking then SignatureOf(signature) else "")]
  }

  function AnswerItems(blocks: seq<Block>, signedThinking: bool): seq<Item> {
    if blocks == [] then [] else AnswerItem(blocks[0], signedThinking) + AnswerItems(blocks[1..], signedThinking)
  }

  function TellMessage(message: Message, signedThinking: bool): seq<Item> {
    match message
    case UserMessage(user, _) => UserItems(user)
    case AssistantMessage(a) => AnswerItems(a.content, signedThinking)
    case ToolResultMessage(result) =>
      [Answers(result.toolCallId, result.isError, OrEmpty(SpokenItems(result.content)))]
  }

  /** What a transcript says, in order. */
  function Told(messages: seq<Message>, signedThinking: bool): seq<Item> {
    if messages == [] then [] else TellMessage(messages[0], signedThinking) + Told(messages[1..], signedThinking)
  }

  lemma {:induction false} BlocksItemsAppend(role: Role, a: seq<OutBlock>, b: seq<OutBlock>)
    ensures BlocksItems(role, a + b) == BlocksItems(role, a) + BlocksItems(role, b)
    decreases |a|
  {
    if a == [] {
      assert a + b == b && [] + BlocksItems(role, b) == BlocksItems(role, b);
    } else {
      assert (a + b)[1..] == a[1..] + b;
      BlocksItemsAppend(role, a[1..], b);
      ItemsAssociate(BlockItems(role, a[0]), BlocksItems(role, a[1..]), BlocksItems(role, b));
    }
  }

  lemma {:induction false} OneBlockItems(role: Role, block: OutBlock)
    ensures BlocksItems(role, [block]) == BlockItems(role, block)
  {
    assert [block][1..] == [];
    ItemsAssociate(BlockItems(role, block), [], []);
  }

  lemma {:induction false} PartsSay(parts: seq<Part>)
    ensures BlocksItems(FromUser, ConvertParts(parts)) == SpokenItems(parts)
    ensures BlocksItems(FromUser, NonEmpty(ConvertParts(parts))) == OrEmpty(SpokenItems(parts))
  {
    if parts != [] {
      PartsSay(parts[1..]);
      var head: seq<OutBlock> :=
        match parts[0]
        case TextPart(text) => if IsBlank(text) then [] else [OutText(text)]
        case ImagePart(data, mimeType) => [OutImage(data, mimeType)];
      BlocksItemsAppend(FromUser, head, ConvertParts(parts[1..]));
      if head != [] {
        OneBlockItems(FromUser, head[0]);
      }
    }
    OneBlockItems(FromUser, OutText(EMPTY_TEXT_PLACEHOLDER));
    EmptySaysNothing(ConvertParts(parts));
  }

  lemma {:induction false} EmptySaysNothing(blocks: seq<OutBlock>)
    ensures BlocksItems(FromUser, blocks) == [] <==> blocks == []
  {
    if blocks != [] {
      assert |BlockItems(FromUser, blocks[0])| == 1;
    }
  }

  lemma {:induction false} AnswerSays(blocks: seq<Block>, signedThinking: bool)
    ensures BlocksItems(FromAssistant, ConvertBlocks(blocks, signedThinking)) == AnswerItems(blocks, signedThinking)
  {
    if blocks != [] {
      AnswerSays(blocks[1..], signedThinking);
      var head := ConvertBlock(blocks[0], signedThinking);
      BlocksItemsAppend(FromAssistant, if head.Some? then [head.value] else [],
                        ConvertBlocks(blocks[1..], signedThinking));
      if head.Some? {
        OneBlockItems(FromAssistant, head.value);
      }
    }
  }

  lemma {:induction false} OutItemsPrepend(message: OutMessage, rest: seq<OutMessage>)
    ensures OutItems([message] + rest) == SaidBy(message) + OutItems(rest)
  {
    assert ([message] + rest)[1..] == rest;
  }

  lemma {:induction false} LeadingResultsSay(messages: seq<Message>, signedThinking: bool)
    ensures var (results, after) := LeadingResults(messages);
            Told(messages, signedThinking) == BlocksItems(FromUser, results) + Told(after, signedThinking)
  {
    if messages != [] && messages[0].ToolResultMessage? {
      var (rest, after) := LeadingResults(messages[1..]);
      LeadingResultsSay(messages[1..], signedThinking);
      var block := ConvertResult(messages[0].result);
      PartsSay(messages[0].result.content);
      BlocksItemsAppend(FromUser, [block], rest);
      OneBlockItems(FromUser, block);
      ItemsAssociate(BlockItems(FromUser, block), BlocksItems(FromUser, rest), Told(after, signedThinking));
    } else {
      ItemsAssociate(Told(messages, signedThinking), [], []);
    }
  }

  /** The converted list says exactly what the transcript says, in order. */
  lemma {:induction false} ConversionSaysEverything(messages: seq<Message>, signedThinking: bool)
    ensures OutItems(Convert(messages, signedThinking)) == Told(messages, signedThinking)
    decreases |messages|
  {
    if messages != [] {
      match messages[0]
      case UserMessage(user, _) =>
        ConversionSaysEverything(messages[1..], signedThinking);
        UserSays(user);
        OutItemsPrepend(UserTurn(ConvertUser(user)), Convert(messages[1..], signedThinking));
      case AssistantMessage(a) =>
        ConversionSaysEverything(messages[1..], signedThinking);
        AnswerSays(a.content, signedThinking);
        var content := ConvertBlocks(a.content, signedThinking);
        OutItemsPrepend(AssistantTurn(content), Convert(messages[1..], signedThinking));
        assert [] + Convert(messages[1..], signedThinking) == Convert(messages[1..], signedThinking);
        ItemsAssociate(Told(messages[1..], signedThinking), [], []);
      case ToolResultMessage(_) =>
        var (results, after) := LeadingResults(messages);
        LeadingResultsSay(messages, signedThinking);
        ConversionSaysEverything(after, signedThinking);
        OutItemsPrepend(UserTurn(results), Convert(after, signedThinking));
    }
  }

  lemma {:induction false} UserSays(user: UserContent)
    ensures BlocksItems(FromUser, ConvertUser(user)) == UserItems(user)
  {
    match user
    case Plain(text) => OneBlockItems(FromUser, OutText(if IsBlank(text) then EMPTY_TEXT_PLACEHOLDER else text));
    case Blocks(parts) => PartsSay(parts);
  }

  lemma {:induction false} AnswerShowsNoImage(blocks: seq<Block>, signedThinking: bool)
    ensures NoImages(AnswerItems(blocks, signedThinking))
  {
    if blocks != [] {
      AnswerShowsNoImage(blocks[1..], signedThinking);
    }
  }

  lemma {:induction false} NoImageIsTold(messages: seq<Message>, signedThinking: bool)
    requires forall k :: 0 <= k < |messages| ==> !MessageHasImage(messages[k])
    ensures NoImages(Told(messages, signedThinking))
  {
    if messages != [] {
      assert !MessageHasImage(messages[0]);
      NoImageIsTold(messages[1..], signedThinking);
      match messages[0]
      case UserMessage(user, _) =>
        if user.Blocks? {
          SpokenShowsNoImage(user.parts);
        }
      case AssistantMessage(a) => AnswerShowsNoImage(a.content, signedThinking);
      case ToolResultMessage(result) => SpokenShowsNoImage(result.content);
    }
  }

  /** What the list sent to Bedrock says: exactly what the transformed transcript says, whose messages are
      the kept ones, each as the model may get it, and made-up results; no image unless the model takes
      them. */
  ghost predicate ListSays(rules: Rules, messages: seq<Message>, signedThinking: bool, now: int, out: seq<OutMessage>) {
    var transformed := Transform(rules, messages, now);
    && ContentsKept(rules.model, messages, Repaired(Prepared(rules, messages), [], {}), transformed)
    && OutItems(out) == Told(transformed, signedThinking)
    && (!rules.model.acceptsImages ==> NoImages(OutItems(out)))
  }

  lemma {:induction false} ListSaysEverything(rules: Rules, messages: seq<Message>, signedThinking: bool, now: int)
    ensures ListSays(rules, messages, signedThinking, now, Convert(Transform(rules, messages, now), signedThinking))
  {
    var transformed := Transform(rules, messages, now);
    TransformKeepsContents(rules, messages, now);
    ConversionSaysEverything(transformed, signedThinking);
    if !rules.model.acceptsImages {
      NoImageIsTold(transformed, signedThinking);
    }
  }

  // ---------------------------------------------------------------------
  // The loop.

  method GroupResults(messages: seq<Message>, index: nat) returns (results: seq<OutBlock>, next: nat)
    requires index < |messages| && messages[index].ToolResultMessage?
    ensures index < next <= |messages|
    ensures LeadingResults(messages[index..]) == (results, messages[next..])
  {
    results, next := [], index;
    ghost var all := LeadingResults(messages[index..]);
    ghost var left := all.0;
    while next < |messages|
      invariant index <= next <= |messages|
      invariant results + left == all.0
      invariant LeadingResults(messages[next..]) == (left, all.1)
      invariant next == index ==> results == []
    {
      if !messages[next].ToolResultMessage? {
        break;
      }
      LeadingStep(messages, next);
      Regroups(results, left);
      results := results + [ConvertResult(messages[next].result)];
      left := left[1..];
      next := next + 1;
    }
    LeadingEnds(messages, next);
    assert results + [] == results;
  }

  lemma LeadingStep(messages: seq<Message>, next: nat)
    requires next < |messages| && messages[next].ToolResultMessage?
    ensures var here, later := LeadingResults(messages[next..]), LeadingResults(messages[next + 1..]);
            && here.0 != [] && here.0[0] == ConvertResult(messages[next].result)
            && here.0[1..] == later.0 && here.1 == later.1
  {
    assert messages[next..][0] == messages[next] && messages[next..][1..] == messages[next + 1..];
  }

  lemma LeadingEnds(messages: seq<Message>, next: nat)
    requires next <= |messages| && (next < |messages| ==> !messages[next].ToolResultMessage?)
    ensures LeadingResults(messages[next..]) == ([], messages[next..])
  {
  }

  lemma Regroups(done: seq<OutBlock>, left: seq<OutBlock>)
    requires left != []
    ensures (done + [left[0]]) + left[1..] == done + left
  {
  }

  method ConvertBedrockMessages(rules: Rules, messages: seq<Message>, signedThinking: bool, now: int)
    returns (result: seq<OutMessage>)
    ensures result == Convert(Transform(rules, messages, now), signedThinking)
    ensures EveryUseAnswered(result)
    ensures EveryResultAnswers(result, {}) <==> NoOrphans(Kept(Prepared(rules, messages)), {})
    ensures ListSays(rules, messages, signedThinking, now, result)
  {
    var transformed := InsertSyntheticToolResults(Prepared(rules, messages), now);
    result := ConvertTransformed(transformed, signedThinking);
    BedrockProtocolHolds(rules, messages, signedThinking, now);
    ListSaysEverything(rules, messages, signedThinking, now);
  }

  method ConvertTransformed(transformed: seq<Message>, signedThinking: bool) returns (result: seq<OutMessage>)
    ensures result == Convert(transformed, signedThinking)
  {
    result := [];
    var index := 0;
    while index < |transformed|
      invariant index <= |transformed|
      invariant result + Convert(transformed[index..], signedThinking) == Convert(transformed, signedThinking)
      decreases |transformed| - index
    {
      var turns, next := ConvertNext(transformed, index, signedThinking);
      Associates(result, turns, Convert(transformed[next..], signedThinking));
      result := result + turns;
      index := next;
    }
  }

  /** One round of the loop: a user message, an assistant message, or a run of tool results. */
  method ConvertNext(transformed: seq<Message>, index: nat, signedThinking: bool)
    returns (turns: seq<OutMessage>, next: nat)
    requires index < |transformed|
    ensures index < next <= |transformed|
    ensures Convert(transformed[index..], signedThinking) == turns + Convert(transformed[next..], signedThinking)
  {
    assert transformed[index..][0] == transformed[index] && transformed[index..][1..] == transformed[index + 1..];
    match transformed[index]
    case UserMessage(user, _) =>
      return [UserTurn(ConvertUser(user))], index + 1;
    case AssistantMessage(a) =>
      var content := ConvertBlocks(a.content, signedThinking);
      return if content == [] then [] else [AssistantTurn(content)], index + 1;
    case ToolResultMessage(r) =>
      var results;
      results, next := GroupResults(transformed, index);
      return [UserTurn(results)], next;
  }

  lemma Associates(a: seq<OutMessage>, b: seq<OutMessage>, c: seq<OutMessage>)
    ensures (a + b) + c == a + (b + c)
    ensures b == [] ==> a + b == a
  {
  }
}
