/** Preparing a transcript for another model: images are downgraded, call ids renamed, failed
    turns dropped and missing tool results filled in. */
module MessageTransform {
  import opened Wrappers
  import opened Text
  import opened Messages

  // ---------------------------------------------------------------------
  // Image downgrade.

  const USER_IMAGE_PLACEHOLDER := "(image omitted: model does not support images)"
  const TOOL_IMAGE_PLACEHOLDER := "(tool image omitted: model does not support images)"

  /** Every run of images becomes one placeholder, and none where one already stands. */
  function WithoutImages(parts: seq<Part>, placeholder: string, afterPlaceholder: bool): seq<Part> {
    if parts == [] then []
    else
      match parts[0]
      case ImagePart(_, _) =>
        (if afterPlaceholder then [] else [TextPart(placeholder)]) + WithoutImages(parts[1..], placeholder, true)
      case TextPart(text) => [parts[0]] + WithoutImages(parts[1..], placeholder, text == placeholder)
  }

  predicate HasImage(parts: seq<Part>) {
    exists i :: 0 <= i < |parts| && parts[i].ImagePart?
  }

  function TextsExcept(parts: seq<Part>, placeholder: string): seq<Part> {
    if parts == [] then []
    else
      (if parts[0].TextPart? && parts[0].text != placeholder then [parts[0]] else [])
      + TextsExcept(parts[1..], placeholder)
  }

  /** No image is left, no text is lost or reordered, an image always leaves a placeholder, and a
      content without images is unchanged. */
  lemma {:induction false} DowngradeKeepsTexts(parts: seq<Part>, placeholder: string, afterPlaceholder: bool)
    ensures var out := WithoutImages(parts, placeholder, afterPlaceholder);
            && !HasImage(out)
            && TextsExcept(out, placeholder) == TextsExcept(parts, placeholder)
            && (HasImage(parts) && !afterPlaceholder ==> TextPart(placeholder) in out)
            && (!HasImage(parts) ==> out == parts)
  {
    if parts != [] {
      var after := parts[0].ImagePart? || parts[0].text == placeholder;
      DowngradeKeepsTexts(parts[1..], placeholder, after);
      var rest := WithoutImages(parts[1..], placeholder, after);
      if parts[0].ImagePart? && afterPlaceholder {
        assert [] + rest == rest;
      } else if parts[0].ImagePart? {
        assert ([TextPart(placeholder)] + rest)[1..] == rest;
      } else {
        assert ([parts[0]] + rest)[1..] == rest;
        assert HasImage(parts) ==> HasImage(parts[1..]);
        assert !HasImage(parts) ==> !HasImage(parts[1..]);
      }
    }
  }

  method ReplaceImagesWithPlaceholder(parts: seq<Part>, placeholder: string) returns (result: seq<Part>)
    ensures result == WithoutImages(parts, placeholder, false)
    ensures !HasImage(result)
  {
    result := [];
    var previousWasPlaceholder := false;
    for i := 0 to |parts|
      invariant result + WithoutImages(parts[i..], placeholder, previousWasPlaceholder)
             == WithoutImages(parts, placeholder, false)
    {
      WithoutImagesStep(parts, placeholder, previousWasPlaceholder, i, result);
      match parts[i]
      case ImagePart(_, _) =>
        if !previousWasPlaceholder {
          result := result + [TextPart(placeholder)];
        }
        previousWasPlaceholder := true;
      case TextPart(text) =>
        previousWasPlaceholder := text == placeholder;
        result := result + [parts[i]];
    }
    DowngradeKeepsTexts(parts, placeholder, false);
  }

  lemma WithoutImagesStep(parts: seq<Part>, placeholder: string, after: bool, i: nat, done: seq<Part>)
    requires i < |parts|
    ensures var next := parts[i].ImagePart? || parts[i].text == placeholder;
            var piece := if !parts[i].ImagePart? then [parts[i]] else if after then [] else [TextPart(placeholder)];
            done + WithoutImages(parts[i..], placeholder, after)
            == (done + piece) + WithoutImages(parts[i + 1..], placeholder, next)
    ensures done + [] == done
  {
    assert parts[i..][1..] == parts[i + 1..];
    var next := parts[i].ImagePart? || parts[i].text == placeholder;
    var piece := if !parts[i].ImagePart? then [parts[i]] else if after then [] else [TextPart(placeholder)];
    assert done + (piece + WithoutImages(parts[i + 1..], placeholder, next))
        == (done + piece) + WithoutImages(parts[i + 1..], placeholder, next);
  }

  /** An image that follows neither an image nor the placeholder text. */
  predicate OpensGap(parts: seq<Part>, i: nat, placeholder: string)
    requires i < |parts|
  {
    parts[i].ImagePart? && (i == 0 || (parts[i - 1].TextPart? && parts[i - 1].text != placeholder))
  }

  /** The first `n` parts with the placeholder for each run of images. */
  function WithGaps(parts: seq<Part>, placeholder: string, n: nat): seq<Part>
    requires n <= |parts|
  {
    if n == 0 then []
    else
      WithGaps(parts, placeholder, n - 1)
      + if parts[n - 1].TextPart? then [parts[n - 1]]
        else if OpensGap(parts, n - 1, placeholder) then [TextPart(placeholder)] else []
  }

  lemma {:induction false} GapsSoFar(parts: seq<Part>, placeholder: string, n: nat)
    requires n <= |parts|
    ensures var after := n > 0 && (parts[n - 1].ImagePart? || parts[n - 1].text == placeholder);
            WithoutImages(parts, placeholder, false) ==
            WithGaps(parts, placeholder, n) + WithoutImages(parts[n..], placeholder, after)
  {
    if n == 0 {
      var all := WithoutImages(parts, placeholder, false);
      assert parts[0..] == parts && [] + all == all;
    } else {
      var after := n > 1 && (parts[n - 2].ImagePart? || parts[n - 2].text == placeholder);
      GapsSoFar(parts, placeholder, n - 1);
      WithoutImagesStep(parts, placeholder, after, n - 1, WithGaps(parts, placeholder, n - 1));
    }
  }

  /** Every run of images leaves one placeholder where it stood, unless the placeholder stands before it. */
  lemma EveryRunOfImagesLeavesOne(parts: seq<Part>, placeholder: string)
    ensures WithoutImages(parts, placeholder, false) == WithGaps(parts, placeholder, |parts|)
  {
    GapsSoFar(parts, placeholder, |parts|);
    assert parts[|parts|..] == [];
    assert WithGaps(parts, placeholder, |parts|) + [] == WithGaps(parts, placeholder, |parts|);
  }

  function DowngradeImages(message: Message, model: Model): Message {
    if model.acceptsImages then message
    else
      match message
      case UserMessage(Blocks(parts), timestamp) =>
        UserMessage(Blocks(WithoutImages(parts, USER_IMAGE_PLACEHOLDER, false)), timestamp)
      case ToolResultMessage(result) =>
        ToolResultMessage(result.(content := WithoutImages(result.content, TOOL_IMAGE_PLACEHOLDER, false)))
      case _ => message
  }

  // ---------------------------------------------------------------------
  // Rewriting assistant messages and renaming call ids.

  /** The caller's id normalizer; None when the provider does not rename. */
  type Normalizer = Option<(string, Model, Assistant) -> string>

  type IdMap = map<string, string>

  datatype Rules = Rules(model: Model, normalize: Normalizer)

  predicate IsSameModel(a: Assistant, model: Model) {
    a.provider == model.provider && a.api == model.api && a.model == model.id
  }

  /** A block as it is replayed, or None when it is dropped; tool calls are handled by RenameCall. */
  function RewriteBlock(block: Block, same: bool): Option<Block>
    requires !block.CallBlock?
  {
    match block
    case ThinkingBlock(thinking, signature, redacted) =>
      if redacted then (if same then Some(block) else None)
      else if same && signature.Some? && signature.value != "" then Some(block)
      else if IsBlank(thinking) then None
      else if same then Some(block)
      else Some(TextBlock(thinking, None))
    case TextBlock(text, _) => if same then Some(block) else Some(TextBlock(text, None))
  }

  function RenamedId(rules: Rules, a: Assistant, id: string): string {
    if IsSameModel(a, rules.model) || rules.normalize.None? then id
    else rules.normalize.value(id, rules.model, a)
  }

  function RenameCall(rules: Rules, a: Assistant, call: ToolCall): ToolCall {
    if IsSameModel(a, rules.model) then call
    else call.(thoughtSignature := None, id := RenamedId(rules, a, call.id))
  }

  function RememberId(ids: IdMap, original: string, renamed: string): IdMap {
    if renamed != original then ids[original := renamed] else ids
  }

  function RewriteBlocks(rules: Rules, a: Assistant, blocks: seq<Block>, ids: IdMap): (seq<Block>, IdMap) {
    if blocks == [] then ([], ids)
    else
      match blocks[0]
      case CallBlock(call) =>
        var renamed := RenameCall(rules, a, call);
        var (rest, ids') := RewriteBlocks(rules, a, blocks[1..], RememberId(ids, call.id, renamed.id));
        ([CallBlock(renamed)] + rest, ids')
      case _ =>
        var (rest, ids') := RewriteBlocks(rules, a, blocks[1..], ids);
        var rewritten := RewriteBlock(blocks[0], IsSameModel(a, rules.model));
        ((if rewritten.Some? then [rewritten.value] else []) + rest, ids')
  }

  function RewriteMessage(rules: Rules, message: Message, ids: IdMap): (Message, IdMap) {
    match message
    case UserMessage(_, _) => (message, ids)
    case ToolResultMessage(result) =>
      (if result.toolCallId in ids
       then ToolResultMessage(result.(toolCallId := ids[result.toolCallId])) else message, ids)
    case AssistantMessage(a) =>
      var (content, ids') := RewriteBlocks(rules, a, a.content, ids);
      (AssistantMessage(a.(content := content)), ids')
  }

  /** The id map before message `i`. */
  function IdsBefore(rules: Rules, messages: seq<Message>, i: nat): IdMap
    requires i <= |messages|
  {
    if i == 0 then map[]
    else RewriteMessage(rules, messages[i - 1], IdsBefore(rules, messages, i - 1)).1
  }

  function Rewritten(rules: Rules, messages: seq<Message>): (out: seq<Message>)
    ensures |out| == |messages|
  {
    seq(|messages|, i requires 0 <= i < |messages| =>
      RewriteMessage(rules, messages[i], IdsBefore(rules, messages, i)).0)
  }

  // ---------------------------------------------------------------------
  // Filling in missing tool results.

  /** One message of the repaired transcript: an original one, or the result made up for a call. */
  datatype Entry = Original(message: Message) | MadeUp(call: ToolCall)

  function MadeUpResult(call: ToolCall, now: int): Message {
    ToolResultMessage(ToolResult(call.id, call.name, [TextPart("No result provided")], true, None, now))
  }

  function EntryMessage(e: Entry, now: int): Message {
    match e
    case Original(message) => message
    case MadeUp(call) => MadeUpResult(call, now)
  }

  function Unentered(entries: seq<Entry>, now: int): (out: seq<Message>)
    ensures |out| == |entries|
  {
    seq(|entries|, i requires 0 <= i < |entries| => EntryMessage(entries[i], now))
  }

  /** The results made up for the calls that were not answered. */
  function MadeUpFor(calls: seq<ToolCall>, answered: set<string>): seq<Entry> {
    if calls == [] then []
    else (if calls[0].id in answered then [] else [MadeUp(calls[0])]) + MadeUpFor(calls[1..], answered)
  }

  predicate IsFailed(a: Assistant) {
    a.stopReason.Error? || a.stopReason.Aborted?
  }

  /** The pass over a transcript, with the calls still waiting and the ids answered so far. */
  function Repaired(messages: seq<Message>, waiting: seq<ToolCall>, answered: set<string>): seq<Entry> {
    if messages == [] then MadeUpFor(waiting, answered)
    else
      var rest := messages[1..];
      match messages[0]
      case AssistantMessage(a) =>
        MadeUpFor(waiting, answered)
        + if IsFailed(a) then Repaired(rest, [], {})
          else [Original(messages[0])] + Repaired(rest, CallsOf(a.content), {})
      case ToolResultMessage(result) =>
        [Original(messages[0])] + Repaired(rest, waiting, answered + {result.toolCallId})
      case UserMessage(_, _) =>
        MadeUpFor(waiting, answered) + ([Original(messages[0])] + Repaired(rest, [], {}))
  }

  function Downgraded(messages: seq<Message>, model: Model): (out: seq<Message>)
    ensures |out| == |messages|
  {
    seq(|messages|, i requires 0 <= i < |messages| => DowngradeImages(messages[i], model))
  }

  /** The transcript the result pass works on. */
  function Prepared(rules: Rules, messages: seq<Message>): seq<Message> {
    Rewritten(rules, Downgraded(messages, rules.model))
  }

  /** `transform_messages` as a whole. */
  function Transform(rules: Rules, messages: seq<Message>, now: int): seq<Message> {
    Unentered(Repaired(Prepared(rules, messages), [], {}), now)
  }

  // ---------------------------------------------------------------------
  // The result pass keeps the transcript and answers every call.

  lemma UnenteredAppend(a: seq<Entry>, b: seq<Entry>, now: int)
    ensures Unentered(a + b, now) == Unentered(a, now) + Unentered(b, now)
  {
  }

  /** The original messages among the entries. */
  function Erased(entries: seq<Entry>): seq<Message> {
    if entries == [] then []
    else (if entries[0].Original? then [entries[0].message] else []) + Erased(entries[1..])
  }

  lemma {:induction false} ErasedAppend(a: seq<Entry>, b: seq<Entry>)
    ensures Erased(a + b) == Erased(a) + Erased(b)
  {
    if a == [] {
      assert a + b == b;
    } else {
      assert (a + b)[1..] == a[1..] + b && (a + b)[0] == a[0];
      ErasedAppend(a[1..], b);
      var head: seq<Message> := if a[0].Original? then [a[0].message] else [];
      assert Erased(a + b) == head + Erased(a[1..] + b);
      assert head + (Erased(a[1..]) + Erased(b)) == (head + Erased(a[1..])) + Erased(b);
    }
  }

  lemma {:induction false} MadeUpErases(calls: seq<ToolCall>, answered: set<string>)
    ensures Erased(MadeUpFor(calls, answered)) == []
  {
    if calls != [] {
      MadeUpErases(calls[1..], answered);
      var head: seq<Entry> := if calls[0].id in answered then [] else [MadeUp(calls[0])];
      ErasedAppend(head, MadeUpFor(calls[1..], answered));
    }
  }

  /** The messages that are not failed assistant turns. */
  function Kept(messages: seq<Message>): seq<Message> {
    if messages == [] then []
    else
      (if messages[0].AssistantMessage? && IsFailed(messages[0].assistant) then [] else [messages[0]])
      + Kept(messages[1..])
  }

  /** With the made-up results erased, the pass returns its input without the failed assistant
      turns, in order. */
  lemma {:induction false} ErasingMadeUpResults(messages: seq<Message>, waiting: seq<ToolCall>, answered: set<string>)
    ensures Erased(Repaired(messages, waiting, answered)) == Kept(messages)
  {
    MadeUpErases(waiting, answered);
    if messages != [] {
      var rest := messages[1..];
      var head := [Original(messages[0])];
      match messages[0]
      case AssistantMessage(a) =>
        ErasingMadeUpResults(rest, [], {});
        ErasingMadeUpResults(rest, CallsOf(a.content), {});
        var tail := if IsFailed(a) then Repaired(rest, [], {}) else head + Repaired(rest, CallsOf(a.content), {});
        ErasedAppend(MadeUpFor(waiting, answered), tail);
        ErasedAppend(head, Repaired(rest, CallsOf(a.content), {}));
      case ToolResultMessage(result) =>
        ErasingMadeUpResults(rest, waiting, answered + {result.toolCallId});
        ErasedAppend(head, Repaired(rest, waiting, answered + {result.toolCallId}));
      case UserMessage(_, _) =>
        ErasingMadeUpResults(rest, [], {});
        ErasedAppend(MadeUpFor(waiting, answered), head + Repaired(rest, [], {}));
        ErasedAppend(head, Repaired(rest, [], {}));
    }
  }

  /** The ids answered by the tool results a transcript begins with. */
  function LeadingIds(messages: seq<Message>): set<string> {
    if messages == [] || !messages[0].ToolResultMessage? then {}
    else {messages[0].result.toolCallId} + LeadingIds(messages[1..])
  }

  /** Every tool call is answered in the run of tool results right after its assistant message. */
  predicate EveryCallAnswered(messages: seq<Message>) {
    messages != [] ==>
      && (messages[0].AssistantMessage? ==>
            forall c :: c in CallsOf(messages[0].assistant.content) ==> c.id in LeadingIds(messages[1..]))
      && EveryCallAnswered(messages[1..])
  }

  lemma {:induction false} MadeUpRun(calls: seq<ToolCall>, answered: set<string>, tail: seq<Message>, now: int)
    ensures var run := Unentered(MadeUpFor(calls, answered), now) + tail;
            && (forall c :: c in calls ==> c.id in answered || c.id in LeadingIds(run))
            && LeadingIds(tail) <= LeadingIds(run)
            && (EveryCallAnswered(tail) ==> EveryCallAnswered(run))
  {
    var run := Unentered(MadeUpFor(calls, answered), now) + tail;
    if calls == [] {
      assert run == tail;
    } else {
      var rest := Unentered(MadeUpFor(calls[1..], answered), now) + tail;
      MadeUpRun(calls[1..], answered, tail, now);
      var head: seq<Entry> := if calls[0].id in answered then [] else [MadeUp(calls[0])];
      UnenteredAppend(head, MadeUpFor(calls[1..], answered), now);
      if head == [] {
        assert run == rest;
      } else {
        assert run == [MadeUpResult(calls[0], now)] + rest && run[1..] == rest;
      }
    }
  }

  /** After the pass every kept call has a result before the next assistant or user message. */
  lemma {:induction false} RepairedAnswersEveryCall(
    messages: seq<Message>, waiting: seq<ToolCall>, answered: set<string>, now: int)
    ensures var out := Unentered(Repaired(messages, waiting, answered), now);
            && EveryCallAnswered(out)
            && forall c :: c in waiting ==> c.id in answered || c.id in LeadingIds(out)
  {
    var out := Unentered(Repaired(messages, waiting, answered), now);
    if messages == [] {
      MadeUpRun(waiting, answered, [], now);
      assert out + [] == out;
    } else {
      var rest := messages[1..];
      var head := [Original(messages[0])];
      match messages[0]
      case ToolResultMessage(result) =>
        var tail := Repaired(rest, waiting, answered + {result.toolCallId});
        RepairedAnswersEveryCall(rest, waiting, answered + {result.toolCallId}, now);
        UnenteredAppend(head, tail, now);
        assert out[1..] == Unentered(tail, now);
      case AssistantMessage(a) =>
        var after := Repaired(rest, if IsFailed(a) then [] else CallsOf(a.content), {});
        var tail := if IsFailed(a) then after else head + after;
        RepairedAnswersEveryCall(rest, if IsFailed(a) then [] else CallsOf(a.content), {}, now);
        UnenteredAppend(MadeUpFor(waiting, answered), tail, now);
        UnenteredAppend(head, after, now);
        MadeUpRun(waiting, answered, Unentered(tail, now), now);
        if !IsFailed(a) {
          assert Unentered(tail, now)[1..] == Unentered(after, now);
        }
      case UserMessage(_, _) =>
        var after := Repaired(rest, [], {});
        RepairedAnswersEveryCall(rest, [], {}, now);
        UnenteredAppend(MadeUpFor(waiting, answered), head + after, now);
        UnenteredAppend(head, after, now);
        MadeUpRun(waiting, answered, Unentered(head + after, now), now);
        assert Unentered(head + after, now)[1..] == Unentered(after, now);
    }
  }

  predicate NoneFailed(messages: seq<Message>) {
    forall i :: 0 <= i < |messages| && messages[i].AssistantMessage? ==> !IsFailed(messages[i].assistant)
  }

  predicate NoneFailedEntries(entries: seq<Entry>) {
    forall i :: 0 <= i < |entries| && entries[i].Original? && entries[i].message.AssistantMessage?
                ==> !IsFailed(entries[i].message.assistant)
  }

  lemma {:induction false} MadeUpHasNoneFailed(calls: seq<ToolCall>, answered: set<string>)
    ensures NoneFailedEntries(MadeUpFor(calls, answered))
  {
    if calls != [] {
      MadeUpHasNoneFailed(calls[1..], answered);
    }
  }

  lemma {:induction false} RepairedHasNoneFailed(messages: seq<Message>, waiting: seq<ToolCall>, answered: set<string>)
    ensures NoneFailedEntries(Repaired(messages, waiting, answered))
  {
    MadeUpHasNoneFailed(waiting, answered);
    if messages != [] {
      var rest := messages[1..];
      match messages[0]
      case AssistantMessage(a) =>
        RepairedHasNoneFailed(rest, if IsFailed(a) then [] else CallsOf(a.content), {});
      case ToolResultMessage(result) =>
        RepairedHasNoneFailed(rest, waiting, answered + {result.toolCallId});
      case UserMessage(_, _) =>
        RepairedHasNoneFailed(rest, [], {});
    }
  }

  lemma {:induction false} NothingToMakeUp(calls: seq<ToolCall>, answered: set<string>)
    requires forall c :: c in calls ==> c.id in answered
    ensures MadeUpFor(calls, answered) == []
  {
    if calls != [] {
      assert calls[0] in calls;
      NothingToMakeUp(calls[1..], answered);
    }
  }

  lemma NothingBefore(entries: seq<Entry>)
    ensures [] + entries == entries
  {
  }

  lemma {:induction false} AnsweredTranscriptIsFixed(
    messages: seq<Message>, waiting: seq<ToolCall>, answered: set<string>, now: int)
    requires EveryCallAnswered(messages) && NoneFailed(messages)
    requires forall c :: c in waiting ==> c.id in answered || c.id in LeadingIds(messages)
    ensures Unentered(Repaired(messages, waiting, answered), now) == messages
  {
    if messages == [] {
      NothingToMakeUp(waiting, answered);
    } else {
      var rest := messages[1..];
      assert messages == [messages[0]] + rest;
      match messages[0]
      case ToolResultMessage(result) =>
        AnsweredTranscriptIsFixed(rest, waiting, answered + {result.toolCallId}, now);
        UnenteredAppend([Original(messages[0])], Repaired(rest, waiting, answered + {result.toolCallId}), now);
      case AssistantMessage(a) =>
        NothingToMakeUp(waiting, answered);
        AnsweredTranscriptIsFixed(rest, CallsOf(a.content), {}, now);
        UnenteredAppend([Original(messages[0])], Repaired(rest, CallsOf(a.content), {}), now);
        NothingBefore([Original(messages[0])] + Repaired(rest, CallsOf(a.content), {}));
      case UserMessage(_, _) =>
        NothingToMakeUp(waiting, answered);
        AnsweredTranscriptIsFixed(rest, [], {}, now);
        UnenteredAppend([Original(messages[0])], Repaired(rest, [], {}), now);
        NothingBefore([Original(messages[0])] + Repaired(rest, [], {}));
    }
  }

  /** Running the pass over its own output changes nothing. */
  lemma ResultPassIsIdempotent(messages: seq<Message>, now: int, later: int)
    ensures var once := Unentered(Repaired(messages, [], {}), now);
            Unentered(Repaired(once, [], {}), later) == once
  {
    RepairedAnswersEveryCall(messages, [], {}, now);
    RepairedHasNoneFailed(messages, [], {});
    AnsweredTranscriptIsFixed(Unentered(Repaired(messages, [], {}), now), [], {}, later);
  }

  // ---------------------------------------------------------------------
  // The shape of one turn after the pass.

  predicate AllResults(messages: seq<Message>) {
    forall i :: 0 <= i < |messages| ==> messages[i].ToolResultMessage?
  }

  function ResultIds(messages: seq<Message>): set<string>
    requires AllResults(messages)
  {
    set i | 0 <= i < |messages| :: messages[i].result.toolCallId
  }

  function Originals(messages: seq<Message>): seq<Entry> {
    seq(|messages|, i requires 0 <= i < |messages| => Original(messages[i]))
  }

  lemma {:induction false} ResultsAreCopied(
    results: seq<Message>, after: seq<Message>, waiting: seq<ToolCall>, answered: set<string>)
    requires AllResults(results)
    ensures Repaired(results + after, waiting, answered)
         == Originals(results) + Repaired(after, waiting, answered + ResultIds(results))
  {
    if results == [] {
      assert results + after == after && answered + ResultIds(results) == answered;
      assert Originals(results) == [];
    } else {
      var rest := results[1..];
      assert (results + after)[1..] == rest + after;
      var id := results[0].result.toolCallId;
      ResultsAreCopied(rest, after, waiting, answered + {id});
      assert ResultIds(results) == {id} + ResultIds(rest) by {
        assert results[0] in results;
        assert forall i :: 0 < i < |results| ==> results[i] == rest[i - 1];
        assert forall i :: 0 <= i < |rest| ==> rest[i] == results[i + 1];
      }
      assert answered + {id} + ResultIds(rest) == answered + ResultIds(results);
      assert Originals(results) == [Original(results[0])] + Originals(rest);
    }
  }

  /** A kept turn comes out as its assistant message, all its results in order, then one made-up
      result for each call none of them answered, then the rest. */
  lemma TurnShape(
    a: Assistant, results: seq<Message>, after: seq<Message>, waiting: seq<ToolCall>, answered: set<string>)
    requires !IsFailed(a) && AllResults(results)
    requires after == [] || !after[0].ToolResultMessage?
    ensures Repaired([AssistantMessage(a)] + (results + after), waiting, answered)
         == MadeUpFor(waiting, answered)
            + ([Original(AssistantMessage(a))] + (Originals(results)
               + (MadeUpFor(CallsOf(a.content), ResultIds(results)) + Repaired(after, [], {}))))
  {
    var calls := CallsOf(a.content);
    assert ([AssistantMessage(a)] + (results + after))[1..] == results + after;
    ResultsAreCopied(results, after, calls, {});
    assert {} + ResultIds(results) == ResultIds(results);
    var ids := ResultIds(results);
    if after == [] {
      assert Repaired(after, [], {}) == [];
      assert MadeUpFor(calls, ids) + [] == MadeUpFor(calls, ids);
    } else {
      assert MadeUpFor([], {}) == [];
      match after[0]
      case AssistantMessage(b) =>
        var tail := if IsFailed(b) then Repaired(after[1..], [], {})
                    else [Original(after[0])] + Repaired(after[1..], CallsOf(b.content), {});
        assert Repaired(after, calls, ids) == MadeUpFor(calls, ids) + tail;
        assert Repaired(after, [], {}) == [] + tail == tail;
      case UserMessage(_, _) =>
        var tail := [Original(after[0])] + Repaired(after[1..], [], {});
        assert Repaired(after, [], {}) == [] + tail == tail;
      case _ =>
    }
  }

  /** A result is made up for a call exactly when its id was not answered. */
  lemma {:induction false} MadeUpExactlyForUnanswered(calls: seq<ToolCall>, answered: set<string>, call: ToolCall)
    ensures MadeUp(call) in MadeUpFor(calls, answered) <==> call in calls && call.id !in answered
  {
    if calls != [] {
      MadeUpExactlyForUnanswered(calls[1..], answered, call);
    }
  }

  // ---------------------------------------------------------------------
  // Renaming keeps answers with their calls.

  function CallIds(m: Message): seq<string> {
    if m.AssistantMessage? then IdsOf(CallsOf(m.assistant.content)) else []
  }

  function IdsOf(calls: seq<ToolCall>): (ids: seq<string>)
    ensures |ids| == |calls|
    ensures forall i :: 0 <= i < |calls| ==> ids[i] == calls[i].id
  {
    seq(|calls|, i requires 0 <= i < |calls| => calls[i].id)
  }

  /** No call id occurs twice in the transcript. */
  predicate UniqueCallIds(messages: seq<Message>) {
    forall i, j, p, q |
      0 <= i < |messages| && 0 <= j < |messages|
      && 0 <= p < |CallIds(messages[i])| && 0 <= q < |CallIds(messages[j])|
      :: CallIds(messages[i])[p] == CallIds(messages[j])[q] ==> i == j && p == q
  }

  function Resolve(ids: IdMap, id: string): string {
    if id in ids then ids[id] else id
  }

  predicate NotAmong(calls: seq<ToolCall>, id: string) {
    forall k :: 0 <= k < |calls| ==> calls[k].id != id
  }

  /** Only the ids of the calls may resolve differently. */
  ghost predicate LeavesOthers(calls: seq<ToolCall>, ids: IdMap, ids': IdMap) {
    forall id :: NotAmong(calls, id) ==> (id in ids' <==> id in ids) && Resolve(ids', id) == Resolve(ids, id)
  }

  /** Each call is renamed in place. */
  predicate RenamesCalls(rules: Rules, a: Assistant, calls: seq<ToolCall>, renamed: seq<ToolCall>) {
    |renamed| == |calls| && forall k :: 0 <= k < |calls| ==> renamed[k] == RenameCall(rules, a, calls[k])
  }

  /** Rewriting renames each call in place and touches only the ids of its own calls. */
  lemma {:induction false} RewriteBlocksRenames(rules: Rules, a: Assistant, blocks: seq<Block>, ids: IdMap)
    ensures RenamesCalls(rules, a, CallsOf(blocks), CallsOf(RewriteBlocks(rules, a, blocks, ids).0))
    ensures LeavesOthers(CallsOf(blocks), ids, RewriteBlocks(rules, a, blocks, ids).1)
    decreases |blocks|
  {
    if blocks != [] {
      var rest := blocks[1..];
      RewriteContentStep(rules, a, blocks, ids);
      if blocks[0].CallBlock? {
        var call := blocks[0].call;
        var ids1 := RememberId(ids, call.id, RenameCall(rules, a, call).id);
        RewriteBlocksRenames(rules, a, rest, ids1);
        RewriteCallStep(rules, a, blocks, ids);
        LeavesOthersToo(rules, a, call, CallsOf(rest), ids, RewriteBlocks(rules, a, rest, ids1).1);
        RenamesFirst(rules, a, call, CallsOf(rest), CallsOf(RewriteBlocks(rules, a, rest, ids1).0));
      } else {
        RewriteBlocksRenames(rules, a, rest, ids);
        RewriteCallStep(rules, a, blocks, ids);
      }
    }
  }

  lemma RenamesFirst(rules: Rules, a: Assistant, call: ToolCall, calls: seq<ToolCall>, renamed: seq<ToolCall>)
    requires RenamesCalls(rules, a, calls, renamed)
    ensures RenamesCalls(rules, a, [call] + calls, [RenameCall(rules, a, call)] + renamed)
  {
  }

  lemma LeavesOthersToo(rules: Rules, a: Assistant, call: ToolCall, calls: seq<ToolCall>, ids: IdMap, ids': IdMap)
    requires LeavesOthers(calls, RememberId(ids, call.id, RenameCall(rules, a, call).id), ids')
    ensures LeavesOthers([call] + calls, ids, ids')
  {
    var all := [call] + calls;
    forall id | NotAmong(all, id)
      ensures (id in ids' <==> id in ids) && Resolve(ids', id) == Resolve(ids, id)
    {
      assert all[0].id != id;
      assert forall k :: 0 <= k < |calls| ==> calls[k] == all[k + 1];
      assert NotAmong(calls, id);
    }
  }

  predicate DistinctIds(calls: seq<ToolCall>) {
    forall p, q :: 0 <= p < q < |calls| ==> calls[p].id != calls[q].id
  }

  lemma RewriteCallStep(rules: Rules, a: Assistant, blocks: seq<Block>, ids: IdMap)
    requires blocks != []
    ensures blocks[0].CallBlock? ==>
      RewriteBlocks(rules, a, blocks, ids).1
        == RewriteBlocks(rules, a, blocks[1..],
                         RememberId(ids, blocks[0].call.id, RenameCall(rules, a, blocks[0].call).id)).1
      && CallsOf(blocks) == [blocks[0].call] + CallsOf(blocks[1..])
    ensures !blocks[0].CallBlock? ==>
      RewriteBlocks(rules, a, blocks, ids).1 == RewriteBlocks(rules, a, blocks[1..], ids).1
      && CallsOf(blocks) == CallsOf(blocks[1..])
  {
    assert [] + CallsOf(blocks[1..]) == CallsOf(blocks[1..]);
  }

  lemma RewriteContentStep(rules: Rules, a: Assistant, blocks: seq<Block>, ids: IdMap)
    requires blocks != []
    ensures var content := RewriteBlocks(rules, a, blocks, ids).0;
            if blocks[0].CallBlock? then
              var call := blocks[0].call;
              var ids1 := RememberId(ids, call.id, RenameCall(rules, a, call).id);
              CallsOf(content) == [RenameCall(rules, a, call)] + CallsOf(RewriteBlocks(rules, a, blocks[1..], ids1).0)
            else CallsOf(content) == CallsOf(RewriteBlocks(rules, a, blocks[1..], ids).0)
  {
    var content := RewriteBlocks(rules, a, blocks, ids).0;
    if blocks[0].CallBlock? {
      var call := blocks[0].call;
      var ids1 := RememberId(ids, call.id, RenameCall(rules, a, call).id);
      assert content[1..] == RewriteBlocks(rules, a, blocks[1..], ids1).0;
    } else {
      var rest := RewriteBlocks(rules, a, blocks[1..], ids).0;
      var rewritten := RewriteBlock(blocks[0], IsSameModel(a, rules.model));
      CallsOfAppend(if rewritten.Some? then [rewritten.value] else [], rest);
      assert rewritten.Some? ==> CallsOf([rewritten.value]) == [];
      assert [] + CallsOf(rest) == CallsOf(rest);
    }
  }

  /** A call's old id leads to its new one once its message has been rewritten. */
  lemma {:induction false} CallResolves(rules: Rules, a: Assistant, blocks: seq<Block>, ids: IdMap, k: nat)
    requires k < |CallsOf(blocks)| && CallsOf(blocks)[k].id !in ids && DistinctIds(CallsOf(blocks))
    ensures Resolve(RewriteBlocks(rules, a, blocks, ids).1, CallsOf(blocks)[k].id)
         == RenameCall(rules, a, CallsOf(blocks)[k]).id
    decreases |blocks|
  {
    var rest := blocks[1..];
    RewriteCallStep(rules, a, blocks, ids);
    if blocks[0].CallBlock? {
      var call := blocks[0].call;
      var ids1 := RememberId(ids, call.id, RenameCall(rules, a, call).id);
      assert CallsOf(blocks)[1..] == CallsOf(rest);
      DistinctTail(CallsOf(blocks));
      if k == 0 {
        RewriteBlocksRenames(rules, a, rest, ids1);
        assert NotAmong(CallsOf(rest), call.id);
      } else {
        CallResolves(rules, a, rest, ids1, k - 1);
      }
    } else {
      CallResolves(rules, a, rest, ids, k);
    }
  }

  lemma DistinctTail(calls: seq<ToolCall>)
    requires calls != [] && DistinctIds(calls)
    ensures DistinctIds(calls[1..]) && NotAmong(calls[1..], calls[0].id)
    ensures forall p :: 0 <= p < |calls| - 1 ==> calls[1..][p] == calls[p + 1]
  {
  }

  lemma {:induction false} ForeignIdUntouched(rules: Rules, messages: seq<Message>, i: nat, j: nat, id: string)
    requires i <= j <= |messages|
    requires forall m :: i <= m < j ==> id !in CallIds(messages[m])
    ensures id in IdsBefore(rules, messages, j) <==> id in IdsBefore(rules, messages, i)
    ensures Resolve(IdsBefore(rules, messages, j), id) == Resolve(IdsBefore(rules, messages, i), id)
    decreases j
  {
    if i < j {
      ForeignIdUntouched(rules, messages, i, j - 1, id);
      var m := messages[j - 1];
      if m.AssistantMessage? {
        RewriteBlocksRenames(rules, m.assistant, m.assistant.content, IdsBefore(rules, messages, j - 1));
        assert id !in CallIds(m);
        assert forall k :: 0 <= k < |CallIds(m)| ==> CallIds(m)[k] in CallIds(m);
      }
    }
  }

  lemma UniqueMeansElsewhereAbsent(messages: seq<Message>, i: nat, k: nat, m: nat)
    requires UniqueCallIds(messages) && i < |messages| && m < |messages| && m != i && k < |CallIds(messages[i])|
    ensures CallIds(messages[i])[k] !in CallIds(messages[m])
  {
    forall q | 0 <= q < |CallIds(messages[m])|
      ensures CallIds(messages[m])[q] != CallIds(messages[i])[k]
    {
    }
  }

  lemma AbsentElsewhere(messages: seq<Message>, i: nat, k: nat)
    requires UniqueCallIds(messages) && i < |messages| && k < |CallIds(messages[i])|
    ensures forall m :: 0 <= m < |messages| && m != i ==> CallIds(messages[i])[k] !in CallIds(messages[m])
  {
    forall m | 0 <= m < |messages| && m != i
      ensures CallIds(messages[i])[k] !in CallIds(messages[m])
    {
      UniqueMeansElsewhereAbsent(messages, i, k, m);
    }
  }

  lemma UniqueMeansDistinct(messages: seq<Message>, i: nat)
    requires UniqueCallIds(messages) && i < |messages| && messages[i].AssistantMessage?
    ensures DistinctIds(CallsOf(messages[i].assistant.content))
  {
    var calls := CallsOf(messages[i].assistant.content);
    forall p, q | 0 <= p < q < |calls|
      ensures calls[p].id != calls[q].id
    {
      assert CallIds(messages[i])[p] != CallIds(messages[i])[q];
    }
  }

  lemma RewrittenCalls(rules: Rules, messages: seq<Message>, i: nat)
    requires i < |messages| && messages[i].AssistantMessage?
    ensures var out := Rewritten(rules, messages);
            var a := messages[i].assistant;
            && out[i].AssistantMessage? && |CallIds(out[i])| == |CallsOf(a.content)|
            && forall k :: 0 <= k < |CallsOf(a.content)| ==>
                 CallsOf(out[i].assistant.content)[k] == RenameCall(rules, a, CallsOf(a.content)[k])
  {
    var a := messages[i].assistant;
    RewriteBlocksRenames(rules, a, a.content, IdsBefore(rules, messages, i));
  }

  /** After its message, a unique call id leads to the renamed id for the rest of the transcript. */
  lemma IdLeadsToRenamed(rules: Rules, messages: seq<Message>, i: nat, j: nat, k: nat)
    requires UniqueCallIds(messages) && i < j <= |messages|
    requires messages[i].AssistantMessage? && k < |CallIds(messages[i])|
    ensures Resolve(IdsBefore(rules, messages, j), CallIds(messages[i])[k])
         == RenameCall(rules, messages[i].assistant, CallsOf(messages[i].assistant.content)[k]).id
  {
    var a := messages[i].assistant;
    var id := CallIds(messages[i])[k];
    AbsentElsewhere(messages, i, k);
    ForeignIdUntouched(rules, messages, 0, i, id);
    ForeignIdUntouched(rules, messages, i + 1, j, id);
    OwnMessageRenames(rules, messages, i, k);
  }

  lemma OwnMessageRenames(rules: Rules, messages: seq<Message>, i: nat, k: nat)
    requires UniqueCallIds(messages) && i < |messages|
    requires messages[i].AssistantMessage? && k < |CallIds(messages[i])|
    requires CallIds(messages[i])[k] !in IdsBefore(rules, messages, i)
    ensures Resolve(IdsBefore(rules, messages, i + 1), CallIds(messages[i])[k])
         == RenameCall(rules, messages[i].assistant, CallsOf(messages[i].assistant.content)[k]).id
  {
    var a := messages[i].assistant;
    UniqueMeansDistinct(messages, i);
    CallResolves(rules, a, a.content, IdsBefore(rules, messages, i), k);
  }

  /** With call ids unique across the transcript, a result that answered a call before renaming
      answers the same call after it, and nothing else about it changes. */
  lemma RenamingKeepsAnswers(rules: Rules, messages: seq<Message>, i: nat, j: nat, k: nat)
    requires UniqueCallIds(messages) && i < j < |messages|
    requires messages[i].AssistantMessage? && k < |CallIds(messages[i])|
    requires messages[j].ToolResultMessage? && messages[j].result.toolCallId == CallIds(messages[i])[k]
    ensures var out := Rewritten(rules, messages);
            && out[i].AssistantMessage? && |CallIds(out[i])| == |CallIds(messages[i])|
            && out[j] == ToolResultMessage(messages[j].result.(toolCallId := CallIds(out[i])[k]))
  {
    RewrittenCalls(rules, messages, i);
    IdLeadsToRenamed(rules, messages, i, j, k);
  }

  // ---------------------------------------------------------------------
  // Where a turn's own answers stand in the whole pass.

  /** What the pass has put out after a stretch of messages, and what it then waits for. */
  datatype Progress = Progress(entries: seq<Entry>, waiting: seq<ToolCall>, answered: set<string>)

  function Advance(messages: seq<Message>, waiting: seq<ToolCall>, answered: set<string>): Progress {
    if messages == [] then Progress([], waiting, answered)
    else
      var rest := messages[1..];
      match messages[0]
      case AssistantMessage(a) =>
        var after := Advance(rest, if IsFailed(a) then [] else CallsOf(a.content), {});
        after.(entries := MadeUpFor(waiting, answered)
                          + ((if IsFailed(a) then [] else [Original(messages[0])]) + after.entries))
      case ToolResultMessage(result) =>
        var after := Advance(rest, waiting, answered + {result.toolCallId});
        after.(entries := [Original(messages[0])] + after.entries)
      case UserMessage(_, _) =>
        var after := Advance(rest, [], {});
        after.(entries := MadeUpFor(waiting, answered) + ([Original(messages[0])] + after.entries))
  }

  lemma EntriesAssociate(a: seq<Entry>, b: seq<Entry>, c: seq<Entry>, d: seq<Entry>)
    ensures a + (b + (c + d)) == (a + (b + c)) + d
    ensures b + (c + d) == (b + c) + d
    ensures b == [] ==> a + (c + d) == (a + (b + c)) + d
  {
  }

  /** The pass can be interrupted anywhere and resumed from what it waits for. */
  lemma {:induction false} PassResumes(
    before: seq<Message>, after: seq<Message>, waiting: seq<ToolCall>, answered: set<string>)
    ensures var p := Advance(before, waiting, answered);
            Repaired(before + after, waiting, answered) == p.entries + Repaired(after, p.waiting, p.answered)
  {
    if before == [] {
      assert before + after == after;
      assert [] + Repaired(after, waiting, answered) == Repaired(after, waiting, answered);
    } else {
      var rest := before[1..];
      assert (before + after)[1..] == rest + after && (before + after)[0] == before[0];
      var head := [Original(before[0])];
      var madeUp := MadeUpFor(waiting, answered);
      match before[0]
      case AssistantMessage(a) =>
        var calls := if IsFailed(a) then [] else CallsOf(a.content);
        PassResumes(rest, after, calls, {});
        var p := Advance(rest, calls, {});
        EntriesAssociate(madeUp, if IsFailed(a) then [] else head, p.entries, Repaired(after, p.waiting, p.answered));
      case ToolResultMessage(result) =>
        PassResumes(rest, after, waiting, answered + {result.toolCallId});
        var p := Advance(rest, waiting, answered + {result.toolCallId});
        EntriesAssociate([], head, p.entries, Repaired(after, p.waiting, p.answered));
      case UserMessage(_, _) =>
        PassResumes(rest, after, [], {});
        var p := Advance(rest, [], {});
        EntriesAssociate(madeUp, head, p.entries, Repaired(after, p.waiting, p.answered));
    }
  }

  /** What stands before message `i` once the pass has reached a turn that begins there. */
  function EntriesBefore(messages: seq<Message>, i: nat): seq<Entry>
    requires i <= |messages|
  {
    var p := Advance(messages[..i], [], {});
    p.entries + MadeUpFor(p.waiting, p.answered)
  }

  lemma EntriesBeforeErase(messages: seq<Message>, i: nat)
    requires i <= |messages|
    ensures Erased(EntriesBefore(messages, i)) == Kept(messages[..i])
  {
    PassResumes(messages[..i], [], [], {});
    assert messages[..i] + [] == messages[..i];
    ErasingMadeUpResults(messages[..i], [], {});
  }

  lemma SplitAtTurn(messages: seq<Message>, i: nat, n: nat)
    requires i < n <= |messages|
    ensures messages == messages[..i] + ([messages[i]] + (messages[i + 1..n] + messages[n..]))
  {
  }

  /** The kept turn that begins at message `i` and whose results end before message `n`, as it
      stands in the whole pass: what precedes it, its assistant message, its results in order, one
      made-up result for each call none of them answers, and what the rest of the transcript gives. */
  lemma TurnInPlace(messages: seq<Message>, i: nat, n: nat)
    requires i < n <= |messages| && messages[i].AssistantMessage? && !IsFailed(messages[i].assistant)
    requires AllResults(messages[i + 1..n]) && (n < |messages| ==> !messages[n].ToolResultMessage?)
    ensures var results := messages[i + 1..n];
            && Repaired(messages, [], {})
               == EntriesBefore(messages, i)
                  + ([Original(messages[i])] + (Originals(results)
                     + (MadeUpFor(CallsOf(messages[i].assistant.content), ResultIds(results))
                        + Repaired(messages[n..], [], {}))))
            && Erased(EntriesBefore(messages, i)) == Kept(messages[..i])
  {
    var p := Advance(messages[..i], [], {});
    var a := messages[i].assistant;
    var results, after := messages[i + 1..n], messages[n..];
    SplitAtTurn(messages, i, n);
    PassResumes(messages[..i], [messages[i]] + (results + after), [], {});
    TurnShape(a, results, after, p.waiting, p.answered);
    EntriesBeforeErase(messages, i);
    var turn := [Original(messages[i])] + (Originals(results)
                + (MadeUpFor(CallsOf(a.content), ResultIds(results)) + Repaired(after, [], {})));
    EntriesAssociate([], p.entries, MadeUpFor(p.waiting, p.answered), turn);
  }

  /** With call ids unique across the transcript, the pass makes up no result for a kept call that
      a result of its own turn answered before the ids were renamed. */
  lemma OwnAnswerSuffices(rules: Rules, messages: seq<Message>, i: nat, n: nat, j: nat, k: nat)
    requires UniqueCallIds(messages) && i < j < n <= |messages|
    requires messages[i].AssistantMessage? && !IsFailed(messages[i].assistant) && k < |CallIds(messages[i])|
    requires messages[j].ToolResultMessage? && messages[j].result.toolCallId == CallIds(messages[i])[k]
    requires AllResults(messages[i + 1..n]) && (n < |messages| ==> !messages[n].ToolResultMessage?)
    ensures var out := Rewritten(rules, messages);
            && out[i].AssistantMessage? && AllResults(out[i + 1..n])
            && k < |CallsOf(out[i].assistant.content)|
            && var results, calls := out[i + 1..n], CallsOf(out[i].assistant.content);
               Repaired(out, [], {})
               == EntriesBefore(out, i)
                  + ([Original(out[i])] + (Originals(results)
                     + (MadeUpFor(calls, ResultIds(results)) + Repaired(out[n..], [], {}))))
               && Erased(EntriesBefore(out, i)) == Kept(out[..i])
               && MadeUp(calls[k]) !in MadeUpFor(calls, ResultIds(results))
  {
    var out := Rewritten(rules, messages);
    RewritingKeepsTheTurn(rules, messages, i, n);
    RenamingKeepsAnswers(rules, messages, i, j, k);
    IsResultId(out, i + 1, n, j);
    TurnInPlace(out, i, n);
    var calls := CallsOf(out[i].assistant.content);
    MadeUpExactlyForUnanswered(calls, ResultIds(out[i + 1..n]), calls[k]);
  }

  lemma RewritingKeepsTheTurn(rules: Rules, messages: seq<Message>, i: nat, n: nat)
    requires i < n <= |messages| && messages[i].AssistantMessage? && !IsFailed(messages[i].assistant)
    requires AllResults(messages[i + 1..n]) && (n < |messages| ==> !messages[n].ToolResultMessage?)
    ensures var out := Rewritten(rules, messages);
            && out[i].AssistantMessage? && !IsFailed(out[i].assistant)
            && AllResults(out[i + 1..n]) && (n < |out| ==> !out[n].ToolResultMessage?)
  {
    assert forall m :: i < m < n ==> messages[m] == messages[i + 1..n][m - i - 1];
  }

  lemma IsResultId(messages: seq<Message>, from: nat, to: nat, j: nat)
    requires from <= j < to <= |messages| && AllResults(messages[from..to])
    ensures messages[j].ToolResultMessage? && messages[j].result.toolCallId in ResultIds(messages[from..to])
  {
    assert messages[from..to][j - from] == messages[j];
  }

  // ---------------------------------------------------------------------
  // Results without their call.

  function IdSet(calls: seq<ToolCall>): set<string> {
    set i | 0 <= i < |calls| :: calls[i].id
  }

  lemma IdSetUnfolds(blocks: seq<Block>)
    requires blocks != []
    ensures IdSet(CallsOf(blocks))
         == (if blocks[0].CallBlock? then {blocks[0].call.id} else {}) + IdSet(CallsOf(blocks[1..]))
  {
    var calls, rest := CallsOf(blocks), CallsOf(blocks[1..]);
    if blocks[0].CallBlock? {
      assert calls[0] == blocks[0].call && forall i :: 0 <= i < |rest| ==> calls[i + 1] == rest[i];
      assert forall i :: 0 < i < |calls| ==> calls[i] == rest[i - 1];
    } else {
      assert calls == rest;
    }
  }

  /** Every tool result answers a call of the last assistant message before it, with no user
      message in between; `ids` are the ids of that message. */
  predicate NoOrphans(messages: seq<Message>, ids: set<string>) {
    messages == [] ||
      match messages[0]
      case AssistantMessage(a) => NoOrphans(messages[1..], IdSet(CallsOf(a.content)))
      case ToolResultMessage(result) => result.toolCallId in ids && NoOrphans(messages[1..], ids)
      case UserMessage(_, _) => NoOrphans(messages[1..], {})
  }

  lemma {:induction false} MadeUpResultsAreNoOrphans(
    calls: seq<ToolCall>, answered: set<string>, tail: seq<Message>, ids: set<string>, now: int)
    requires IdSet(calls) <= ids
    ensures NoOrphans(Unentered(MadeUpFor(calls, answered), now) + tail, ids) <==> NoOrphans(tail, ids)
  {
    var run := Unentered(MadeUpFor(calls, answered), now) + tail;
    if calls == [] {
      assert run == tail;
    } else {
      var rest := Unentered(MadeUpFor(calls[1..], answered), now) + tail;
      assert calls[0].id in IdSet(calls);
      assert IdSet(calls[1..]) <= ids by {
        assert forall i :: 0 <= i < |calls| - 1 ==> calls[1..][i] == calls[i + 1] && calls[i + 1].id in IdSet(calls);
      }
      MadeUpResultsAreNoOrphans(calls[1..], answered, tail, ids, now);
      var head: seq<Entry> := if calls[0].id in answered then [] else [MadeUp(calls[0])];
      UnenteredAppend(head, MadeUpFor(calls[1..], answered), now);
      if head == [] {
        assert run == rest;
      } else {
        assert run == [MadeUpResult(calls[0], now)] + rest && run[1..] == rest;
      }
    }
  }

  /** The pass leaves a result without its call exactly when one stood without its call once the
      failed assistant messages are taken out. */
  lemma {:induction false} OrphansAreThoseOfTheInput(
    messages: seq<Message>, waiting: seq<ToolCall>, answered: set<string>, ids: set<string>, now: int)
    requires IdSet(waiting) <= ids
    ensures NoOrphans(Unentered(Repaired(messages, waiting, answered), now), ids) <==> NoOrphans(Kept(messages), ids)
  {
    if messages == [] {
      MadeUpResultsAreNoOrphans(waiting, answered, [], ids, now);
      assert Unentered(MadeUpFor(waiting, answered), now) + [] == Unentered(MadeUpFor(waiting, answered), now);
    } else {
      var rest := messages[1..];
      var kept := Kept(rest);
      match messages[0]
      case AssistantMessage(a) =>
        var calls := if IsFailed(a) then [] else CallsOf(a.content);
        var tail := if IsFailed(a) then Repaired(rest, [], {}) else [Original(messages[0])] + Repaired(rest, calls, {});
        UnenteredAppend(MadeUpFor(waiting, answered), tail, now);
        MadeUpResultsAreNoOrphans(waiting, answered, Unentered(tail, now), ids, now);
        OrphansAreThoseOfTheInput(rest, calls, {}, if IsFailed(a) then ids else IdSet(calls), now);
        if IsFailed(a) {
          assert [] + kept == kept;
        } else {
          HeadOfUnentered(messages[0], Repaired(rest, calls, {}), now);
          assert ([messages[0]] + kept)[1..] == kept;
        }
      case ToolResultMessage(result) =>
        OrphansAreThoseOfTheInput(rest, waiting, answered + {result.toolCallId}, ids, now);
        HeadOfUnentered(messages[0], Repaired(rest, waiting, answered + {result.toolCallId}), now);
        assert ([messages[0]] + kept)[1..] == kept;
      case UserMessage(_, _) =>
        var tail := [Original(messages[0])] + Repaired(rest, [], {});
        UnenteredAppend(MadeUpFor(waiting, answered), tail, now);
        MadeUpResultsAreNoOrphans(waiting, answered, Unentered(tail, now), ids, now);
        OrphansAreThoseOfTheInput(rest, [], {}, {}, now);
        HeadOfUnentered(messages[0], Repaired(rest, [], {}), now);
        assert ([messages[0]] + kept)[1..] == kept;
    }
  }

  lemma HeadOfUnentered(message: Message, rest: seq<Entry>, now: int)
    ensures var out := Unentered([Original(message)] + rest, now);
            out != [] && out[0] == message && out[1..] == Unentered(rest, now)
  {
  }

  /** `transform_messages` leaves no result without its call if and only if none stands without its
      call in the prepared transcript without its failed assistant messages. */
  lemma TransformLeavesNoOrphansWhen(rules: Rules, messages: seq<Message>, now: int)
    ensures NoOrphans(Transform(rules, messages, now), {}) <==> NoOrphans(Kept(Prepared(rules, messages)), {})
  {
    OrphansAreThoseOfTheInput(Prepared(rules, messages), [], {}, {}, now);
  }

  /** The ids of the calls of the assistant message at `t`; none when there is no such message. */
  function IdsAt(messages: seq<Message>, t: int): set<string> {
    if 0 <= t < |messages| && messages[t].AssistantMessage? then IdSet(CallsOf(messages[t].assistant.content)) else {}
  }

  lemma {:induction false} RenamingMakesNoOrphansFrom(rules: Rules, messages: seq<Message>, t: int, i: nat)
    requires UniqueCallIds(messages) && t < i <= |messages|
    requires NoOrphans(Kept(messages[i..]), IdsAt(messages, t))
    ensures NoOrphans(Kept(Rewritten(rules, messages)[i..]), IdsAt(Rewritten(rules, messages), t))
    decreases |messages| - i
  {
    var out := Rewritten(rules, messages);
    if i < |messages| {
      KeptUnfolds(messages, i);
      KeptUnfolds(out, i);
      match messages[i]
      case AssistantMessage(a) =>
        RewrittenCalls(rules, messages, i);
        RenamingMakesNoOrphansFrom(rules, messages, if IsFailed(a) then t else i, i + 1);
      case ToolResultMessage(result) =>
        RenamingMakesNoOrphansFrom(rules, messages, t, i + 1);
        var k :| 0 <= k < |CallsOf(messages[t].assistant.content)|
                 && CallsOf(messages[t].assistant.content)[k].id == result.toolCallId;
        RenamingKeepsAnswers(rules, messages, t, i, k);
        assert CallsOf(out[t].assistant.content)[k].id in IdsAt(out, t);
      case UserMessage(_, _) =>
        RenamingMakesNoOrphansFrom(rules, messages, -1, i + 1);
    }
  }

  lemma KeptUnfolds(messages: seq<Message>, i: nat)
    requires i < |messages|
    ensures var kept, rest := Kept(messages[i..]), Kept(messages[i + 1..]);
            if messages[i].AssistantMessage? && IsFailed(messages[i].assistant) then kept == rest
            else kept != [] && kept[0] == messages[i] && kept[1..] == rest
  {
    assert messages[i..][1..] == messages[i + 1..];
    assert [] + Kept(messages[i + 1..]) == Kept(messages[i + 1..]);
  }

  lemma DowngradingKeepsCalls(messages: seq<Message>, model: Model)
    ensures var out := Downgraded(messages, model);
            && (forall i :: 0 <= i < |messages| ==> CallIds(out[i]) == CallIds(messages[i]))
            && (UniqueCallIds(messages) <==> UniqueCallIds(out))
  {
    var out := Downgraded(messages, model);
    assert forall i :: 0 <= i < |messages| ==> CallIds(out[i]) == CallIds(messages[i]);
  }

  lemma {:induction false} DowngradingKeepsOrphans(messages: seq<Message>, model: Model, i: nat, ids: set<string>)
    requires i <= |messages|
    ensures NoOrphans(Kept(Downgraded(messages, model)[i..]), ids) <==> NoOrphans(Kept(messages[i..]), ids)
    decreases |messages| - i
  {
    if i < |messages| {
      KeptUnfolds(messages, i);
      KeptUnfolds(Downgraded(messages, model), i);
      match messages[i]
      case AssistantMessage(a) =>
        DowngradingKeepsOrphans(messages, model, i + 1, if IsFailed(a) then ids else IdSet(CallsOf(a.content)));
      case ToolResultMessage(result) =>
        DowngradingKeepsOrphans(messages, model, i + 1, ids);
      case UserMessage(_, _) =>
        DowngradingKeepsOrphans(messages, model, i + 1, {});
    }
  }

  /** With call ids unique across the transcript, a transcript whose results all answer kept calls
      is transformed, under every renaming, into one whose results all do. */
  lemma UniqueIdsKeepNoOrphans(rules: Rules, messages: seq<Message>, now: int)
    requires UniqueCallIds(messages) && NoOrphans(Kept(messages), {})
    ensures NoOrphans(Transform(rules, messages, now), {})
  {
    var downgraded := Downgraded(messages, rules.model);
    assert messages[0..] == messages && downgraded[0..] == downgraded;
    DowngradingKeepsCalls(messages, rules.model);
    DowngradingKeepsOrphans(messages, rules.model, 0, {});
    RenamingMakesNoOrphansFrom(rules, downgraded, -1, 0);
    assert Rewritten(rules, downgraded)[0..] == Rewritten(rules, downgraded);
    TransformLeavesNoOrphansWhen(rules, messages, now);
  }

  // ---------------------------------------------------------------------
  // What the messages that go out hold.

  /** Parts as a model gets them: all of them when it takes images, else no image, every other text in
      its place, and the placeholder where there was an image. */
  predicate PartsFit(parts: seq<Part>, out: seq<Part>, placeholder: string, acceptsImages: bool) {
    if acceptsImages || !HasImage(parts) then out == parts
    else !HasImage(out) && TextsExcept(out, placeholder) == TextsExcept(parts, placeholder)
         && TextPart(placeholder) in out
  }

  /** What an answer shows, in order: its texts, thoughts included unless blank or redacted, and its calls. */
  datatype Shown = ShownText(text: string) | ShownCall(name: string, arguments: string)

  function ShownBy(block: Block): seq<Shown> {
    match block
    case TextBlock(text, _) => [ShownText(text)]
    case ThinkingBlock(thinking, _, redacted) => if redacted || IsBlank(thinking) then [] else [ShownText(thinking)]
    case CallBlock(call) => [ShownCall(call.name, call.arguments)]
  }

  function ShownIn(blocks: seq<Block>): seq<Shown> {
    if blocks == [] then [] else ShownBy(blocks[0]) + ShownIn(blocks[1..])
  }

  /** The blocks of a replayed answer that say nothing: blank thoughts without a signature. */
  predicate SaysNothing(block: Block) {
    block.ThinkingBlock? && !block.redacted && IsBlank(block.thinking)
    && (block.thinkingSignature.None? || block.thinkingSignature.value == "")
  }

  function WithoutNothings(blocks: seq<Block>): seq<Block> {
    if blocks == [] then []
    else (if SaysNothing(blocks[0]) then [] else [blocks[0]]) + WithoutNothings(blocks[1..])
  }

  /** A block another model may be shown: no thoughts, no signatures. */
  predicate IsForeign(block: Block) {
    match block
    case TextBlock(_, signature) => signature.None?
    case ThinkingBlock(_, _, _) => false
    case CallBlock(call) => call.thoughtSignature.None?
  }

  /** An answer as it is replayed: everything it shows, in order; to the model that gave it, block by
      block except for what says nothing; to another one, as foreign blocks. */
  predicate AnswerFits(model: Model, a: Assistant, content: seq<Block>) {
    && ShownIn(content) == ShownIn(a.content)
    && (if a.provider == model.provider && a.api == model.api && a.model == model.id
        then content == WithoutNothings(a.content)
        else forall i :: 0 <= i < |content| ==> IsForeign(content[i]))
  }

  lemma {:induction false} RewrittenAnswerFits(rules: Rules, a: Assistant, blocks: seq<Block>, ids: IdMap)
    ensures var content := RewriteBlocks(rules, a, blocks, ids).0;
            && ShownIn(content) == ShownIn(blocks)
            && (IsSameModel(a, rules.model) ==> content == WithoutNothings(blocks))
            && (!IsSameModel(a, rules.model) ==> forall i :: 0 <= i < |content| ==> IsForeign(content[i]))
    decreases |blocks|
  {
    if blocks != [] {
      var rest := blocks[1..];
      if blocks[0].CallBlock? {
        var renamed := RenameCall(rules, a, blocks[0].call);
        var ids1 := RememberId(ids, blocks[0].call.id, renamed.id);
        RewrittenAnswerFits(rules, a, rest, ids1);
        assert ([CallBlock(renamed)] + RewriteBlocks(rules, a, rest, ids1).0)[1..]
            == RewriteBlocks(rules, a, rest, ids1).0;
      } else {
        RewrittenAnswerFits(rules, a, rest, ids);
        OtherBlockFits(blocks[0], IsSameModel(a, rules.model), RewriteBlocks(rules, a, rest, ids).0);
        assert [] + WithoutNothings(rest) == WithoutNothings(rest);
      }
    }
  }

  lemma OtherBlockFits(block: Block, same: bool, rest: seq<Block>)
    requires !block.CallBlock?
    ensures var rewritten := RewriteBlock(block, same);
            var head: seq<Block> := if rewritten.Some? then [rewritten.value] else [];
            && ShownIn(head + rest) == ShownBy(block) + ShownIn(rest)
            && (same ==> head == if SaysNothing(block) then [] else [block])
            && (!same && rewritten.Some? ==> IsForeign(rewritten.value))
  {
    var rewritten := RewriteBlock(block, same);
    if rewritten.None? {
      assert [] + rest == rest && [] + ShownIn(rest) == ShownIn(rest);
    } else {
      assert ([rewritten.value] + rest)[1..] == rest;
      assert ShownBy(rewritten.value) == ShownBy(block);
    }
  }

  /** A message as it goes out: the same but for a result's id, an answer's content and what becomes
      of images. */
  predicate MessageFits(model: Model, m: Message, out: Message) {
    match m
    case UserMessage(Plain(text), timestamp) => out == m
    case UserMessage(Blocks(parts), timestamp) =>
      && out.UserMessage? && out.timestamp == timestamp && out.user.Blocks?
      && PartsFit(parts, out.user.parts, "(image omitted: model does not support images)", model.acceptsImages)
    case ToolResultMessage(result) =>
      && out.ToolResultMessage?
      && out.result == result.(toolCallId := out.result.toolCallId, content := out.result.content)
      && PartsFit(result.content, out.result.content, "(tool image omitted: model does not support images)",
                  model.acceptsImages)
    case AssistantMessage(a) =>
      && out.AssistantMessage? && out.assistant == a.(content := out.assistant.content)
      && AnswerFits(model, a, out.assistant.content)
  }

  lemma PreparedMessageFits(rules: Rules, messages: seq<Message>, i: nat)
    requires i < |messages|
    ensures MessageFits(rules.model, messages[i], Prepared(rules, messages)[i])
  {
    var downgraded := Downgraded(messages, rules.model);
    match messages[i]
    case UserMessage(Plain(_), _) =>
    case UserMessage(Blocks(parts), _) =>
      DowngradeKeepsTexts(parts, USER_IMAGE_PLACEHOLDER, false);
    case ToolResultMessage(result) =>
      DowngradeKeepsTexts(result.content, TOOL_IMAGE_PLACEHOLDER, false);
    case AssistantMessage(a) =>
      RewrittenAnswerFits(rules, a, a.content, IdsBefore(rules, downgraded, i));
  }

  /** Message by message, two transcripts of equal length. */
  predicate AllFit(model: Model, messages: seq<Message>, out: seq<Message>) {
    |out| == |messages| && forall i :: 0 <= i < |messages| ==> MessageFits(model, messages[i], out[i])
  }

  lemma FitOneMore(model: Model, m: Message, out: Message, messages: seq<Message>, outs: seq<Message>)
    requires MessageFits(model, m, out) && AllFit(model, messages, outs)
    ensures AllFit(model, [m] + messages, [out] + outs)
  {
  }

  lemma {:induction false} KeptMessagesFit(rules: Rules, messages: seq<Message>, i: nat)
    requires i <= |messages|
    ensures AllFit(rules.model, Kept(messages[i..]), Kept(Prepared(rules, messages)[i..]))
    decreases |messages| - i
  {
    var out := Prepared(rules, messages);
    if i < |messages| {
      KeptMessagesFit(rules, messages, i + 1);
      PreparedMessageFits(rules, messages, i);
      KeptUnfolds(messages, i);
      KeptUnfolds(out, i);
      if !(messages[i].AssistantMessage? && IsFailed(messages[i].assistant)) {
        FitOneMore(rules.model, messages[i], out[i], Kept(messages[i + 1..]), Kept(out[i + 1..]));
        assert Kept(messages[i..]) == [messages[i]] + Kept(messages[i + 1..]);
        assert Kept(out[i..]) == [out[i]] + Kept(out[i + 1..]);
      }
    }
  }

  predicate MessageHasImage(m: Message) {
    match m
    case UserMessage(Blocks(parts), _) => HasImage(parts)
    case ToolResultMessage(result) => HasImage(result.content)
    case _ => false
  }

  /** A made-up result: an error in one text, for its call. */
  predicate IsMadeUpFor(call: ToolCall, m: Message) {
    && m.ToolResultMessage? && m.result.toolCallId == call.id && m.result.toolName == call.name
    && m.result.isError && m.result.content == [TextPart("No result provided")]
  }

  /** What goes out is, in order, every message that is not a failed answer, each as the model may get
      it, and between them made-up results. */
  ghost predicate ContentsKept(model: Model, messages: seq<Message>, entries: seq<Entry>, out: seq<Message>) {
    && |out| == |entries|
    && AllFit(model, Kept(messages), Erased(entries))
    && (forall k :: 0 <= k < |out| ==>
          match entries[k] case Original(m) => out[k] == m case MadeUp(call) => IsMadeUpFor(call, out[k]))
    && (!model.acceptsImages ==> forall k :: 0 <= k < |out| ==> !MessageHasImage(out[k]))
  }

  lemma {:induction false} OriginalsAreErased(entries: seq<Entry>, k: nat) returns (at: nat)
    requires k < |entries| && entries[k].Original?
    ensures at < |Erased(entries)| && Erased(entries)[at] == entries[k].message
  {
    if k == 0 {
      at := 0;
    } else {
      at := OriginalsAreErased(entries[1..], k - 1);
      at := if entries[0].Original? then at + 1 else at;
    }
  }

  lemma FittingMessagesHaveNoImage(model: Model, m: Message, out: Message)
    requires MessageFits(model, m, out) && !model.acceptsImages
    ensures !MessageHasImage(out)
  {
  }

  lemma TransformKeepsContents(rules: Rules, messages: seq<Message>, now: int)
    ensures ContentsKept(rules.model, messages, Repaired(Prepared(rules, messages), [], {}),
                         Transform(rules, messages, now))
  {
    var prepared := Prepared(rules, messages);
    var entries := Repaired(prepared, [], {});
    var out := Transform(rules, messages, now);
    ErasingMadeUpResults(prepared, [], {});
    KeptMessagesFit(rules, messages, 0);
    assert messages[0..] == messages && prepared[0..] == prepared;
    if !rules.model.acceptsImages {
      forall k | 0 <= k < |out|
        ensures !MessageHasImage(out[k])
      {
        if entries[k].Original? {
          var at := OriginalsAreErased(entries, k);
          FittingMessagesHaveNoImage(rules.model, Kept(messages)[at], Erased(entries)[at]);
        }
      }
    }
  }

  // ---------------------------------------------------------------------
  // Which answers go out, and under which ids their calls do.

  /** How the answers of a transcript stopped, in order. */
  function StopsOf(messages: seq<Message>): seq<StopReason> {
    if messages == [] then []
    else
      (if messages[0].AssistantMessage? then [messages[0].assistant.stopReason] else []) + StopsOf(messages[1..])
  }

  function GoodStops(stops: seq<StopReason>): seq<StopReason> {
    if stops == [] then []
    else (if stops[0] in {Stop, Length, ToolUse} then [stops[0]] else []) + GoodStops(stops[1..])
  }

  lemma {:induction false} KeptStops(messages: seq<Message>)
    ensures StopsOf(Kept(messages)) == GoodStops(StopsOf(messages))
  {
    if messages != [] {
      var m, kept, stops := messages[0], Kept(messages[1..]), StopsOf(messages[1..]);
      KeptStops(messages[1..]);
      assert ([m] + kept)[1..] == kept && [] + kept == kept && [] + stops == stops;
      if m.AssistantMessage? {
        assert ([m.assistant.stopReason] + stops)[1..] == stops;
      }
    }
  }

  predicate StopsAlike(m: Message, out: Message) {
    (m.AssistantMessage? <==> out.AssistantMessage?)
    && (m.AssistantMessage? ==> m.assistant.stopReason == out.assistant.stopReason)
  }

  lemma {:induction false} SameStops(messages: seq<Message>, out: seq<Message>)
    requires |messages| == |out| && forall i :: 0 <= i < |messages| ==> StopsAlike(messages[i], out[i])
    ensures StopsOf(messages) == StopsOf(out)
  {
    if messages != [] {
      SameStops(messages[1..], out[1..]);
    }
  }

  lemma {:induction false} MadeUpStopsNothing(entries: seq<Entry>, now: int)
    ensures StopsOf(Unentered(entries, now)) == StopsOf(Erased(entries))
  {
    if entries != [] {
      MadeUpStopsNothing(entries[1..], now);
      assert Unentered(entries, now)[1..] == Unentered(entries[1..], now);
      var e, rest := entries[0], Erased(entries[1..]);
      assert [] + rest == rest && [] + StopsOf(rest) == StopsOf(rest);
      if e.Original? {
        assert ([e.message] + rest)[1..] == rest;
      }
    }
  }

  lemma PreparedStopsAlike(rules: Rules, messages: seq<Message>, i: nat)
    requires i < |messages|
    ensures StopsAlike(messages[i], Prepared(rules, messages)[i])
  {
  }

  /** The answers that go out are exactly those that neither failed nor were cancelled, in order. */
  lemma FailedAnswersAreDropped(rules: Rules, messages: seq<Message>, now: int)
    ensures StopsOf(Transform(rules, messages, now)) == GoodStops(StopsOf(messages))
  {
    var prepared := Prepared(rules, messages);
    MadeUpStopsNothing(Repaired(prepared, [], {}), now);
    ErasingMadeUpResults(prepared, [], {});
    KeptStops(prepared);
    forall i | 0 <= i < |messages|
      ensures StopsAlike(messages[i], prepared[i])
    {
      PreparedStopsAlike(rules, messages, i);
    }
    SameStops(messages, prepared);
  }

  /** The id a call is sent under: its own, unless the answer is another model's and there is a rule for
      such ids. */
  function SentId(rules: Rules, a: Assistant, id: string): string {
    match rules.normalize
    case None => id
    case Some(rule) =>
      if a.provider != rules.model.provider || a.api != rules.model.api || a.model != rules.model.id
      then rule(id, rules.model, a) else id
  }

  lemma CallsAreSentUnderTheRule(rules: Rules, messages: seq<Message>, i: nat)
    requires i < |messages| && messages[i].AssistantMessage?
    ensures var ids, sent := CallIds(messages[i]), CallIds(Prepared(rules, messages)[i]);
            |sent| == |ids| && forall k :: 0 <= k < |ids| ==> sent[k] == SentId(rules, messages[i].assistant, ids[k])
  {
    var a := messages[i].assistant;
    var ids := IdsBefore(rules, Downgraded(messages, rules.model), i);
    RewriteBlocksRenames(rules, a, a.content, ids);
  }

  /** A failed turn whose call was answered: the turn is dropped and its result stays. */
  function FailedTurn(): seq<Message> {
    [AssistantMessage(Assistant([CallBlock(ToolCall("c", "read", "{}", None))], "api", "provider", "model",
                                Error, None, 0)),
     ToolResultMessage(ToolResult("c", "read", [], false, None, 0))]
  }

  /** Under every renaming the whole transcript that goes out is the result of a call nobody made. */
  lemma FailedTurnLeavesItsResult(rules: Rules, now: int)
    ensures UniqueCallIds(FailedTurn()) && NoOrphans(FailedTurn(), {})
    ensures var out := Transform(rules, FailedTurn(), now);
            |out| == 1 && out[0].ToolResultMessage? && !NoOrphans(out, {})
  {
    var messages := FailedTurn();
    var out := Prepared(rules, messages);
    assert CallsOf(messages[0].assistant.content) == [messages[0].assistant.content[0].call];
    var calls := CallsOf(messages[0].assistant.content);
    assert calls[0].id == "c" && "c" in IdSet(calls);
    assert messages[1..] == [messages[1]] && messages[1..][1..] == [];
    assert out[1..] == [out[1]] && out[1..][1..] == [];
    assert out[0].AssistantMessage? && IsFailed(out[0].assistant) && out[1].ToolResultMessage?;
    assert Repaired(out[1..], [], {}) == [Original(out[1])] by {
      assert Repaired([], [], {out[1].result.toolCallId}) == [];
    }
    assert Repaired(out, [], {}) == [Original(out[1])];
  }

  // ---------------------------------------------------------------------
  // The loops.

  /** Append the made-up results of the waiting calls. */
  method InsertMissingToolResults(result: seq<Message>, waiting: seq<ToolCall>, answered: set<string>, now: int)
    returns (extended: seq<Message>)
    ensures extended == result + Unentered(MadeUpFor(waiting, answered), now)
  {
    extended := result;
    for i := 0 to |waiting|
      invariant extended + Unentered(MadeUpFor(waiting[i..], answered), now)
             == result + Unentered(MadeUpFor(waiting, answered), now)
    {
      assert waiting[i..][1..] == waiting[i + 1..];
      var tail := waiting[i + 1..];
      if waiting[i].id in answered {
        assert [] + MadeUpFor(tail, answered) == MadeUpFor(tail, answered);
        continue;
      }
      UnenteredAppend([MadeUp(waiting[i])], MadeUpFor(tail, answered), now);
      assert Unentered([MadeUp(waiting[i])], now) == [MadeUpResult(waiting[i], now)];
      extended := extended + [MadeUpResult(waiting[i], now)];
    }
  }

  method InsertSyntheticToolResults(messages: seq<Message>, now: int) returns (result: seq<Message>)
    ensures result == Unentered(Repaired(messages, [], {}), now)
    ensures EveryCallAnswered(result)
  {
    result := [];
    var waiting: seq<ToolCall> := [];
    var answered: set<string> := {};
    for i := 0 to |messages|
      invariant result + Unentered(Repaired(messages[i..], waiting, answered), now)
             == Unentered(Repaired(messages, [], {}), now)
    {
      var message := messages[i];
      ghost var before := result;
      ghost var madeUp := Unentered(MadeUpFor(waiting, answered), now);
      RepairedUnfold(messages, i, waiting, answered, now);
      match message
      case AssistantMessage(a) =>
        result := InsertMissingToolResults(result, waiting, answered, now);
        waiting, answered := [], {};
        if IsFailed(a) {
          Regroup(before, madeUp, [], Unentered(Repaired(messages[i + 1..], waiting, answered), now));
          continue;
        }
        waiting := CallsOf(a.content);
        result := result + [message];
        Regroup(before, madeUp, [message], Unentered(Repaired(messages[i + 1..], waiting, answered), now));
      case ToolResultMessage(r) =>
        answered := answered + {r.toolCallId};
        result := result + [message];
        Regroup(before, [], [message], Unentered(Repaired(messages[i + 1..], waiting, answered), now));
      case UserMessage(_, _) =>
        result := InsertMissingToolResults(result, waiting, answered, now);
        waiting, answered := [], {};
        result := result + [message];
        Regroup(before, madeUp, [message], Unentered(Repaired(messages[i + 1..], waiting, answered), now));
    }
    assert messages[|messages|..] == [];
    result := InsertMissingToolResults(result, waiting, answered, now);
    RepairedAnswersEveryCall(messages, [], {}, now);
  }

  lemma Regroup(a: seq<Message>, b: seq<Message>, c: seq<Message>, d: seq<Message>)
    ensures a + (b + (c + d)) == ((a + b) + c) + d
    ensures b == [] ==> a + (c + d) == (a + c) + d
    ensures c == [] ==> a + (b + d) == (a + b) + d
  {
  }

  lemma RepairedUnfold(messages: seq<Message>, i: nat, waiting: seq<ToolCall>, answered: set<string>, now: int)
    requires i < |messages|
    ensures var tail := messages[i + 1..];
            Unentered(Repaired(messages[i..], waiting, answered), now) ==
            match messages[i]
            case AssistantMessage(a) =>
              if IsFailed(a)
              then Unentered(MadeUpFor(waiting, answered), now) + Unentered(Repaired(tail, [], {}), now)
              else Unentered(MadeUpFor(waiting, answered), now)
                   + ([messages[i]] + Unentered(Repaired(tail, CallsOf(a.content), {}), now))
            case ToolResultMessage(r) =>
              [messages[i]] + Unentered(Repaired(tail, waiting, answered + {r.toolCallId}), now)
            case UserMessage(_, _) =>
              Unentered(MadeUpFor(waiting, answered), now)
              + ([messages[i]] + Unentered(Repaired(tail, [], {}), now))
  {
    var tail := messages[i + 1..];
    assert messages[i..][1..] == tail;
    var head := [Original(messages[i])];
    assert Unentered(head, now) == [messages[i]];
    match messages[i]
    case AssistantMessage(a) =>
      var rest := Repaired(tail, if IsFailed(a) then [] else CallsOf(a.content), {});
      UnenteredAppend(head, rest, now);
      UnenteredAppend(MadeUpFor(waiting, answered), if IsFailed(a) then rest else head + rest, now);
    case ToolResultMessage(r) =>
      UnenteredAppend(head, Repaired(tail, waiting, answered + {r.toolCallId}), now);
    case UserMessage(_, _) =>
      UnenteredAppend(head, Repaired(tail, [], {}), now);
      UnenteredAppend(MadeUpFor(waiting, answered), head + Repaired(tail, [], {}), now);
  }
}
