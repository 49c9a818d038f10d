/** Converting a prepared transcript to the Anthropic message list: runs of tool results become one
    user message, and announced tools are loaded by reference. */
module AnthropicMessages {
  import opened Wrappers
  import opened Text
  import opened Messages
  import opened MessageTransform
  import opened DeferredTools
  import opened MessageItems

  datatype OutBlock =
    | OutText(text: string)
    | OutImage(data: string, mediaType: string)
    | OutThinking(thinking: string, signature: string)
    | OutRedacted(data: string)
    | OutToolUse(id: string, name: string, input: string)
    | OutToolResult(toolUseId: string, content: ResultContent, isError: bool)

  datatype ResultContent =
    | Joined(text: string)
    | Listed(parts: seq<OutBlock>)
    | References(names: seq<string>)

  datatype OutMessage =
    | UserText(text: string)
    | UserBlocks(blocks: seq<OutBlock>)
    | AssistantBlocks(blocks: seq<OutBlock>)

  datatype Options = Options(normalize: string -> string, allowEmptySignature: bool)

  // ---------------------------------------------------------------------
  // Content.

  function ConvertPart(part: Part): OutBlock {
    match part
    case TextPart(text) => OutText(text)
    case ImagePart(data, mimeType) => OutImage(data, mimeType)
  }

  function ConvertUserParts(parts: seq<Part>): seq<OutBlock> {
    if parts == [] then []
    else
      (if parts[0].TextPart? && IsBlank(parts[0].text) then [] else [ConvertPart(parts[0])])
      + ConvertUserParts(parts[1..])
  }

  function ConvertUser(user: UserContent): seq<OutMessage> {
    match user
    case Plain(text) => if IsBlank(text) then [] else [UserText(text)]
    case Blocks(parts) =>
      var content := ConvertUserParts(parts);
      if content == [] then [] else [UserBlocks(content)]
  }

  function ConvertBlock(options: Options, block: Block): Option<OutBlock> {
    match block
    case TextBlock(text, _) => if IsBlank(text) then None else Some(OutText(text))
    case CallBlock(call) => Some(OutToolUse(call.id, options.normalize(call.name), call.arguments))
    case ThinkingBlock(thinking, signature, redacted) =>
      var usable := signature.Some? && !IsBlank(signature.value);
      if redacted then (if usable then Some(OutRedacted(signature.value)) else None)
      else if usable then Some(OutThinking(thinking, signature.value))
      else if IsBlank(thinking) then None
      else if options.allowEmptySignature then Some(OutThinking(thinking, ""))
      else Some(OutText(thinking))
  }

  function ConvertBlocks(options: Options, blocks: seq<Block>): seq<OutBlock> {
    if blocks == [] then []
    else
      var head := ConvertBlock(options, blocks[0]);
      (if head.Some? then [head.value] else []) + ConvertBlocks(options, blocks[1..])
  }

  function JoinTexts(parts: seq<Part>): string {
    if parts == [] then ""
    else
      match parts[0]
      case ImagePart(_, _) => JoinTexts(parts[1..])
      case TextPart(text) =>
        if exists i :: 1 <= i < |parts| && parts[i].TextPart? then text + "\n" + JoinTexts(parts[1..]) else text
  }

  function ConvertParts(parts: seq<Part>): (out: seq<OutBlock>)
    ensures |out| == |parts|
  {
    seq(|parts|, i requires 0 <= i < |parts| => ConvertPart(parts[i]))
  }

  function ConvertResultContent(parts: seq<Part>): ResultContent {
    if !HasImage(parts) then Joined(JoinTexts(parts))
    else
      var blocks := ConvertParts(parts);
      Listed(if exists i :: 0 <= i < |parts| && parts[i].TextPart? then blocks
             else [OutText("(see attached image)")] + blocks)
  }

  // ---------------------------------------------------------------------
  // Runs of tool results.

  /** The references a result carries: its announced tools that are deferred and not yet loaded. */
  function NewReferences(
    options: Options, names: seq<string>, deferred: set<string>, loaded: set<string>): (seq<string>, set<string>)
  {
    if names == [] then ([], loaded)
    else
      var name := options.normalize(names[0]);
      if name !in deferred || name in loaded then NewReferences(options, names[1..], deferred, loaded)
      else
        var (rest, loaded') := NewReferences(options, names[1..], deferred, loaded + {name});
        ([name] + rest, loaded')
  }

  datatype Run = Run(results: seq<OutBlock>, siblings: seq<OutBlock>, loaded: set<string>)

  function Displaced(content: ResultContent): seq<OutBlock> {
    match content
    case Joined(text) => [OutText(text)]
    case Listed(parts) => parts
    case References(_) => []
  }

  function AddResult(options: Options, run: Run, result: ToolResult, deferred: set<string>): Run {
    var (references, loaded) := NewReferences(options, AddedNames(result), deferred, run.loaded);
    var content := ConvertResultContent(result.content);
    if references == [] then
      Run(run.results + [OutToolResult(result.toolCallId, content, result.isError)], run.siblings, loaded)
    else
      Run(run.results + [OutToolResult(result.toolCallId, References(references), result.isError)],
          run.siblings + Displaced(content), loaded)
  }

  function ConvertRun(options: Options, run: Run, messages: seq<Message>, deferred: set<string>): Run
    decreases |messages|
  {
    if messages == [] || !messages[0].ToolResultMessage? then run
    else ConvertRun(options, AddResult(options, run, messages[0].result, deferred), messages[1..], deferred)
  }

  function RunLength(messages: seq<Message>): (n: nat)
    ensures n <= |messages|
    ensures n > 0 <==> messages != [] && messages[0].ToolResultMessage?
  {
    if messages == [] || !messages[0].ToolResultMessage? then 0 else 1 + RunLength(messages[1..])
  }

  function Convert(options: Options, messages: seq<Message>, deferred: set<string>,
                   loaded: set<string>): seq<OutMessage>
    decreases |messages|
  {
    if messages == [] then []
    else
      match messages[0]
      case UserMessage(user, _) => ConvertUser(user) + Convert(options, messages[1..], deferred, loaded)
      case AssistantMessage(a) =>
        var content := ConvertBlocks(options, a.content);
        (if content == [] then [] else [AssistantBlocks(content)]) + Convert(options, messages[1..], deferred, loaded)
      case ToolResultMessage(_) =>
        var run := ConvertRun(options, Run([], [], loaded), messages, deferred);
        [UserBlocks(run.results + run.siblings)]
        + Convert(options, messages[RunLength(messages)..], deferred, run.loaded)
  }

  // ---------------------------------------------------------------------
  // The protocol: every tool use is answered by the next message.

  function UseIds(blocks: seq<OutBlock>): set<string> {
    set i | 0 <= i < |blocks| && blocks[i].OutToolUse? :: blocks[i].id
  }

  function AnsweredIds(blocks: seq<OutBlock>): set<string> {
    set i | 0 <= i < |blocks| && blocks[i].OutToolResult? :: blocks[i].toolUseId
  }

  /** Tool results stand before everything else in the message. */
  predicate ResultsComeFirst(blocks: seq<OutBlock>) {
    forall i, j :: 0 <= i < j < |blocks| && blocks[j].OutToolResult? ==> blocks[i].OutToolResult?
  }

  /** The next message is a user message holding a result for every one of the ids. */
  predicate AnswersAll(messages: seq<OutMessage>, ids: set<string>) {
    messages != [] && messages[0].UserBlocks? && ids <= AnsweredIds(messages[0].blocks)
  }

  predicate EveryUseAnswered(messages: seq<OutMessage>) {
    messages != [] ==>
      && (messages[0].AssistantBlocks? && UseIds(messages[0].blocks) != {} ==>
            AnswersAll(messages[1..], UseIds(messages[0].blocks)))
      && (messages[0].UserBlocks? ==> ResultsComeFirst(messages[0].blocks))
      && EveryUseAnswered(messages[1..])
  }

  /** Every tool result answers a tool use of the message right before it; `uses` are the ids of
      the message before the list. */
  predicate EveryResultAnswers(messages: seq<OutMessage>, uses: set<string>) {
    messages == [] ||
      match messages[0]
      case UserText(_) => EveryResultAnswers(messages[1..], {})
      case UserBlocks(blocks) => AnsweredIds(blocks) <= uses && EveryResultAnswers(messages[1..], {})
      case AssistantBlocks(blocks) => EveryResultAnswers(messages[1..], UseIds(blocks))
  }

  lemma UseIdsPrepend(head: Option<OutBlock>, rest: seq<OutBlock>)
    ensures var out := (if head.Some? then [head.value] else []) + rest;
            UseIds(out) == (if head.Some? && head.value.OutToolUse? then {head.value.id} else {}) + UseIds(rest)
  {
    var out := (if head.Some? then [head.value] else []) + rest;
    if head.None? {
      assert out == rest;
    } else {
      assert out[0] == head.value && forall i :: 0 <= i < |rest| ==> out[i + 1] == rest[i];
      assert forall i :: 0 < i < |out| ==> out[i] == rest[i - 1];
    }
  }

  lemma {:induction false} UsesAreTheCalls(options: Options, blocks: seq<Block>)
    ensures UseIds(ConvertBlocks(options, blocks)) == IdSet(CallsOf(blocks))
  {
    if blocks != [] {
      UsesAreTheCalls(options, blocks[1..]);
      UseIdsPrepend(ConvertBlock(options, blocks[0]), ConvertBlocks(options, blocks[1..]));
      IdSetUnfolds(blocks);
    }
  }

  lemma {:induction false} UserPartsHaveNoResults(parts: seq<Part>)
    ensures forall i :: 0 <= i < |ConvertUserParts(parts)| ==>
              ConvertUserParts(parts)[i].OutText? || ConvertUserParts(parts)[i].OutImage?
  {
    if parts != [] {
      UserPartsHaveNoResults(parts[1..]);
    }
  }

  predicate RunIsShaped(run: Run) {
    && (forall i :: 0 <= i < |run.results| ==> run.results[i].OutToolResult?)
    && (forall i :: 0 <= i < |run.siblings| ==> run.siblings[i].OutText? || run.siblings[i].OutImage?)
  }

  /** A run holds a result block for exactly the tool results it consumed, results before siblings. */
  lemma {:induction false} RunAnswersItsResults(options: Options, run: Run, messages: seq<Message>,
                                        deferred: set<string>)
    requires RunIsShaped(run)
    ensures var out := ConvertRun(options, run, messages, deferred);
            && RunIsShaped(out)
            && AnsweredIds(out.results) == AnsweredIds(run.results) + LeadingIds(messages)
    decreases |messages|
  {
    if messages != [] && messages[0].ToolResultMessage? {
      var next := AddResult(options, run, messages[0].result, deferred);
      ResultIsAdded(options, run, messages[0].result, deferred);
      RunAnswersItsResults(options, next, messages[1..], deferred);
    }
  }

  lemma ResultIsAdded(options: Options, run: Run, result: ToolResult, deferred: set<string>)
    requires RunIsShaped(run)
    ensures var next := AddResult(options, run, result, deferred);
            RunIsShaped(next) && AnsweredIds(next.results) == AnsweredIds(run.results) + {result.toolCallId}
  {
    var next := AddResult(options, run, result, deferred);
    var block := next.results[|run.results|];
    assert next.results == run.results + [block] && block.OutToolResult? && block.toolUseId == result.toolCallId;
    assert forall i :: 0 <= i < |run.results| ==> next.results[i] == run.results[i];
  }

  lemma SiblingsKeepAnswers(results: seq<OutBlock>, siblings: seq<OutBlock>)
    requires RunIsShaped(Run(results, siblings, {}))
    ensures AnsweredIds(results) == AnsweredIds(results + siblings)
    ensures ResultsComeFirst(results + siblings)
  {
    assert forall i :: 0 <= i < |results| ==> (results + siblings)[i] == results[i];
  }

  lemma {:induction false} AnsweredSuffix(messages: seq<Message>, n: nat)
    requires EveryCallAnswered(messages) && n <= |messages|
    ensures EveryCallAnswered(messages[n..])
  {
    if n > 0 {
      AnsweredSuffix(messages[1..], n - 1);
      assert messages[1..][n - 1..] == messages[n..];
    }
  }

  /** Grouping turns an answered transcript into an answered message list. */
  lemma {:induction false} ConversionAnswersEveryUse(
    options: Options, messages: seq<Message>, deferred: set<string>, loaded: set<string>)
    requires EveryCallAnswered(messages)
    ensures var out := Convert(options, messages, deferred, loaded);
            && EveryUseAnswered(out)
            && (RunLength(messages) > 0 ==> AnswersAll(out, LeadingIds(messages)))
    decreases |messages|
  {
    var out := Convert(options, messages, deferred, loaded);
    if messages != [] {
      match messages[0]
      case UserMessage(user, _) =>
        ConversionAnswersEveryUse(options, messages[1..], deferred, loaded);
        if user.Blocks? {
          UserPartsHaveNoResults(user.parts);
        }
        var tail := Convert(options, messages[1..], deferred, loaded);
        assert out == tail || out[1..] == tail;
      case AssistantMessage(a) =>
        ConversionAnswersEveryUse(options, messages[1..], deferred, loaded);
        var tail := Convert(options, messages[1..], deferred, loaded);
        assert out == tail || out[1..] == tail;
        UsesAreTheCalls(options, a.content);
      case ToolResultMessage(_) =>
        var n := RunLength(messages);
        var run := ConvertRun(options, Run([], [], loaded), messages, deferred);
        RunAnswersItsResults(options, Run([], [], loaded), messages, deferred);
        SiblingsKeepAnswers(run.results, run.siblings);
        AnsweredSuffix(messages, n);
        ConversionAnswersEveryUse(options, messages[n..], deferred, run.loaded);
        assert out[1..] == Convert(options, messages[n..], deferred, run.loaded);
    }
  }

  lemma {:induction false} RunIsNoOrphan(messages: seq<Message>, ids: set<string>)
    ensures NoOrphans(messages, ids)
       <==> LeadingIds(messages) <= ids && NoOrphans(messages[RunLength(messages)..], {})
  {
    if messages != [] && messages[0].ToolResultMessage? {
      RunIsNoOrphan(messages[1..], ids);
      assert messages[1..][RunLength(messages[1..])..] == messages[RunLength(messages)..];
    } else {
      assert messages[0..] == messages;
    }
  }

  /** Grouping makes no result lose its call and finds none for a result that had none. */
  lemma {:induction false} ConversionKeepsOrphans(
    options: Options, messages: seq<Message>, deferred: set<string>, loaded: set<string>, ids: set<string>)
    requires EveryCallAnswered(messages)
    requires ids != {} ==> messages != [] && messages[0].ToolResultMessage?
    ensures EveryResultAnswers(Convert(options, messages, deferred, loaded), ids) <==> NoOrphans(messages, ids)
    decreases |messages|, 0
  {
    if messages != [] {
      match messages[0]
      case UserMessage(user, _) =>
        ConversionKeepsOrphans(options, messages[1..], deferred, loaded, {});
        UserAnswersNothing(user, Convert(options, messages[1..], deferred, loaded));
      case AssistantMessage(a) =>
        AssistantKeepsOrphans(options, a, messages[1..], deferred, loaded);
      case ToolResultMessage(_) =>
        var n := RunLength(messages);
        var run := ConvertRun(options, Run([], [], loaded), messages, deferred);
        RunAnswersItsResults(options, Run([], [], loaded), messages, deferred);
        SiblingsKeepAnswers(run.results, run.siblings);
        AnsweredSuffix(messages, n);
        ConversionKeepsOrphans(options, messages[n..], deferred, run.loaded, {});
        RunIsNoOrphan(messages, ids);
        assert Convert(options, messages, deferred, loaded)[1..]
            == Convert(options, messages[n..], deferred, run.loaded);
    }
  }

  lemma UserAnswersNothing(user: UserContent, rest: seq<OutMessage>)
    ensures EveryResultAnswers(ConvertUser(user) + rest, {}) <==> EveryResultAnswers(rest, {})
  {
    if user.Blocks? {
      UserPartsHaveNoResults(user.parts);
    }
    var out := ConvertUser(user) + rest;
    assert out == rest || out[1..] == rest;
  }

  lemma {:induction false} AssistantKeepsOrphans(
    options: Options, a: Assistant, rest: seq<Message>, deferred: set<string>, loaded: set<string>)
    requires EveryCallAnswered(rest)
    requires forall c :: c in CallsOf(a.content) ==> c.id in LeadingIds(rest)
    ensures EveryResultAnswers(Convert(options, [AssistantMessage(a)] + rest, deferred, loaded), {})
       <==> NoOrphans(rest, IdSet(CallsOf(a.content)))
    decreases |rest|, 1
  {
    var messages := [AssistantMessage(a)] + rest;
    var content := ConvertBlocks(options, a.content);
    assert messages[1..] == rest;
    UsesAreTheCalls(options, a.content);
    ConversionKeepsOrphans(options, rest, deferred, loaded, UseIds(content));
    var out := Convert(options, messages, deferred, loaded);
    var tail := Convert(options, rest, deferred, loaded);
    if content == [] {
      assert out == tail;
    } else {
      assert out == [AssistantBlocks(content)] + tail && out[1..] == tail;
    }
  }

  /** End to end: for every transcript, model, id normalizer and set of deferred tools, each
      assistant message with tool uses in the output is immediately followed by one user message
      that begins with tool results and holds one for every one of its ids; and every result
      answers a use of the message before it if and only if no result stands without its call in
      the prepared transcript without its failed assistant messages. */
  lemma AnthropicProtocolHolds(
    rules: Rules, options: Options, messages: seq<Message>, deferred: set<string>, now: int)
    ensures var out := Convert(options, Transform(rules, messages, now), deferred, {});
            && EveryUseAnswered(out)
            && (EveryResultAnswers(out, {}) <==> NoOrphans(Kept(Prepared(rules, messages)), {}))
  {
    RepairedAnswersEveryCall(Prepared(rules, messages), [], {}, now);
    ConversionAnswersEveryUse(options, Transform(rules, messages, now), deferred, {});
    ConversionKeepsOrphans(options, Transform(rules, messages, now), deferred, {}, {});
    TransformLeavesNoOrphansWhen(rules, messages, now);
  }

  /** A failed turn whose call was answered goes out as one result that answers nothing. */
  lemma FailedTurnSendsAnOrphan(rules: Rules, options: Options, deferred: set<string>, now: int)
    ensures NoOrphans(FailedTurn(), {})
    ensures !EveryResultAnswers(Convert(options, Transform(rules, FailedTurn(), now), deferred, {}), {})
  {
    FailedTurnLeavesItsResult(rules, now);
    TransformLeavesNoOrphansWhen(rules, FailedTurn(), now);
    AnthropicProtocolHolds(rules, options, FailedTurn(), deferred, now);
  }

  // ---------------------------------------------------------------------
  // References: what the converted list says about tools.

  function ReferenceMarks(names: seq<string>): seq<Mark> {
    if names == [] then [] else [Adds(names[0])] + ReferenceMarks(names[1..])
  }

  function BlockMarks(block: OutBlock): seq<Mark> {
    match block
    case OutToolUse(_, name, _) => [Uses(name)]
    case OutToolResult(_, References(names), _) => ReferenceMarks(names)
    case _ => []
  }

  function BlocksMarks(blocks: seq<OutBlock>): seq<Mark> {
    if blocks == [] then [] else BlockMarks(blocks[0]) + BlocksMarks(blocks[1..])
  }

  function OutMarks(messages: seq<OutMessage>): seq<Mark> {
    if messages == [] then []
    else
      (match messages[0]
       case UserText(_) => []
       case UserBlocks(blocks) => BlocksMarks(blocks)
       case AssistantBlocks(blocks) => BlocksMarks(blocks))
      + OutMarks(messages[1..])
  }

  /** The marks that survive conversion: every use, and the announcements that load a tool. */
  function LoadedMarks(marks: seq<Mark>, deferred: set<string>, loaded: set<string>): (seq<Mark>, set<string>)
    decreases |marks|
  {
    if marks == [] then ([], loaded)
    else
      match marks[0]
      case Uses(_) =>
        var (rest, loaded') := LoadedMarks(marks[1..], deferred, loaded);
        ([marks[0]] + rest, loaded')
      case Adds(name) =>
        if name !in deferred || name in loaded then LoadedMarks(marks[1..], deferred, loaded)
        else
          var (rest, loaded') := LoadedMarks(marks[1..], deferred, loaded + {name});
          ([marks[0]] + rest, loaded')
  }

  lemma {:induction false} LoadedMarksAppend(a: seq<Mark>, b: seq<Mark>, deferred: set<string>, loaded: set<string>)
    ensures var (m1, l1) := LoadedMarks(a, deferred, loaded);
            var (m2, l2) := LoadedMarks(b, deferred, l1);
            LoadedMarks(a + b, deferred, loaded) == (m1 + m2, l2)
    decreases |a|
  {
    if a == [] {
      assert a + b == b;
      assert [] + LoadedMarks(b, deferred, loaded).0 == LoadedMarks(b, deferred, loaded).0;
    } else {
      assert (a + b)[1..] == a[1..] + b;
      var next := if a[0].Adds? && a[0].name in deferred then loaded + {a[0].name} else loaded;
      LoadedMarksAppend(a[1..], b, deferred, next);
      var m1, m2 := LoadedMarks(a[1..], deferred, next).0,
                    LoadedMarks(b, deferred, LoadedMarks(a[1..], deferred, next).1).0;
      assert ([a[0]] + m1) + m2 == [a[0]] + (m1 + m2);
      if a[0].Adds? && a[0].name in loaded {
        assert loaded + {a[0].name} == loaded;
      }
    }
  }

  lemma {:induction false} BlocksMarksAppend(a: seq<OutBlock>, b: seq<OutBlock>)
    ensures BlocksMarks(a + b) == BlocksMarks(a) + BlocksMarks(b)
  {
    if a == [] {
      assert a + b == b && [] + BlocksMarks(b) == BlocksMarks(b);
    } else {
      assert (a + b)[1..] == a[1..] + b;
      BlocksMarksAppend(a[1..], b);
      assert BlockMarks(a[0]) + (BlocksMarks(a[1..]) + BlocksMarks(b))
          == (BlockMarks(a[0]) + BlocksMarks(a[1..])) + BlocksMarks(b);
    }
  }

  lemma {:induction false} PlainBlocksHaveNoMarks(blocks: seq<OutBlock>)
    requires forall i :: 0 <= i < |blocks| ==> blocks[i].OutText? || blocks[i].OutImage?
    ensures BlocksMarks(blocks) == []
  {
    if blocks != [] {
      PlainBlocksHaveNoMarks(blocks[1..]);
    }
  }

  lemma {:induction false} OutMarksAppend(a: seq<OutMessage>, b: seq<OutMessage>)
    requires |a| <= 1
    ensures OutMarks(a + b) == OutMarks(a) + OutMarks(b)
  {
    if a == [] {
      assert a + b == b && [] + OutMarks(b) == OutMarks(b);
    } else {
      assert (a + b)[1..] == b && a[1..] == [];
      assert OutMarks(a[1..]) == [];
      assert OutMarks(a) + [] == OutMarks(a);
    }
  }

  lemma {:induction false} AssistantMarks(options: Options, blocks: seq<Block>, deferred: set<string>,
                                        loaded: set<string>)
    ensures BlocksMarks(ConvertBlocks(options, blocks)) == UseMarks(CallsOf(blocks), options.normalize)
    ensures LoadedMarks(UseMarks(CallsOf(blocks), options.normalize), deferred, loaded)
         == (UseMarks(CallsOf(blocks), options.normalize), loaded)
  {
    if blocks != [] {
      AssistantMarks(options, blocks[1..], deferred, loaded);
      var head := ConvertBlock(options, blocks[0]);
      BlocksMarksAppend(if head.Some? then [head.value] else [], ConvertBlocks(options, blocks[1..]));
      assert head.Some? ==> BlocksMarks([head.value]) == BlockMarks(head.value) + [] == BlockMarks(head.value);
      if blocks[0].CallBlock? {
        assert CallsOf(blocks)[1..] == CallsOf(blocks[1..]);
        var marks := UseMarks(CallsOf(blocks), options.normalize);
        assert marks[1..] == UseMarks(CallsOf(blocks[1..]), options.normalize);
      } else {
        assert CallsOf(blocks) == CallsOf(blocks[1..]);
      }
    }
  }

  lemma {:induction false} ReferencesAreLoadedMarks(
    options: Options, names: seq<string>, deferred: set<string>, loaded: set<string>)
    ensures var (references, loaded') := NewReferences(options, names, deferred, loaded);
            LoadedMarks(AddMarks(names, options.normalize), deferred, loaded) == (ReferenceMarks(references), loaded')
  {
    if names != [] {
      var name := options.normalize(names[0]);
      var marks := AddMarks(names, options.normalize);
      assert marks[1..] == AddMarks(names[1..], options.normalize);
      if name !in deferred || name in loaded {
        ReferencesAreLoadedMarks(options, names[1..], deferred, loaded);
      } else {
        ReferencesAreLoadedMarks(options, names[1..], deferred, loaded + {name});
        assert NewReferences(options, names, deferred, loaded).0[1..]
            == NewReferences(options, names[1..], deferred, loaded + {name}).0;
      }
    }
  }

  lemma ResultMarks(options: Options, run: Run, result: ToolResult, deferred: set<string>)
    ensures var (marks, loaded) := LoadedMarks(AddMarks(AddedNames(result), options.normalize), deferred, run.loaded);
            var next := AddResult(options, run, result, deferred);
            next.loaded == loaded && BlocksMarks(next.results) == BlocksMarks(run.results) + marks
  {
    ReferencesAreLoadedMarks(options, AddedNames(result), deferred, run.loaded);
    var next := AddResult(options, run, result, deferred);
    var block := next.results[|run.results|];
    assert next.results == run.results + [block];
    BlocksMarksAppend(run.results, [block]);
    assert BlocksMarks([block]) == BlockMarks(block) + [] == BlockMarks(block);
  }

  lemma RunHeadMarks(messages: seq<Message>, normalize: string -> string)
    requires RunLength(messages) > 0
    ensures RunLength(messages[1..]) == RunLength(messages) - 1
    ensures TranscriptMarks(messages[..RunLength(messages)], normalize)
         == AddMarks(AddedNames(messages[0].result), normalize)
            + TranscriptMarks(messages[1..][..RunLength(messages[1..])], normalize)
  {
    var n := RunLength(messages);
    assert messages[..n][1..] == messages[1..][..n - 1];
  }

  lemma {:induction false} RunMarks(options: Options, run: Run, messages: seq<Message>, deferred: set<string>)
    ensures var (marks, loaded) :=
              LoadedMarks(TranscriptMarks(messages[..RunLength(messages)], options.normalize), deferred, run.loaded);
            var out := ConvertRun(options, run, messages, deferred);
            out.loaded == loaded && BlocksMarks(out.results) == BlocksMarks(run.results) + marks
    decreases |messages|
  {
    if RunLength(messages) == 0 {
      assert messages[..0] == [];
      assert BlocksMarks(run.results) + [] == BlocksMarks(run.results);
    } else {
      var next := AddResult(options, run, messages[0].result, deferred);
      ResultMarks(options, run, messages[0].result, deferred);
      RunMarks(options, next, messages[1..], deferred);
      RunHeadMarks(messages, options.normalize);
      var head := AddMarks(AddedNames(messages[0].result), options.normalize);
      var tail := TranscriptMarks(messages[1..][..RunLength(messages[1..])], options.normalize);
      LoadedMarksAppend(head, tail, deferred, run.loaded);
      MarksAssociate(BlocksMarks(run.results), LoadedMarks(head, deferred, run.loaded).0,
                     LoadedMarks(tail, deferred, next.loaded).0);
    }
  }

  lemma MarksAssociate(a: seq<Mark>, b: seq<Mark>, c: seq<Mark>)
    ensures (a + b) + c == a + (b + c)
  {
  }

  lemma {:induction false} MarksSplit(messages: seq<Message>, n: nat, normalize: string -> string)
    requires n <= |messages|
    ensures TranscriptMarks(messages, normalize)
         == TranscriptMarks(messages[..n], normalize) + TranscriptMarks(messages[n..], normalize)
  {
    if n == 0 {
      assert messages[..0] == [] && messages[0..] == messages;
      assert [] + TranscriptMarks(messages, normalize) == TranscriptMarks(messages, normalize);
    } else {
      var first, last := messages[1..][..n - 1], messages[1..][n - 1..];
      MarksSplit(messages[1..], n - 1, normalize);
      MarksHead(messages[..n], first, normalize);
      assert messages[n..] == last;
      MarksAssociate(MessageMarks(messages[0], normalize), TranscriptMarks(first, normalize),
                     TranscriptMarks(last, normalize));
    }
  }

  lemma MarksHead(messages: seq<Message>, rest: seq<Message>, normalize: string -> string)
    requires messages != [] && messages[1..] == rest
    ensures TranscriptMarks(messages, normalize) == MessageMarks(messages[0], normalize) + TranscriptMarks(rest,
        normalize)
  {
  }

  /** The converted list uses every tool the transcript uses, in order, and refers to exactly the
      announcements that load a tool. */
  lemma {:induction false} ConversionKeepsMarks(
    options: Options, messages: seq<Message>, deferred: set<string>, loaded: set<string>)
    ensures OutMarks(Convert(options, messages, deferred, loaded))
         == LoadedMarks(TranscriptMarks(messages, options.normalize), deferred, loaded).0
    decreases |messages|
  {
    if messages != [] {
      var marks := MessageMarks(messages[0], options.normalize);
      var rest := TranscriptMarks(messages[1..], options.normalize);
      match messages[0]
      case UserMessage(user, _) =>
        ConversionKeepsMarks(options, messages[1..], deferred, loaded);
        OutMarksAppend(ConvertUser(user), Convert(options, messages[1..], deferred, loaded));
        UserHasNoMarks(user);
        assert [] + rest == rest;
      case AssistantMessage(a) =>
        var content := ConvertBlocks(options, a.content);
        ConversionKeepsMarks(options, messages[1..], deferred, loaded);
        AssistantMarks(options, a.content, deferred, loaded);
        LoadedMarksAppend(marks, rest, deferred, loaded);
        var out: seq<OutMessage> := if content == [] then [] else [AssistantBlocks(content)];
        OutMarksAppend(out, Convert(options, messages[1..], deferred, loaded));
        assert content != [] ==> out[1..] == [] && OutMarks(out) == BlocksMarks(content) + [] == BlocksMarks(content);
      case ToolResultMessage(_) =>
        RunKeepsMarks(options, messages, deferred, loaded);
        var n := RunLength(messages);
        var run := ConvertRun(options, Run([], [], loaded), messages, deferred);
        ConversionKeepsMarks(options, messages[n..], deferred, run.loaded);
        MarksSplit(messages, n, options.normalize);
        LoadedMarksAppend(TranscriptMarks(messages[..n], options.normalize),
                          TranscriptMarks(messages[n..], options.normalize), deferred, loaded);
        OutMarksAppend([UserBlocks(run.results + run.siblings)], Convert(options, messages[n..], deferred, run.loaded));
    }
  }

  lemma UserHasNoMarks(user: UserContent)
    ensures OutMarks(ConvertUser(user)) == []
  {
    if user.Blocks? {
      UserPartsHaveNoResults(user.parts);
      PlainBlocksHaveNoMarks(ConvertUserParts(user.parts));
    }
  }

  lemma RunKeepsMarks(options: Options, messages: seq<Message>, deferred: set<string>, loaded: set<string>)
    ensures var run := ConvertRun(options, Run([], [], loaded), messages, deferred);
            var (marks, loaded') :=
              LoadedMarks(TranscriptMarks(messages[..RunLength(messages)], options.normalize), deferred, loaded);
            run.loaded == loaded' && OutMarks([UserBlocks(run.results + run.siblings)]) == marks
  {
    var run := ConvertRun(options, Run([], [], loaded), messages, deferred);
    RunMarks(options, Run([], [], loaded), messages, deferred);
    assert RunIsShaped(run) by {
      RunAnswersItsResults(options, Run([], [], loaded), messages, deferred);
    }
    RunMessageMarks(run);
  }

  lemma RunMessageMarks(run: Run)
    requires RunIsShaped(run)
    ensures OutMarks([UserBlocks(run.results + run.siblings)]) == BlocksMarks(run.results)
  {
    BlocksMarksAppend(run.results, run.siblings);
    PlainBlocksHaveNoMarks(run.siblings);
    var out := [UserBlocks(run.results + run.siblings)];
    assert out[1..] == [] && OutMarks(out[1..]) == [];
    assert BlocksMarks(run.results) + [] == BlocksMarks(run.results);
  }

  // ---------------------------------------------------------------------
  // Each deferred tool is loaded once, where it is first announced, before it is used.

  /** Every use, and of the announcements of deferred tools the first. */
  function FirstAnnouncements(marks: seq<Mark>, deferred: set<string>): seq<Mark> {
    if marks == [] then []
    else
      var init := marks[..|marks| - 1];
      var last := marks[|marks| - 1];
      FirstAnnouncements(init, deferred)
      + if last.Uses? || (last.name in deferred && last !in init) then [last] else []
  }

  lemma {:induction false} LoadedAreFirstAnnouncements(marks: seq<Mark>, deferred: set<string>)
    ensures var (out, loaded) := LoadedMarks(marks, deferred, {});
            && out == FirstAnnouncements(marks, deferred)
            && (forall n :: n in loaded <==> n in deferred && Adds(n) in marks)
  {
    if marks != [] {
      var init := marks[..|marks| - 1];
      var last := marks[|marks| - 1];
      assert marks == init + [last];
      LoadedAreFirstAnnouncements(init, deferred);
      LoadedMarksAppend(init, [last], deferred, {});
      assert LoadedMarks([last][1..], deferred, LoadedMarks(init, deferred, {}).1).0 == [];
    }
  }

  lemma {:induction false} FirstAnnouncementsMembers(marks: seq<Mark>, deferred: set<string>)
    ensures var out := FirstAnnouncements(marks, deferred);
            && (forall n :: Uses(n) in out <==> Uses(n) in marks)
            && (forall n :: multiset(out)[Adds(n)] == if n in deferred && Adds(n) in marks then 1 else 0)
  {
    if marks != [] {
      FirstAnnouncementsMembers(marks[..|marks| - 1], deferred);
      assert marks == marks[..|marks| - 1] + [marks[|marks| - 1]];
    }
  }

  lemma {:induction false} FirstAnnouncementsExtend(marks: seq<Mark>, i: nat, deferred: set<string>)
    requires i <= |marks|
    ensures FirstAnnouncements(marks[..i], deferred) <= FirstAnnouncements(marks, deferred)
    decreases |marks|
  {
    if i == |marks| {
      assert marks[..i] == marks;
    } else {
      var init := marks[..|marks| - 1];
      FirstAnnouncementsExtend(init, i, deferred);
      assert init[..i] == marks[..i];
    }
  }

  /** The reference to a deferred tool: one, at its first announcement, after no use of it. */
  predicate LoadedOnceBeforeUse(out: seq<Mark>, name: string) {
    && multiset(out)[Adds(name)] == 1
    && exists i :: 0 <= i < |out| && out[i] == Adds(name) && Uses(name) !in out[..i]
  }

  lemma FirstAnnouncementIsKept(marks: seq<Mark>, first: nat, deferred: set<string>)
    requires first < |marks| && marks[first].Adds? && marks[first].name in deferred
    requires marks[first] !in marks[..first]
    ensures FirstAnnouncements(marks[..first], deferred) + [marks[first]] <= FirstAnnouncements(marks, deferred)
  {
    FirstAnnouncementsExtend(marks, first + 1, deferred);
    assert marks[..first + 1][..first] == marks[..first];
  }

  lemma DeferredLoadedOnce(marks: seq<Mark>, deferred: set<string>, name: string)
    requires name in deferred && IsDeferred(marks, name)
    ensures LoadedOnceBeforeUse(FirstAnnouncements(marks, deferred), name)
  {
    var announced :| 0 <= announced < |marks| && FreshAt(marks, announced, name);
    var first := FirstIndex(marks, Adds(name));
    var before := FirstAnnouncements(marks[..first], deferred);
    FirstAnnouncementsMembers(marks, deferred);
    FirstAnnouncementIsKept(marks, first, deferred);
    assert first <= announced;
    assert marks[..first] == marks[..announced][..first];
    assert Uses(name) !in marks[..first];
    FirstAnnouncementsMembers(marks[..first], deferred);
    KeptPrefix(FirstAnnouncements(marks, deferred), before, name);
  }

  lemma KeptPrefix(out: seq<Mark>, before: seq<Mark>, name: string)
    requires before + [Adds(name)] <= out && Uses(name) !in before && multiset(out)[Adds(name)] == 1
    ensures LoadedOnceBeforeUse(out, name)
  {
    assert out[|before|] == Adds(name) && out[..|before|] == before;
  }

  lemma {:induction false} FirstIndex(marks: seq<Mark>, mark: Mark) returns (i: nat)
    requires mark in marks
    ensures i < |marks| && marks[i] == mark && mark !in marks[..i]
    ensures forall j :: 0 <= j < i ==> marks[j] != mark
  {
    if marks[0] == mark {
      i := 0;
    } else {
      i := FirstIndex(marks[1..], mark);
      i := i + 1;
      assert marks[..i] == [marks[0]] + marks[1..][..i - 1];
    }
  }

  // ---------------------------------------------------------------------
  // What the converted list says is what the transcript says.

  function ListedItem(block: OutBlock): seq<Item> {
    match block
    case OutText(text) => [Says(FromUser, text)]
    case OutImage(data, mediaType) => [Shows(data, mediaType)]
    case _ => []
  }

  function ListedItems(blocks: seq<OutBlock>): seq<Item> {
    if blocks == [] then [] else ListedItem(blocks[0]) + ListedItems(blocks[1..])
  }

  function ResultItems(content: ResultContent): seq<Item> {
    match content
    case Joined(text) => [Says(FromUser, text)]
    case Listed(parts) => ListedItems(parts)
    case References(_) => []
  }

  function BlockItems(role: Role, block: OutBlock): seq<Item> {
    match block
    case OutText(text) => [Says(role, text)]
    case OutImage(data, mediaType) => [Shows(data, mediaType)]
    case OutThinking(thinking, signature) => [Thinks(thinking, signature)]
    case OutRedacted(data) => [Redacts(data)]
    case OutToolUse(id, name, input) => [Calls(id, name, input)]
    case OutToolResult(id, content, isError) => [Answers(id, isError, ResultItems(content))]
  }

  function BlocksItems(role: Role, blocks: seq<OutBlock>): seq<Item> {
    if blocks == [] then [] else BlockItems(role, blocks[0]) + BlocksItems(role, blocks[1..])
  }

  function SaidBy(message: OutMessage): seq<Item> {
    match message
    case UserText(text) => [Says(FromUser, text)]
    case UserBlocks(blocks) => BlocksItems(FromUser, blocks)
    case AssistantBlocks(blocks) => BlocksItems(FromAssistant, blocks)
  }

  /** The items of a message list, in order. */
  function OutItems(messages: seq<OutMessage>): seq<Item> {
    if messages == [] then [] else SaidBy(messages[0]) + OutItems(messages[1..])
  }

  function UserItems(user: UserContent): seq<Item> {
    match user
    case Plain(text) => if IsBlank(text) then [] else [Says(FromUser, text)]
    case Blocks(parts) => SpokenItems(parts)
  }

  /** A block of an answer: blank texts say nothing; thoughts go out as thoughts under their signature, or
      without one where that is allowed, and else as a text, blank ones only if they have a signature. */
  function AnswerItem(options: Options, block: Block): seq<Item> {
    match block
    case TextBlock(text, _) => if IsBlank(text) then [] else [Says(FromAssistant, text)]
    case CallBlock(call) => [Calls(call.id, options.normalize(call.name), call.arguments)]
    case ThinkingBlock(thinking, signature, redacted) =>
      var signed := SignatureOf(signature);
      if redacted then (if signed == "" then [] else [Redacts(signed)])
      else if IsBlank(thinking) && signed == "" then []
      else if signed != "" || options.allowEmptySignature then [Thinks(thinking, signed)]
      else [Says(FromAssistant, thinking)]
  }

  function AnswerItems(options: Options, blocks: seq<Block>): seq<Item> {
    if blocks == [] then [] else AnswerItem(options, blocks[0]) + AnswerItems(options, blocks[1..])
  }

  /** The content of a result: its texts as lines when it has no image, else its parts, after a word on
      the image when there is no text. */
  function ContentItems(parts: seq<Part>): seq<Item> {
    if !HasImage(parts) then [Says(FromUser, JoinLines(TextsOf(parts)))]
    else (if TextsOf(parts) == [] then [Says(FromUser, "(see attached image)")] else []) + PartItems(parts)
  }

  /** The deferred tools a result announces. */
  function Announced(normalize: string -> string, names: seq<string>, deferred: set<string>): set<string> {
    set i | 0 <= i < |names| && normalize(names[i]) in deferred :: normalize(names[i])
  }

  /** What a transcript says, in order.  A result that announces a deferred tool for the first time gives
      its place to the reference; its content is said at the end of its run of results. */
  function Told(options: Options, messages: seq<Message>, deferred: set<string>, loaded: set<string>,
                held: seq<Item>): seq<Item>
  {
    if messages == [] then held
    else
      match messages[0]
      case UserMessage(user, _) => held + (UserItems(user) + Told(options, messages[1..], deferred, loaded, []))
      case AssistantMessage(a) =>
        held + (AnswerItems(options, a.content) + Told(options, messages[1..], deferred, loaded, []))
      case ToolResultMessage(result) =>
        var announced := Announced(options.normalize, AddedNames(result), deferred);
        var content := ContentItems(result.content);
        if announced <= loaded then
          [Answers(result.toolCallId, result.isError, content)]
          + Told(options, messages[1..], deferred, loaded, held)
        else
          [Answers(result.toolCallId, result.isError, [])]
          + Told(options, messages[1..], deferred, loaded + announced, held + content)
  }

  lemma {:induction false} BlocksItemsAppend(role: Role, a: seq<OutBlock>, b: seq<OutBlock>)
    ensures BlocksItems(role, a + b) == BlocksItems(role, a) + BlocksItems(role, b)
  {
    if a == [] {
      assert a + b == b && [] + BlocksItems(role, b) == BlocksItems(role, b);
    } else {
      assert (a + b)[1..] == a[1..] + b;
      BlocksItemsAppend(role, a[1..], b);
      ItemsAssociate(BlockItems(role, a[0]), BlocksItems(role, a[1..]), BlocksItems(role, b));
    }
  }

  lemma OneBlockItems(role: Role, block: OutBlock)
    ensures BlocksItems(role, [block]) == BlockItems(role, block)
  {
    assert [block][1..] == [];
    ItemsAssociate(BlockItems(role, block), [], []);
  }

  lemma OutItemsPrepend(piece: seq<OutMessage>, rest: seq<OutMessage>)
    requires |piece| <= 1
    ensures OutItems(piece + rest) == OutItems(piece) + OutItems(rest)
  {
    if piece == [] {
      assert piece + rest == rest;
      ItemsAssociate(OutItems(rest), [], []);
    } else {
      assert piece == [piece[0]];
      OneMessageItems(piece[0]);
      assert (piece + rest)[0] == piece[0] && (piece + rest)[1..] == rest;
    }
  }

  lemma OneMessageItems(message: OutMessage)
    ensures OutItems([message]) == SaidBy(message)
  {
    assert [message][1..] == [];
    ItemsAssociate(SaidBy(message), [], []);
  }

  lemma {:induction false} UserPartsSay(parts: seq<Part>)
    ensures BlocksItems(FromUser, ConvertUserParts(parts)) == SpokenItems(parts)
  {
    if parts != [] {
      UserPartsSay(parts[1..]);
      var blank := parts[0].TextPart? && IsBlank(parts[0].text);
      BlocksItemsAppend(FromUser, if blank then [] else [ConvertPart(parts[0])], ConvertUserParts(parts[1..]));
      OneBlockItems(FromUser, ConvertPart(parts[0]));
    }
  }

  lemma UserSays(user: UserContent)
    ensures |ConvertUser(user)| <= 1 && OutItems(ConvertUser(user)) == UserItems(user)
  {
    match user
    case Plain(text) => OneMessageItems(UserText(text));
    case Blocks(parts) =>
      UserPartsSay(parts);
      OneMessageItems(UserBlocks(ConvertUserParts(parts)));
  }

  lemma AnswerBlockSays(options: Options, block: Block)
    ensures var converted := ConvertBlock(options, block);
            (if converted.Some? then BlockItems(FromAssistant, converted.value) else [])
            == AnswerItem(options, block)
  {
    if block.ThinkingBlock? && block.thinkingSignature.Some? {
      assert IsBlank("");
    }
  }

  lemma {:induction false} AnswerSays(options: Options, blocks: seq<Block>)
    ensures BlocksItems(FromAssistant, ConvertBlocks(options, blocks)) == AnswerItems(options, blocks)
  {
    if blocks != [] {
      AnswerSays(options, blocks[1..]);
      var head := ConvertBlock(options, blocks[0]);
      AnswerBlockSays(options, blocks[0]);
      BlocksItemsAppend(FromAssistant, if head.Some? then [head.value] else [], ConvertBlocks(options, blocks[1..]));
      if head.Some? {
        OneBlockItems(FromAssistant, head.value);
      }
    }
  }

  lemma {:induction false} TextsAreLines(parts: seq<Part>)
    ensures TextsOf(parts) != [] <==> exists i :: 0 <= i < |parts| && parts[i].TextPart?
    ensures JoinTexts(parts) == JoinLines(TextsOf(parts))
  {
    if parts != [] {
      var rest := parts[1..];
      TextsAreLines(rest);
      assert (exists i :: 0 <= i < |rest| && rest[i].TextPart?)
        <==> exists i :: 1 <= i < |parts| && parts[i].TextPart? by {
        if i :| 0 <= i < |rest| && rest[i].TextPart? {
          assert parts[i + 1].TextPart?;
        }
        if i :| 1 <= i < |parts| && parts[i].TextPart? {
          assert rest[i - 1].TextPart?;
        }
      }
      if parts[0].TextPart? {
        assert parts[0].TextPart?;
        assert ([parts[0].text] + TextsOf(rest))[1..] == TextsOf(rest);
      } else {
        assert [] + TextsOf(rest) == TextsOf(rest);
      }
    }
  }

  lemma {:induction false} ListedPartsSay(parts: seq<Part>)
    ensures ListedItems(ConvertParts(parts)) == PartItems(parts)
  {
    if parts != [] {
      ListedPartsSay(parts[1..]);
      assert ConvertParts(parts)[1..] == ConvertParts(parts[1..]);
      assert PartItems(parts) == [PartItem(parts[0])] + PartItems(parts[1..]);
    }
  }

  lemma ResultContentSays(parts: seq<Part>)
    ensures ResultItems(ConvertResultContent(parts)) == ContentItems(parts)
  {
    TextsAreLines(parts);
    ListedPartsSay(parts);
    var note := [OutText("(see attached image)")];
    assert (note + ConvertParts(parts))[1..] == ConvertParts(parts);
    ItemsAssociate(PartItems(parts), [], []);
  }

  lemma {:induction false} DisplacedBlocksSay(blocks: seq<OutBlock>)
    requires forall i :: 0 <= i < |blocks| ==> blocks[i].OutText? || blocks[i].OutImage?
    ensures BlocksItems(FromUser, blocks) == ListedItems(blocks)
  {
    if blocks != [] {
      DisplacedBlocksSay(blocks[1..]);
    }
  }

  lemma DisplacedSays(parts: seq<Part>)
    ensures BlocksItems(FromUser, Displaced(ConvertResultContent(parts))) == ContentItems(parts)
  {
    ResultContentSays(parts);
    var content := ConvertResultContent(parts);
    match content
    case Joined(text) => OneBlockItems(FromUser, OutText(text));
    case Listed(blocks) => DisplacedBlocksSay(blocks);
    case References(_) =>
  }

  lemma {:induction false} ReferencesAnnounce(
    options: Options, names: seq<string>, deferred: set<string>, loaded: set<string>)
    ensures var (references, loaded') := NewReferences(options, names, deferred, loaded);
            var announced := Announced(options.normalize, names, deferred);
            && (references == [] <==> announced <= loaded) && loaded' == loaded + announced
  {
    var announced := Announced(options.normalize, names, deferred);
    if names != [] {
      var name := options.normalize(names[0]);
      var later := Announced(options.normalize, names[1..], deferred);
      AnnouncedFirst(options.normalize, names, deferred);
      if name !in deferred || name in loaded {
        ReferencesAnnounce(options, names[1..], deferred, loaded);
      } else {
        ReferencesAnnounce(options, names[1..], deferred, loaded + {name});
        assert name in announced;
      }
    }
  }

  lemma AnnouncedFirst(normalize: string -> string, names: seq<string>, deferred: set<string>)
    requires names != []
    ensures Announced(normalize, names, deferred)
         == (if normalize(names[0]) in deferred then {normalize(names[0])} else {})
            + Announced(normalize, names[1..], deferred)
  {
    assert forall i :: 0 < i < |names| ==> names[i] == names[1..][i - 1];
    assert forall i :: 0 <= i < |names| - 1 ==> names[1..][i] == names[i + 1];
  }

  lemma ResultIsAddedAs(options: Options, run: Run, result: ToolResult, deferred: set<string>)
    ensures var next := AddResult(options, run, result, deferred);
            var announced := Announced(options.normalize, AddedNames(result), deferred);
            var references := NewReferences(options, AddedNames(result), deferred, run.loaded).0;
            var content := ConvertResultContent(result.content);
            && next.loaded == run.loaded + announced
            && next.results == run.results + [OutToolResult(
                 result.toolCallId, if announced <= run.loaded then content else References(references),
                 result.isError)]
            && next.siblings == run.siblings + if announced <= run.loaded then [] else Displaced(content)
  {
    ReferencesAnnounce(options, AddedNames(result), deferred, run.loaded);
    assert run.siblings + [] == run.siblings;
  }

  /** What a run says so far: its results, and what it holds back. */
  lemma ResultSays(options: Options, run: Run, result: ToolResult, deferred: set<string>)
    ensures var next := AddResult(options, run, result, deferred);
            var announced := Announced(options.normalize, AddedNames(result), deferred);
            var content := ContentItems(result.content);
            && next.loaded == run.loaded + announced
            && BlocksItems(FromUser, next.results)
               == BlocksItems(FromUser, run.results)
                  + [Answers(result.toolCallId, result.isError, if announced <= run.loaded then content else [])]
            && BlocksItems(FromUser, next.siblings)
               == BlocksItems(FromUser, run.siblings) + if announced <= run.loaded then [] else content
  {
    var next := AddResult(options, run, result, deferred);
    ResultIsAddedAs(options, run, result, deferred);
    ResultContentSays(result.content);
    OneMoreSays(run.results, next.results[|run.results|]);
    var held := next.siblings[|run.siblings|..];
    DisplacedSays(result.content);
    assert next.siblings == run.siblings + held;
    BlocksItemsAppend(FromUser, run.siblings, held);
  }

  lemma OneMoreSays(blocks: seq<OutBlock>, block: OutBlock)
    ensures BlocksItems(FromUser, blocks + [block]) == BlocksItems(FromUser, blocks) + BlockItems(FromUser, block)
  {
    BlocksItemsAppend(FromUser, blocks, [block]);
    OneBlockItems(FromUser, block);
  }

  lemma {:induction false} RunSays(options: Options, run: Run, messages: seq<Message>, deferred: set<string>)
    ensures var out := ConvertRun(options, run, messages, deferred);
            var rest := messages[RunLength(messages)..];
            BlocksItems(FromUser, out.results)
            + (BlocksItems(FromUser, out.siblings) + Told(options, rest, deferred, out.loaded, []))
            == BlocksItems(FromUser, run.results)
               + Told(options, messages, deferred, run.loaded, BlocksItems(FromUser, run.siblings))
    decreases |messages|
  {
    if RunLength(messages) == 0 {
      assert messages[0..] == messages;
      HeldIsSaid(options, messages, deferred, run.loaded, BlocksItems(FromUser, run.siblings));
    } else {
      var result := messages[0].result;
      var next := AddResult(options, run, result, deferred);
      ResultSays(options, run, result, deferred);
      RunSays(options, next, messages[1..], deferred);
      assert messages[1..][RunLength(messages[1..])..] == messages[RunLength(messages)..];
      OneResultTold(options, messages, deferred, run.loaded, BlocksItems(FromUser, run.siblings),
                    BlocksItems(FromUser, run.results));
    }
  }

  lemma HeldIsSaid(options: Options, messages: seq<Message>, deferred: set<string>, loaded: set<string>,
                   held: seq<Item>)
    requires messages == [] || !messages[0].ToolResultMessage?
    ensures Told(options, messages, deferred, loaded, held)
         == held + Told(options, messages, deferred, loaded, [])
  {
    ItemsAssociate(held, [], []);
    ItemsAssociate(Told(options, messages, deferred, loaded, []), [], []);
    if messages != [] {
      var rest := Told(options, messages[1..], deferred, loaded, []);
      var items := if messages[0].UserMessage? then UserItems(messages[0].user)
                   else AnswerItems(options, messages[0].assistant.content);
      ItemsAssociate(items + rest, [], []);
    }
  }

  lemma OneResultTold(options: Options, messages: seq<Message>, deferred: set<string>,
                      loaded: set<string>, held: seq<Item>, before: seq<Item>)
    requires messages != [] && messages[0].ToolResultMessage?
    ensures var result := messages[0].result;
            var announced := Announced(options.normalize, AddedNames(result), deferred);
            var content := ContentItems(result.content);
            var fits := announced <= loaded;
            (before + [Answers(result.toolCallId, result.isError, if fits then content else [])])
            + Told(options, messages[1..], deferred, loaded + announced, held + if fits then [] else content)
            == before + Told(options, messages, deferred, loaded, held)
  {
    var result := messages[0].result;
    var announced := Announced(options.normalize, AddedNames(result), deferred);
    var content := ContentItems(result.content);
    var fits := announced <= loaded;
    if fits {
      assert loaded + announced == loaded;
    }
    ItemsAssociate(held, [], []);
    ItemsAssociate(before, [Answers(result.toolCallId, result.isError, if fits then content else [])],
                   Told(options, messages[1..], deferred, loaded + announced, held + if fits then [] else content));
  }

  /** The converted list says exactly what the transcript says, in order: blank texts are the only ones
      left out, and the content of every result is said, be it displaced or not. */
  lemma {:induction false} ConversionSaysEverything(
    options: Options, messages: seq<Message>, deferred: set<string>, loaded: set<string>)
    ensures OutItems(Convert(options, messages, deferred, loaded))
         == Told(options, messages, deferred, loaded, [])
    decreases |messages|
  {
    if messages != [] {
      match messages[0]
      case UserMessage(user, _) =>
        ConversionSaysEverything(options, messages[1..], deferred, loaded);
        UserSays(user);
        OutItemsPrepend(ConvertUser(user), Convert(options, messages[1..], deferred, loaded));
        ItemsAssociate(Told(options, messages, deferred, loaded, []), [], []);
      case AssistantMessage(a) =>
        ConversionSaysEverything(options, messages[1..], deferred, loaded);
        var content := ConvertBlocks(options, a.content);
        AnswerSays(options, a.content);
        OneMessageItems(AssistantBlocks(content));
        OutItemsPrepend(if content == [] then [] else [AssistantBlocks(content)],
                        Convert(options, messages[1..], deferred, loaded));
      case ToolResultMessage(_) =>
        RunSaysEverything(options, messages, deferred, loaded);
    }
  }

  lemma {:induction false} RunSaysEverything(
    options: Options, messages: seq<Message>, deferred: set<string>, loaded: set<string>)
    requires messages != [] && messages[0].ToolResultMessage?
    ensures OutItems(Convert(options, messages, deferred, loaded))
         == Told(options, messages, deferred, loaded, [])
    decreases |messages|, 0
  {
    var n := RunLength(messages);
    var run := ConvertRun(options, Run([], [], loaded), messages, deferred);
    var rest := Convert(options, messages[n..], deferred, run.loaded);
    RunSays(options, Run([], [], loaded), messages, deferred);
    ConversionSaysEverything(options, messages[n..], deferred, run.loaded);
    OneMessageItems(UserBlocks(run.results + run.siblings));
    OutItemsPrepend([UserBlocks(run.results + run.siblings)], rest);
    BlocksItemsAppend(FromUser, run.results, run.siblings);
    ItemsAssociate(BlocksItems(FromUser, run.results), BlocksItems(FromUser, run.siblings), OutItems(rest));
    ItemsAssociate(Told(options, messages, deferred, loaded, []), [], []);
  }

  // ---------------------------------------------------------------------
  // Images.

  lemma ContentShowsNoImage(parts: seq<Part>)
    requires !HasImage(parts)
    ensures NoImages(ContentItems(parts)) && NoneShown(ContentItems(parts))
  {
  }

  lemma {:induction false} AnswerShowsNoImage(options: Options, blocks: seq<Block>)
    ensures NoImages(AnswerItems(options, blocks))
  {
    if blocks != [] {
      AnswerShowsNoImage(options, blocks[1..]);
    }
  }

  lemma {:induction false} NoImageIsTold(options: Options, messages: seq<Message>, deferred: set<string>,
                                         loaded: set<string>, held: seq<Item>)
    requires forall k :: 0 <= k < |messages| ==> !MessageHasImage(messages[k])
    requires NoImages(held)
    ensures NoImages(Told(options, messages, deferred, loaded, held))
  {
    if messages != [] {
      var rest := messages[1..];
      assert !MessageHasImage(messages[0]);
      match messages[0]
      case UserMessage(user, _) =>
        NoImageIsTold(options, rest, deferred, loaded, []);
        if user.Blocks? {
          SpokenShowsNoImage(user.parts);
        }
      case AssistantMessage(a) =>
        NoImageIsTold(options, rest, deferred, loaded, []);
        AnswerShowsNoImage(options, a.content);
      case ToolResultMessage(result) =>
        ContentShowsNoImage(result.content);
        var announced := Announced(options.normalize, AddedNames(result), deferred);
        NoImageIsTold(options, rest, deferred, loaded, held);
        NoImageIsTold(options, rest, deferred, loaded + announced, held + ContentItems(result.content));
    }
  }

  // ---------------------------------------------------------------------
  // The placement part of the payload.

  /** The tool definitions sent immediately and deferred, and the names references may use. */
  datatype PayloadTools = PayloadTools(immediate: seq<Tool>, deferred: seq<Named>, names: set<string>)

  function PlaceTools(placement: Placement): PayloadTools {
    if placement.immediate == [] || placement.deferred == [] then
      PayloadTools(if placement.immediate == [] then ToolsOf(placement.deferred) else placement.immediate, [], {})
    else
      PayloadTools(placement.immediate, placement.deferred,
                   set i | 0 <= i < |placement.deferred| :: placement.deferred[i].name)
  }

  /** No tool is lost or repeated: what is sent at once and what is deferred are the placement's tools, in
      order, and the names references may use are those of the deferred ones. */
  lemma NoToolIsLost(placement: Placement)
    ensures var payload := PlaceTools(placement);
            && payload.immediate + ToolsOf(payload.deferred) == placement.immediate + ToolsOf(placement.deferred)
            && (payload.deferred != [] <==> placement.immediate != [] && placement.deferred != [])
            && forall name :: name in payload.names <==> name in NamesOf(payload.deferred)
  {
    var payload := PlaceTools(placement);
    assert forall i :: 0 <= i < |payload.deferred| ==> NamesOf(payload.deferred)[i] == payload.deferred[i].name;
  }

  /** End to end: every deferred tool gets exactly one reference in the converted transcript, where
      it is first announced and before every use of it; no other tool gets any. */
  lemma EveryDeferredToolIsLoadedOnce(
    options: Options, tools: seq<Tool>, messages: seq<Message>, enabled: bool, name: string)
    ensures var payload := PlaceTools(SplitDeferred(tools, messages, enabled, options.normalize));
            var marks := TranscriptMarks(messages, options.normalize);
            var out := OutMarks(Convert(options, messages, payload.names, {}));
            && out == FirstAnnouncements(marks, payload.names)
            && (name in NamesOf(payload.deferred) <==> name in payload.names)
            && (if name in payload.names then LoadedOnceBeforeUse(out, name)
                else multiset(out)[Adds(name)] == 0)
  {
    var placement := SplitDeferred(tools, messages, enabled, options.normalize);
    var payload := PlaceTools(placement);
    var marks := TranscriptMarks(messages, options.normalize);
    ConversionKeepsMarks(options, messages, payload.names, {});
    LoadedAreFirstAnnouncements(marks, payload.names);
    FirstAnnouncementsMembers(marks, payload.names);
    if name in payload.names {
      var i :| 0 <= i < |payload.deferred| && payload.deferred[i].name == name;
      assert NamesOf(payload.deferred)[i] == name;
      DeferredNamesAreFresh(tools, messages, enabled, options.normalize, payload.deferred[i]);
      DeferredLoadedOnce(marks, payload.names, name);
    }
  }

  lemma DeferredNamesAreFresh(
    tools: seq<Tool>, messages: seq<Message>, enabled: bool, normalize: string -> string, e: Named)
    requires e in SplitDeferred(tools, messages, enabled, normalize).deferred
    ensures IsDeferred(TranscriptMarks(messages, normalize), e.name)
  {
    var names := if enabled then ScanMarks(Scan({}, {}), TranscriptMarks(messages, normalize)).deferred else {};
    PlacementPartitions(Unique(tools, normalize), names);
    ScanDefersFreshTools(TranscriptMarks(messages, normalize));
  }

  // ---------------------------------------------------------------------
  // The loops.

  method CollectReferences(options: Options, names: seq<string>, deferred: set<string>, loaded: set<string>)
    returns (references: seq<string>, loaded': set<string>)
    ensures (references, loaded') == NewReferences(options, names, deferred, loaded)
  {
    references, loaded' := [], loaded;
    ghost var all := NewReferences(options, names, deferred, loaded);
    for i := 0 to |names|
      invariant var rest := NewReferences(options, names[i..], deferred, loaded');
                references + rest.0 == all.0 && rest.1 == all.1
    {
      assert names[i..][1..] == names[i + 1..];
      var name := options.normalize(names[i]);
      if name !in deferred || name in loaded' {
        continue;
      }
      loaded' := loaded' + {name};
      references := references + [name];
    }
    assert names[|names|..] == [] && references + [] == references;
  }

  /** The inner loop: consume the run of tool results that begins at `index`. */
  method ConvertToolResults(
    options: Options, messages: seq<Message>, index: nat, deferred: set<string>, loaded: set<string>)
    returns (run: Run, next: nat)
    requires index < |messages| && messages[index].ToolResultMessage?
    ensures next == RunEnd(messages, index)
    ensures run == RunFrom(options, Run([], [], loaded), messages, index, deferred)
  {
    run := Run([], [], loaded);
    next := index;
    ghost var last := RunFrom(options, run, messages, index, deferred);
    while next < |messages| && messages[next].ToolResultMessage?
      invariant index <= next <= |messages|
      invariant RunFrom(options, run, messages, next, deferred) == last
      invariant RunEnd(messages, next) == RunEnd(messages, index)
      decreases |messages| - next
    {
      run := ConvertToolResult(options, run, messages[next].result, deferred);
      next := next + 1;
    }
  }

  /** What the run of tool results that begins at an index converts to. */
  function RunFrom(options: Options, run: Run, messages: seq<Message>, i: nat, deferred: set<string>): Run
    requires i <= |messages|
    decreases |messages| - i
  {
    if i == |messages| || !messages[i].ToolResultMessage? then run
    else RunFrom(options, AddResult(options, run, messages[i].result, deferred), messages, i + 1, deferred)
  }

  /** Where the run of tool results that begins at an index ends. */
  function RunEnd(messages: seq<Message>, i: nat): (end: nat)
    requires i <= |messages|
    ensures i <= end <= |messages|
    ensures i < |messages| && messages[i].ToolResultMessage? ==> i < end
    decreases |messages| - i
  {
    if i == |messages| || !messages[i].ToolResultMessage? then i else RunEnd(messages, i + 1)
  }

  lemma {:induction false} RunFromIsRun(options: Options, run: Run, messages: seq<Message>, i: nat,
                                        deferred: set<string>)
    requires i <= |messages|
    ensures RunFrom(options, run, messages, i, deferred) == ConvertRun(options, run, messages[i..], deferred)
    decreases |messages| - i
  {
    if i < |messages| && messages[i].ToolResultMessage? {
      RunFromIsRun(options, AddResult(options, run, messages[i].result, deferred), messages, i + 1, deferred);
      assert messages[i..][1..] == messages[i + 1..];
    }
  }

  lemma {:induction false} RunEndIsLength(messages: seq<Message>, i: nat)
    requires i <= |messages|
    ensures RunEnd(messages, i) == i + RunLength(messages[i..]) <= |messages|
    decreases |messages| - i
  {
    if i < |messages| && messages[i].ToolResultMessage? {
      RunEndIsLength(messages, i + 1);
      assert messages[i..][1..] == messages[i + 1..];
    }
  }

  /** One tool result: its references, or its content with nothing displaced. */
  method ConvertToolResult(options: Options, run: Run, result: ToolResult, deferred: set<string>) returns (next: Run)
    ensures next == AddResult(options, run, result, deferred)
  {
    var references, loaded := CollectReferences(options, AddedNames(result), deferred, run.loaded);
    var content := ConvertResultContent(result.content);
    var results, siblings := run.results, run.siblings;
    if references == [] {
      results := results + [OutToolResult(result.toolCallId, content, result.isError)];
    } else {
      results := results + [OutToolResult(result.toolCallId, References(references), result.isError)];
      siblings := siblings + Displaced(content);
    }
    next := Run(results, siblings, loaded);
  }

  method ConvertAnthropicMessages(options: Options, messages: seq<Message>, deferred: set<string>)
    returns (out: seq<OutMessage>)
    ensures out == Convert(options, messages, deferred, {})
  {
    var loaded: set<string> := {};
    out := [];
    var index := 0;
    ghost var all := ConvertFrom(options, messages, 0, deferred, {});
    while index < |messages|
      invariant index <= |messages|
      invariant out + ConvertFrom(options, messages, index, deferred, loaded) == all
      decreases |messages| - index
    {
      var piece;
      piece, index, loaded := ConvertNext(options, messages, index, deferred, loaded);
      OutAssociates(out, piece, ConvertFrom(options, messages, index, deferred, loaded));
      out := out + piece;
    }
    ConvertFromIsConvert(options, messages, 0, deferred, {});
    assert messages[0..] == messages;
  }

  /** One round of the outer loop: a user message, an assistant message, or a run of tool results. */
  method ConvertNext(options: Options, messages: seq<Message>, index: nat, deferred: set<string>, loaded: set<string>)
    returns (piece: seq<OutMessage>, next: nat, after: set<string>)
    requires index < |messages|
    ensures index < next <= |messages|
    ensures ConvertFrom(options, messages, index, deferred, loaded)
         == piece + ConvertFrom(options, messages, next, deferred, after)
  {
    match messages[index]
    case UserMessage(user, _) =>
      return ConvertUser(user), index + 1, loaded;
    case AssistantMessage(a) =>
      var content := ConvertBlocks(options, a.content);
      return if content == [] then [] else [AssistantBlocks(content)], index + 1, loaded;
    case ToolResultMessage(_) =>
      var run;
      run, next := ConvertToolResults(options, messages, index, deferred, loaded);
      return [UserBlocks(run.results + run.siblings)], next, run.loaded;
  }

  /** The conversion of a transcript from an index on. */
  function ConvertFrom(options: Options, messages: seq<Message>, i: nat, deferred: set<string>, loaded: set<string>)
    : seq<OutMessage>
    requires i <= |messages|
    decreases |messages| - i
  {
    if i == |messages| then []
    else
      match messages[i]
      case UserMessage(user, _) => ConvertUser(user) + ConvertFrom(options, messages, i + 1, deferred, loaded)
      case AssistantMessage(a) =>
        var content := ConvertBlocks(options, a.content);
        (if content == [] then [] else [AssistantBlocks(content)])
        + ConvertFrom(options, messages, i + 1, deferred, loaded)
      case ToolResultMessage(_) =>
        var run := RunFrom(options, Run([], [], loaded), messages, i, deferred);
        [UserBlocks(run.results + run.siblings)]
        + ConvertFrom(options, messages, RunEnd(messages, i), deferred, run.loaded)
  }

  lemma {:induction false} ConvertFromIsConvert(
    options: Options, messages: seq<Message>, i: nat, deferred: set<string>, loaded: set<string>)
    requires i <= |messages|
    ensures ConvertFrom(options, messages, i, deferred, loaded) == Convert(options, messages[i..], deferred, loaded)
    decreases |messages| - i
  {
    if i < |messages| {
      if messages[i].ToolResultMessage? {
        var run := RunFrom(options, Run([], [], loaded), messages, i, deferred);
        ConvertFromIsConvert(options, messages, RunEnd(messages, i), deferred, run.loaded);
        RunUnfolds(options, messages, i, deferred, loaded);
      } else {
        ConvertFromIsConvert(options, messages, i + 1, deferred, loaded);
        assert messages[i..][1..] == messages[i + 1..];
      }
    }
  }

  lemma RunUnfolds(options: Options, messages: seq<Message>, i: nat, deferred: set<string>, loaded: set<string>)
    requires i < |messages| && messages[i].ToolResultMessage?
    ensures var run := RunFrom(options, Run([], [], loaded), messages, i, deferred);
            Convert(options, messages[i..], deferred, loaded)
            == [UserBlocks(run.results + run.siblings)]
               + Convert(options, messages[RunEnd(messages, i)..], deferred, run.loaded)
  {
    RunFromIsRun(options, Run([], [], loaded), messages, i, deferred);
    RunEndIsLength(messages, i);
    DropTwice(messages, i, RunLength(messages[i..]));
    RunUnfoldsTo(options, messages[i..], messages[RunEnd(messages, i)..], deferred, loaded,
                 RunFrom(options, Run([], [], loaded), messages, i, deferred));
  }

  lemma DropTwice(messages: seq<Message>, i: nat, n: nat)
    requires i + n <= |messages|
    ensures messages[i..][n..] == messages[i + n..]
  {
  }

  lemma RunUnfoldsTo(options: Options, rest: seq<Message>, tail: seq<Message>, deferred: set<string>,
                     loaded: set<string>, run: Run)
    requires rest != [] && rest[0].ToolResultMessage? && tail == rest[RunLength(rest)..]
    requires run == ConvertRun(options, Run([], [], loaded), rest, deferred)
    ensures Convert(options, rest, deferred, loaded)
         == [UserBlocks(run.results + run.siblings)] + Convert(options, tail, deferred, run.loaded)
  {
  }

  lemma OutAssociates(a: seq<OutMessage>, b: seq<OutMessage>, c: seq<OutMessage>)
    ensures (a + b) + c == a + (b + c)
    ensures b == [] ==> a + b == a
  {
  }

  /** What a payload says: exactly what the transformed transcript says, whose messages are the kept
      ones, each as the model may get it, and made-up results; no image unless the model takes them. */
  ghost predicate PayloadSays(rules: Rules, options: Options, messages: seq<Message>, names: set<string>, now: int,
                              out: seq<OutMessage>)
  {
    var transformed := Transform(rules, messages, now);
    && ContentsKept(rules.model, messages, Repaired(Prepared(rules, messages), [], {}), transformed)
    && OutItems(out) == Told(options, transformed, names, {}, [])
    && (!rules.model.acceptsImages ==> NoImages(OutItems(out)))
  }

  lemma PayloadSaysEverything(rules: Rules, options: Options, messages: seq<Message>, names: set<string>, now: int)
    ensures PayloadSays(rules, options, messages, names, now,
                        Convert(options, Transform(rules, messages, now), names, {}))
  {
    var transformed := Transform(rules, messages, now);
    TransformKeepsContents(rules, messages, now);
    ConversionSaysEverything(options, transformed, names, {});
    if !rules.model.acceptsImages {
      NoImageIsTold(options, transformed, names, {}, []);
    }
  }

  /** The message and tool part of `build_anthropic_payload`. */
  method BuildAnthropicPayload(
    rules: Rules, options: Options, messages: seq<Message>, tools: seq<Tool>, supportsReferences: bool, now: int)
    returns (out: seq<OutMessage>, payload: PayloadTools)
    ensures var transformed := Transform(rules, messages, now);
            && payload == PlaceTools(SplitDeferred(tools, transformed, supportsReferences, options.normalize))
            && out == Convert(options, transformed, payload.names, {})
    ensures EveryUseAnswered(out)
    ensures EveryResultAnswers(out, {}) <==> NoOrphans(Kept(Prepared(rules, messages)), {})
    ensures forall e :: e in payload.deferred ==> LoadedOnceBeforeUse(OutMarks(out), e.name)
    ensures PayloadSays(rules, options, messages, payload.names, now, out)
    ensures var transformed := Transform(rules, messages, now);
            var placement := SplitDeferred(tools, transformed, supportsReferences, options.normalize);
            payload.immediate + ToolsOf(payload.deferred) == placement.immediate + ToolsOf(placement.deferred)
  {
    var transformed := InsertSyntheticToolResults(Prepared(rules, messages), now);
    var placement := SplitDeferredTools(tools, transformed, supportsReferences, options.normalize);
    payload := PlaceTools(placement);
    NoToolIsLost(placement);
    out := ConvertAnthropicMessages(options, transformed, payload.names);
    AnthropicProtocolHolds(rules, options, messages, payload.names, now);
    PayloadSaysEverything(rules, options, messages, payload.names, now);
    forall e | e in payload.deferred
      ensures LoadedOnceBeforeUse(OutMarks(out), e.name)
    {
      EveryDeferredToolIsLoadedOnce(options, tools, transformed, supportsReferences, e.name);
    }
  }
}
