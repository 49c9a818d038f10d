/** The Google stream processor: chunks of parts become an answer built up in place and a log of
    events about it.

    A chunk is modelled as what the processor reads of it.  Response ids and usage are left out;
    the clock is a parameter, and so is how arguments are written. */
module GoogleStream {
  import opened Wrappers
  import opened Messages
  import opened AssistantStream
  import opened ProxyClient

  datatype FunctionCall = FunctionCall(name: string, id: Option<string>, args: string)

  /** One part: its text if it has any, whether it is marked as thought, its signature, its call. */
  datatype Part = Part(text: Option<string>, thought: bool, signature: Option<string>, call: Option<FunctionCall>)

  datatype Chunk =
    | NotAnObject
    | NoCandidate
    | Candidate(parts: seq<Part>, finishReason: Option<StopReason>)

  datatype ActiveBlock = ActiveText(index: nat) | ActiveThinking(index: nat)

  /** A later non-empty signature replaces an earlier one. */
  function RetainSignature(existing: Option<string>, incoming: Option<string>): Option<string> {
    if incoming.Some? && incoming.value != "" then incoming else existing
  }

  // ---------------------------------------------------------------------
  // What the answer has to hold: the parts' characters and calls, in order.

  datatype Token = TextChar(c: char) | ThinkingChar(c: char) | Called(name: string, args: string)

  function TextTokens(text: string, thinking: bool): (ts: seq<Token>)
    ensures |ts| == |text|
  {
    seq(|text|, i requires 0 <= i < |text| => if thinking then ThinkingChar(text[i]) else TextChar(text[i]))
  }

  function BlockTokens(b: Block): seq<Token> {
    match b
    case TextBlock(text, _) => TextTokens(text, false)
    case ThinkingBlock(text, _, _) => TextTokens(text, true)
    case CallBlock(call) => [Called(call.name, call.arguments)]
  }

  function ContentTokens(content: seq<Block>): seq<Token> {
    if content == [] then []
    else ContentTokens(content[..|content| - 1]) + BlockTokens(content[|content| - 1])
  }

  function TextPartTokens(part: Part): seq<Token> {
    if part.text.Some? then TextTokens(part.text.value, part.thought) else []
  }

  function CallTokens(part: Part): seq<Token> {
    if part.call.Some? then [Called(part.call.value.name, part.call.value.args)] else []
  }

  function PartTokens(part: Part): seq<Token> {
    TextPartTokens(part) + CallTokens(part)
  }

  function PartsTokens(parts: seq<Part>): seq<Token> {
    if parts == [] then []
    else PartsTokens(parts[..|parts| - 1]) + PartTokens(parts[|parts| - 1])
  }

  function ChunkParts(chunk: Chunk): seq<Part> {
    if chunk.Candidate? then chunk.parts else []
  }

  function AllParts(chunks: seq<Chunk>): seq<Part> {
    if chunks == [] then []
    else AllParts(chunks[..|chunks| - 1]) + ChunkParts(chunks[|chunks| - 1])
  }

  /** No two neighbouring blocks are texts of the same kind: text goes into one block as long as it can. */
  predicate Coalesced(content: seq<Block>) {
    forall i :: 0 < i < |content| ==>
      && !(content[i - 1].TextBlock? && content[i].TextBlock?)
      && !(content[i - 1].ThinkingBlock? && content[i].ThinkingBlock?)
  }

  lemma ContentSnoc(content: seq<Block>, b: Block)
    ensures ContentTokens(content + [b]) == ContentTokens(content) + BlockTokens(b)
  {
    assert (content + [b])[..|content|] == content;
  }

  lemma TokensAssociate(a: seq<Token>, b: seq<Token>, c: seq<Token>)
    ensures (a + b) + c == a + (b + c)
  {
  }

  lemma TakeOneMore(before: seq<Part>, parts: seq<Part>, i: nat)
    requires i < |parts|
    ensures before + parts[..i + 1] == (before + parts[..i]) + [parts[i]]
  {
  }

  function EmptyBlock(thinking: bool): Block {
    if thinking then ThinkingBlock("", None, false) else TextBlock("", None)
  }

  /** A text block with a piece more, and the piece's signature if it has one. */
  function Grow(b: Block, piece: string, signature: Option<string>): Block {
    match b
    case TextBlock(text, had) => TextBlock(text + piece, RetainSignature(had, signature))
    case ThinkingBlock(text, had, redacted) => ThinkingBlock(text + piece, RetainSignature(had, signature), redacted)
    case CallBlock(_) => b
  }

  function Grown(content: seq<Block>, piece: string, signature: Option<string>): seq<Block> {
    if content == [] then [] else content[|content| - 1 := Grow(LastOf(content), piece, signature)]
  }

  // ---------------------------------------------------------------------
  // What the parts build, one after the other.

  /** The answer so far, the kind of its active block, and how many ids have been made. */
  datatype Build = Build(content: seq<Block>, open: OpenBlock, counter: nat)

  function TextBuild(b: Build, thought: bool, signature: Option<string>, text: string): Build {
    var open := if thought then OpenThinking else OpenText;
    var base := if b.open == open then b.content else b.content + [EmptyBlock(thought)];
    Build(Grown(base, text, signature), open, b.counter)
  }

  predicate IdTaken(content: seq<Block>, id: string) {
    exists i :: 0 <= i < |content| && content[i].CallBlock? && content[i].call.id == id
  }

  /** The call's own id is used unless it is missing, empty or already taken. */
  predicate OwnIdUsable(content: seq<Block>, call: FunctionCall) {
    call.id.Some? && call.id.value != "" && !IdTaken(content, call.id.value)
  }

  function CallBuild(mintId: (string, nat) -> string, b: Build, call: FunctionCall, signature: Option<string>): Build {
    var own := OwnIdUsable(b.content, call);
    var counter := if own then b.counter else b.counter + 1;
    var id := if own then call.id.value else mintId(call.name, counter);
    var kept := if signature == Some("") then None else signature;
    Build(b.content + [CallBlock(ToolCall(id, call.name, call.args, kept))], NoBlock, counter)
  }

  function PartTextBuild(b: Build, part: Part): Build {
    if part.text.Some? then TextBuild(b, part.thought, part.signature, part.text.value) else b
  }

  function PartBuild(mintId: (string, nat) -> string, b: Build, part: Part): Build {
    var b' := PartTextBuild(b, part);
    if part.call.Some? then CallBuild(mintId, b', part.call.value, part.signature) else b'
  }

  function BuildAll(mintId: (string, nat) -> string, parts: seq<Part>): Build {
    if parts == [] then Build([], NoBlock, 0)
    else PartBuild(mintId, BuildAll(mintId, parts[..|parts| - 1]), parts[|parts| - 1])
  }

  predicate HasCallIn(content: seq<Block>) {
    exists i :: 0 <= i < |content| && content[i].CallBlock?
  }

  /** The last finish reason decides, and a call anywhere in the answer then means tool use. */
  function StopAfter(mintId: (string, nat) -> string, first: StopReason, chunks: seq<Chunk>): StopReason {
    if chunks == [] then first
    else
      var last := chunks[|chunks| - 1];
      if last.Candidate? && last.finishReason.Some? then
        (if HasCallIn(BuildAll(mintId, AllParts(chunks)).content) then ToolUse else last.finishReason.value)
      else StopAfter(mintId, first, chunks[..|chunks| - 1])
  }

  lemma {:induction false} CallsAreBuilt(mintId: (string, nat) -> string, parts: seq<Part>)
    ensures HasCallIn(BuildAll(mintId, parts).content) <==> SomeCall(parts)
  {
    if parts != [] {
      var init, last := parts[..|parts| - 1], parts[|parts| - 1];
      CallsAreBuilt(mintId, init);
      PartKeepsCalls(mintId, BuildAll(mintId, init), last);
      if SomeCall(init) {
        var i :| 0 <= i < |init| && init[i].call.Some?;
        assert parts[i].call.Some?;
      }
      if SomeCall(parts) && last.call.None? {
        var i :| 0 <= i < |parts| && parts[i].call.Some?;
        assert init[i].call.Some?;
      }
    }
  }

  predicate SomeCall(parts: seq<Part>) {
    exists i :: 0 <= i < |parts| && parts[i].call.Some?
  }

  lemma PartKeepsCalls(mintId: (string, nat) -> string, b: Build, part: Part)
    ensures HasCallIn(PartBuild(mintId, b, part).content) <==> HasCallIn(b.content) || part.call.Some?
  {
    var texted := PartTextBuild(b, part);
    TextKeepsCalls(b, part);
    var after := PartBuild(mintId, b, part);
    if part.call.Some? {
      assert after.content[|texted.content|].CallBlock?;
    }
  }

  lemma TextKeepsCalls(b: Build, part: Part)
    ensures HasCallIn(PartTextBuild(b, part).content) <==> HasCallIn(b.content)
  {
    var after := PartTextBuild(b, part);
    if i :| 0 <= i < |b.content| && b.content[i].CallBlock? {
      assert after.content[i].CallBlock?;
    }
    if i :| 0 <= i < |after.content| && after.content[i].CallBlock? {
      assert i < |b.content| && b.content[i].CallBlock?;
    }
  }

  predicate Finishes(chunk: Chunk) {
    chunk.Candidate? && chunk.finishReason.Some?
  }

  predicate FinishesLast(chunks: seq<Chunk>, k: nat)
    requires k < |chunks|
  {
    Finishes(chunks[k]) && forall j :: k < j < |chunks| ==> !Finishes(chunks[j])
  }

  /** The stop reason of an answer: the first one as long as no chunk finishes; else that of the last
      chunk that does, or tool use when some part up to that chunk is a call. */
  ghost predicate StopFits(first: StopReason, chunks: seq<Chunk>, stop: StopReason) {
    && ((forall k :: 0 <= k < |chunks| ==> !Finishes(chunks[k])) ==> stop == first)
    && forall k :: 0 <= k < |chunks| && FinishesLast(chunks, k) ==> stop == StopAt(chunks, k)
  }

  function StopAt(chunks: seq<Chunk>, k: nat): StopReason
    requires k < |chunks| && Finishes(chunks[k])
  {
    if SomeCall(AllParts(chunks[..k + 1])) then ToolUse else chunks[k].finishReason.value
  }

  lemma {:induction false} StopReasonFits(mintId: (string, nat) -> string, first: StopReason, chunks: seq<Chunk>)
    ensures StopFits(first, chunks, StopAfter(mintId, first, chunks))
  {
    if chunks != [] {
      var init, last := chunks[..|chunks| - 1], chunks[|chunks| - 1];
      if Finishes(last) {
        assert chunks[..|chunks|] == chunks;
        CallsAreBuilt(mintId, AllParts(chunks));
      } else {
        StopReasonFits(mintId, first, init);
        StopStays(first, chunks, StopAfter(mintId, first, init));
      }
    }
  }

  lemma StopStays(first: StopReason, chunks: seq<Chunk>, stop: StopReason)
    requires chunks != [] && !Finishes(chunks[|chunks| - 1]) && StopFits(first, chunks[..|chunks| - 1], stop)
    ensures StopFits(first, chunks, stop)
  {
    var init := chunks[..|chunks| - 1];
    forall k | 0 <= k < |chunks| && FinishesLast(chunks, k)
      ensures stop == StopAt(chunks, k)
    {
      assert init[..k + 1] == chunks[..k + 1] && FinishesLast(init, k);
    }
    if forall k :: 0 <= k < |chunks| ==> !Finishes(chunks[k]) {
      assert forall k :: 0 <= k < |init| ==> init[k] == chunks[k];
    }
  }

  /** The id of a new call: its own if it has one that no call before it has, else one made for its
      name and the next number. */
  lemma CallGetsItsId(mintId: (string, nat) -> string, b: Build, call: FunctionCall, signature: Option<string>)
    ensures var after := CallBuild(mintId, b, call, signature);
            && |after.content| == |b.content| + 1 && after.content[..|b.content|] == b.content
            && after.content[|b.content|].CallBlock?
            && var made := after.content[|b.content|].call;
               if call.id.Some? && call.id.value != ""
                  && forall i :: 0 <= i < |b.content| && b.content[i].CallBlock? ==>
                       b.content[i].call.id != call.id.value
               then made.id == call.id.value && after.counter == b.counter
               else made.id == mintId(call.name, b.counter + 1) && after.counter == b.counter + 1
    ensures CallBuild(mintId, b, call, signature).content[|b.content|].call.thoughtSignature
         == if signature.Some? && signature.value != "" then signature else None
  {
  }

  /** The signature of the block a text goes to: the text's, when it has one that is not empty, else the
      one the block had, and none for a new block. */
  lemma LastSignatureCounts(b: Build, thought: bool, signature: Option<string>, text: string)
    requires Sound(b)
    ensures var after := TextBuild(b, thought, signature, text);
            && after.content != []
            && var block := LastOf(after.content);
               var continued := b.open == if thought then OpenThinking else OpenText;
               var had := if !continued then None
                          else if thought then LastOf(b.content).thinkingSignature else LastOf(b.content).textSignature;
               var expected := if signature.Some? && signature.value != "" then signature else had;
               if thought then block.ThinkingBlock? && block.thinkingSignature == expected
               else block.TextBlock? && block.textSignature == expected
  {
  }

  lemma BuildSnoc(mintId: (string, nat) -> string, parts: seq<Part>, part: Part)
    ensures BuildAll(mintId, parts + [part]) == PartBuild(mintId, BuildAll(mintId, parts), part)
  {
    assert (parts + [part])[..|parts|] == parts;
  }

  /** The open marker fits the last block, and only a call closes text for good. */
  predicate Sound(b: Build) {
    && Coalesced(b.content)
    && match b.open
       case NoBlock => b.content != [] ==> LastOf(b.content).CallBlock?
       case OpenText => b.content != [] && LastOf(b.content).TextBlock?
       case OpenThinking => b.content != [] && LastOf(b.content).ThinkingBlock?
       case OpenCall(_) => false
  }

  lemma TextBuildTokens(b: Build, thought: bool, signature: Option<string>, text: string)
    requires Sound(b)
    ensures var b' := TextBuild(b, thought, signature, text);
            Sound(b') && ContentTokens(b'.content) == ContentTokens(b.content) + TextTokens(text, thought)
  {
    var open := if thought then OpenThinking else OpenText;
    if b.open == open {
      GrowthTokens(b.content, text, signature);
    } else {
      OpeningTokens(b.content, thought);
      GrowthTokens(b.content + [EmptyBlock(thought)], text, signature);
    }
  }

  lemma PartBuildTokens(mintId: (string, nat) -> string, b: Build, part: Part)
    requires Sound(b)
    ensures var b' := PartBuild(mintId, b, part);
            Sound(b') && ContentTokens(b'.content) == ContentTokens(b.content) + PartTokens(part)
  {
    var b' := PartTextBuild(b, part);
    if part.text.Some? {
      TextBuildTokens(b, part.thought, part.signature, part.text.value);
    }
    if part.call.Some? {
      CallingTokens(b'.content, LastOf(PartBuild(mintId, b, part).content).call);
    }
    TokensAssociate(ContentTokens(b.content), TextPartTokens(part), CallTokens(part));
  }

  /** Every character and call of the parts is in the answer, once, in order, in as few blocks as can be. */
  lemma {:induction false} BuildKeepsEverything(mintId: (string, nat) -> string, parts: seq<Part>)
    ensures var b := BuildAll(mintId, parts);
            Sound(b) && ContentTokens(b.content) == PartsTokens(parts)
  {
    if parts != [] {
      var init := parts[..|parts| - 1];
      BuildKeepsEverything(mintId, init);
      PartBuildTokens(mintId, BuildAll(mintId, init), parts[|parts| - 1]);
    }
  }

  lemma TokensGrow(text: string, piece: string, thinking: bool)
    ensures TextTokens(text + piece, thinking) == TextTokens(text, thinking) + TextTokens(piece, thinking)
  {
  }

  lemma BlockGrows(b: Block, piece: string, signature: Option<string>)
    requires !b.CallBlock?
    ensures BlockTokens(Grow(b, piece, signature)) == BlockTokens(b) + TextTokens(piece, b.ThinkingBlock?)
  {
    match b {
      case TextBlock(text, _) => TokensGrow(text, piece, false);
      case ThinkingBlock(text, _, _) => TokensGrow(text, piece, true);
    }
  }

  /** Growing the last text block adds exactly the piece's characters. */
  lemma GrowthTokens(content: seq<Block>, piece: string, signature: Option<string>)
    requires content != [] && !LastOf(content).CallBlock? && Coalesced(content)
    ensures ContentTokens(Grown(content, piece, signature))
         == ContentTokens(content) + TextTokens(piece, LastOf(content).ThinkingBlock?)
    ensures Coalesced(Grown(content, piece, signature))
  {
    var init := content[..|content| - 1];
    var next := Grow(LastOf(content), piece, signature);
    assert Grown(content, piece, signature) == init + [next];
    ContentSnoc(init, next);
    BlockGrows(LastOf(content), piece, signature);
    TokensAssociate(ContentTokens(init), BlockTokens(LastOf(content)),
                    TextTokens(piece, LastOf(content).ThinkingBlock?));
  }

  lemma OpeningTokens(content: seq<Block>, thinking: bool)
    requires Coalesced(content)
    requires content != [] && !LastOf(content).CallBlock? ==> LastOf(content).TextBlock? == thinking
    ensures ContentTokens(content + [EmptyBlock(thinking)]) == ContentTokens(content)
    ensures Coalesced(content + [EmptyBlock(thinking)])
  {
    ContentSnoc(content, EmptyBlock(thinking));
  }

  lemma CallingTokens(content: seq<Block>, call: ToolCall)
    requires Coalesced(content)
    ensures ContentTokens(content + [CallBlock(call)]) == ContentTokens(content) + [Called(call.name, call.arguments)]
    ensures Coalesced(content + [CallBlock(call)])
  {
    ContentSnoc(content, CallBlock(call));
  }

  // What the log checker makes of each event the processor sends.

  lemma StepOpen(codec: ArgumentCodec, content: seq<Block>, thinking: bool, p: Assistant)
    requires p.content == content + [EmptyBlock(thinking)]
    ensures LogStep(codec, Streaming(content, NoBlock), if thinking then ThinkingStart(|content|,
        p) else TextStart(|content|, p))
         == Streaming(p.content, if thinking then OpenThinking else OpenText)
  {
  }

  lemma StepGrow(codec: ArgumentCodec, content: seq<Block>, piece: string, signature: Option<string>, p: Assistant)
    requires content != [] && !LastOf(content).CallBlock? && p.content == Grown(content, piece, signature)
    ensures var i := |content| - 1;
            && (LastOf(content).TextBlock? ==>
                 LogStep(codec, Streaming(content, OpenText), TextDelta(i, piece, p)) == Streaming(p.content, OpenText))
            && (LastOf(content).ThinkingBlock? ==>
                 LogStep(codec, Streaming(content, OpenThinking), ThinkingDelta(i, piece, p))
                 == Streaming(p.content, OpenThinking))
  {
    assert Grown(content, piece, signature)[..|content| - 1] == content[..|content| - 1];
  }

  lemma StepTerminal(codec: ArgumentCodec, output: Assistant)
    ensures LogStep(codec, Streaming(output.content, NoBlock), TerminalFor(output))
         == Over(output.content, NoBlock, TerminalFor(output))
  {
  }

  lemma StepCall(codec: ArgumentCodec, content: seq<Block>, call: ToolCall, p: Assistant)
    requires p.content == content + [CallBlock(call)] && Faithful(codec)
    ensures var i := |content|;
            var json := codec.serialize(call.arguments);
            && LogStep(codec, Streaming(content, NoBlock), CallStart(i, p)) == Streaming(p.content, OpenCall(""))
            && LogStep(codec, Streaming(p.content, OpenCall("")), CallDelta(i, json, p))
            == Streaming(p.content, OpenCall(json))
            && LogStep(codec, Streaming(p.content, OpenCall(json)), CallEnd(i, call, p))
               == Streaming(p.content, NoBlock)
  {
    assert "" + codec.serialize(call.arguments) == codec.serialize(call.arguments);
  }

  class GoogleStreamProcessor {
    const codec: ArgumentCodec
    const sender: EventSender
    const mintId: (string, nat) -> string

    var started: bool
    var active: Option<ActiveBlock>
    var counter: nat
    var output: Assistant

    /** The parts processed so far, and the states the log has passed through. */
    ghost var parts: seq<Part>
    ghost var states: seq<LogState>

    function OpenKind(): OpenBlock
      reads this
    {
      match active
      case None => NoBlock
      case Some(ActiveText(_)) => OpenText
      case Some(ActiveThinking(_)) => OpenThinking
    }

    /** The active block is the last one and has its kind. */
    ghost predicate ActiveFits()
      reads this
    {
      active.Some? ==>
        && output.content != [] && active.value.index == |output.content| - 1
        && (active.value.ActiveText? ==> LastOf(output.content).TextBlock?)
        && (active.value.ActiveThinking? ==> LastOf(output.content).ThinkingBlock?)
    }

    /** The log is well formed and stands where the answer stands. */
    ghost predicate Logged()
      reads this, sender
    {
      && sender.Valid() && !sender.done && ActiveFits()
      && PassesThrough(codec, sender.delivered, states)
      && states[|states| - 1] == (if started then Streaming(output.content, OpenKind()) else Unstarted)
      && (!started ==> output.content == [] && active.None?)
    }

    ghost function Now(): Build
      reads this
    {
      Build(output.content, OpenKind(), counter)
    }

    /** The answer is what the parts build. */
    ghost predicate Built()
      reads this
    {
      Now() == BuildAll(mintId, parts)
    }

    /** Between parts. */
    ghost predicate Ready()
      reads this, sender
    {
      started && Logged() && Built()
    }

    constructor (codec: ArgumentCodec, sender: EventSender, output: Assistant, mintId: (string, nat) -> string)
      requires sender.Valid() && !sender.done && sender.delivered == [] && output.content == []
      ensures this.codec == codec && this.sender == sender && this.output == output && parts == []
      ensures Logged() && Built() && this.mintId == mintId
    {
      this.codec, this.sender, this.output, this.mintId := codec, sender, output, mintId;
      started, active, counter, parts, states := false, None, 0, [], [Unstarted];
    }

    method Push(e: AssistantEvent, ghost next: LogState)
      requires sender.Valid() && !sender.done
      requires PassesThrough(codec, sender.delivered, states)
      requires LogStep(codec, states[|states| - 1], e) == next
      modifies this`states, sender
      ensures sender.Valid() && sender.done == IsTerminal(e)
      ensures PassesThrough(codec, sender.delivered, states) && states[|states| - 1] == next
      ensures IsTerminal(e) ==> sender.result == Some(e.final)
    {
      PassSnoc(codec, sender.delivered, states, e, next);
      states := states + [next];
      sender.Push(e);
    }

    method EnsureStarted()
      requires Logged()
      modifies this`started, this`states, sender
      ensures Logged() && started
    {
      if !started {
        started := true;
        Push(Start(output), Streaming([], NoBlock));
      }
    }

    method FinishActiveBlock()
      requires Logged() && started
      modifies this`active, this`states, sender
      ensures Logged() && active.None?
    {
      if active.None? {
        return;
      }
      var block := active.value;
      active := None;
      match block {
        case ActiveText(index) =>
          Push(TextEnd(index, output.content[index].text, output), Streaming(output.content, NoBlock));
        case ActiveThinking(index) =>
          Push(ThinkingEnd(index, output.content[index].thinking, output), Streaming(output.content, NoBlock));
      }
    }

    method Append(block: Block)
      modifies this`output
      ensures output == old(output).(content := old(output).content + [block])
    {
      output := output.(content := output.content + [block]);
    }

    /** Close the active block and open an empty one of the given kind. */
    method OpenTextBlock(thinking: bool)
      requires Logged() && started
      modifies this`active, this`output, this`states, sender
      ensures Logged() && active.Some? && active.value.ActiveThinking? == thinking
      ensures output == old(output).(content := old(output.content) + [EmptyBlock(thinking)])
    {
      FinishActiveBlock();
      var index := |output.content|;
      ghost var content := output.content;
      Append(EmptyBlock(thinking));
      StepOpen(codec, content, thinking, output);
      if thinking {
        active := Some(ActiveThinking(index));
        Push(ThinkingStart(index, output), Streaming(output.content, OpenThinking));
      } else {
        active := Some(ActiveText(index));
        Push(TextStart(index, output), Streaming(output.content, OpenText));
      }
    }

    method GrowActive(text: string, signature: Option<string>)
      requires Logged() && started && active.Some?
      modifies this`output, this`states, sender
      ensures Logged() && old(output.content) != []
      ensures output == old(output).(content := Grown(old(output.content), text, signature))
    {
      var index := active.value.index;
      var next := output.(content := output.content[index := Grow(output.content[index], text, signature)]);
      StepGrow(codec, output.content, text, signature, next);
      output := next;
      if active.value.ActiveThinking? {
        Push(ThinkingDelta(index, text, output), Streaming(output.content, OpenThinking));
      } else {
        Push(TextDelta(index, text, output), Streaming(output.content, OpenText));
      }
    }

    /** A text part goes to the active block if it has its kind, else to a new one. */
    method ProcessTextPart(thought: bool, signature: Option<string>, text: string)
      requires Logged() && started
      modifies this`active, this`output, this`states, sender
      ensures Logged() && Now() == TextBuild(old(Now()), thought, signature, text)
      ensures output == old(output).(content := output.content)
    {
      var needsNewBlock := !(active.Some? && active.value.ActiveThinking? == thought);
      if needsNewBlock {
        OpenTextBlock(thought);
      }
      GrowActive(text, signature);
    }

    method ChooseId(call: FunctionCall) returns (id: string)
      modifies this`counter
      ensures id == if OwnIdUsable(output.content, call) then call.id.value else mintId(call.name, counter)
      ensures counter == old(counter) + if OwnIdUsable(output.content, call) then 0 else 1
    {
      if OwnIdUsable(output.content, call) {
        return call.id.value;
      }
      counter := counter + 1;
      id := mintId(call.name, counter);
    }

    method ProcessFunctionCall(call: FunctionCall, signature: Option<string>)
      requires Logged() && started && active.None? && Faithful(codec)
      modifies this`output, this`counter, this`states, sender
      ensures Logged() && Now() == CallBuild(mintId, old(Now()), call, signature)
      ensures output == old(output).(content := output.content)
    {
      var id := ChooseId(call);
      var toolCall := ToolCall(id, call.name, call.args, if signature == Some("") then None else signature);
      var index := |output.content|;
      ghost var content := output.content;
      Append(CallBlock(toolCall));
      var delta := codec.serialize(toolCall.arguments);
      StepCall(codec, content, toolCall, output);
      Push(CallStart(index, output), Streaming(output.content, OpenCall("")));
      Push(CallDelta(index, delta, output), Streaming(output.content, OpenCall(delta)));
      Push(CallEnd(index, toolCall, output), Streaming(output.content, NoBlock));
    }

    /** A call closes the active block first. */
    method ProcessCallPart(call: FunctionCall, signature: Option<string>)
      requires Logged() && started && Faithful(codec)
      modifies this`active, this`output, this`counter, this`states, sender
      ensures Logged() && Now() == CallBuild(mintId, old(Now()), call, signature)
      ensures output == old(output).(content := output.content)
    {
      FinishActiveBlock();
      ProcessFunctionCall(call, signature);
    }

    method ProcessPart(part: Part)
      requires Ready() && Faithful(codec)
      modifies this`active, this`output, this`counter, this`parts, this`states, sender
      ensures Ready() && parts == old(parts) + [part]
      ensures output == old(output).(content := output.content)
    {
      BuildSnoc(mintId, parts, part);
      if part.text.Some? {
        ProcessTextPart(part.thought, part.signature, part.text.value);
      }
      if part.call.Some? {
        ProcessCallPart(part.call.value, part.signature);
      }
      parts := parts + [part];
    }

    predicate HasCall()
      reads this`output
    {
      HasCallIn(output.content)
    }

    method ProcessParts(parts: seq<Part>)
      requires Ready() && Faithful(codec)
      modifies this`active, this`output, this`counter, this`parts, this`states, sender
      ensures Ready() && this.parts == old(this.parts) + parts
      ensures output == old(output).(content := output.content)
    {
      ghost var before := this.parts;
      assert before + parts[..0] == before;
      for i := 0 to |parts|
        invariant Ready() && output == old(output).(content := output.content)
        invariant this.parts == before + parts[..i]
      {
        TakeOneMore(before, parts, i);
        ProcessPart(parts[i]);
      }
      assert parts[..|parts|] == parts;
    }

    /** A call anywhere in the answer means the turn stopped to use tools. */
    method ApplyFinishReason(reason: StopReason)
      modifies this`output
      ensures output == old(output).(stopReason := if HasCall() then ToolUse else reason)
    {
      output := output.(stopReason := reason);
      if HasCall() {
        output := output.(stopReason := ToolUse);
      }
    }

    /** The stop reason a chunk leaves. */
    function StopWith(chunk: Chunk, before: StopReason): StopReason
      reads this`output
    {
      if chunk.Candidate? && chunk.finishReason.Some? then (if HasCall() then ToolUse else chunk.finishReason.value)
      else before
    }

    method ProcessChunk(chunk: Chunk)
      requires Logged() && Built() && Faithful(codec)
      modifies this, sender
      ensures Ready() && parts == old(parts) + ChunkParts(chunk)
      ensures output == old(output).(content := output.content, stopReason := StopWith(chunk, old(output.stopReason)))
    {
      EnsureStarted();
      assert parts + [] == parts;
      if !chunk.Candidate? {
        return;
      }
      ProcessCandidate(chunk.parts, chunk.finishReason);
    }

    method ProcessCandidate(parts: seq<Part>, finishReason: Option<StopReason>)
      requires Ready() && Faithful(codec)
      modifies this`active, this`output, this`counter, this`parts, this`states, sender
      ensures Ready() && this.parts == old(this.parts) + parts
      ensures output == old(output).(content := output.content,
                                     stopReason := StopWith(Candidate(parts, finishReason), old(output.stopReason)))
    {
      ProcessParts(parts);
      if finishReason.Some? {
        ApplyFinishReason(finishReason.value);
      }
    }

    method CloseBlocks()
      requires Logged()
      modifies this, sender
      ensures Logged() && started && active.None? && output == old(output)
    {
      EnsureStarted();
      FinishActiveBlock();
    }

    /** Close what is open and report how it went. */
    method Close() returns (r: Result<()>)
      requires Logged()
      modifies this, sender
      ensures sender.Valid() && sender.done && output == Finished(old(output)) && sender.result == Some(output)
      ensures PassesThrough(codec, sender.delivered, states)
      ensures states[|states| - 1] == Over(output.content, NoBlock, TerminalFor(output))
      ensures r.Success? <==> !output.stopReason.Error?
    {
      CloseBlocks();
      if output.stopReason.Error? {
        output := output.(errorMessage := Some("An unknown error occurred"));
        r := Failure("An unknown error occurred");
      } else {
        r := Success(());
      }
      StepTerminal(codec, output);
      Push(TerminalFor(output), Over(output.content, NoBlock, TerminalFor(output)));
    }

    /** The log ends well formed, with every block closed and the whole answer in its terminal event. */
    method Finish() returns (r: Result<()>)
      requires Logged()
      modifies this, sender
      ensures sender.Valid() && sender.done && output == Finished(old(output)) && sender.result == Some(output)
      ensures LogOf(codec, sender.delivered) == Over(output.content, NoBlock, TerminalFor(output))
      ensures r.Success? <==> !output.stopReason.Error?
    {
      r := Close();
      PassEndsWhereItStands(codec, sender.delivered, states);
    }
  }

  /** The answer as it is reported: an error stop carries a message. */
  function Finished(output: Assistant): Assistant {
    if output.stopReason.Error? then output.(errorMessage := Some("An unknown error occurred")) else output
  }

  function TerminalFor(output: Assistant): AssistantEvent {
    if output.stopReason.Error? then Failed(output.stopReason, output) else Done(output.stopReason, output)
  }

  lemma ChunkSnoc(mintId: (string, nat) -> string, first: StopReason, chunks: seq<Chunk>, i: nat)
    requires i < |chunks|
    ensures AllParts(chunks[..i + 1]) == AllParts(chunks[..i]) + ChunkParts(chunks[i])
    ensures StopAfter(mintId, first, chunks[..i + 1]) ==
            if chunks[i].Candidate? && chunks[i].finishReason.Some? then
              (if HasCallIn(BuildAll(mintId, AllParts(chunks[..i + 1])).content) then ToolUse
               else chunks[i].finishReason.value)
            else StopAfter(mintId, first, chunks[..i])
  {
    assert chunks[..i + 1][..i] == chunks[..i] && chunks[..i + 1][i] == chunks[i];
  }

  /** The client's answer is the server's, up to tool thought signatures. */
  predicate ClientAgrees(codec: ArgumentCodec, now: int, client: ClientState, log: seq<AssistantEvent>,
                         output: Assistant) {
    match Replay(codec, now, client, StripAll(log))
    case Failure(_) => false
    case Success((c, terminal)) =>
      && terminal && c.partial.content == EraseAll(output.content) && c.partial.stopReason == output.stopReason
      && StripAll(c.sent) == StripAll(log)
  }

  lemma FinishedLogIsRebuilt(codec: ArgumentCodec, now: int, client: ClientState, log: seq<AssistantEvent>,
                             output: Assistant)
    requires Faithful(codec) && LogOf(codec, log) == Over(output.content, NoBlock, TerminalFor(output))
    requires client.partial.content == [] && client.json == map[] && client.sent == []
    ensures ClientAgrees(codec, now, client, log, output)
  {
    ClientRebuildsTheAnswer(codec, now, log, client);
    ClosedMirror(codec, output.content);
  }

  /** All chunks of a stream: whatever they are and however the parts fall into chunks, the answer
      holds every character and every call of the parts, in order, in as few blocks as can be; the
      log is well formed and ends with that answer; and a client fed the log's wire form ends up
      with the same answer. */
  method ProcessStreamChunks(codec: ArgumentCodec, sender: EventSender, output: Assistant,
                             mintId: (string, nat) -> string, chunks: seq<Chunk>,
                             ghost now: int, ghost client: ClientState)
    returns (final: Assistant, r: Result<()>)
    requires sender.Valid() && !sender.done && sender.delivered == [] && output.content == [] && Faithful(codec)
    requires client.partial.content == [] && client.json == map[] && client.sent == []
    modifies sender
    ensures ContentTokens(final.content) == PartsTokens(AllParts(chunks)) && Coalesced(final.content)
    ensures final == Finished(output.(content := BuildAll(mintId, AllParts(chunks)).content,
                                      stopReason := StopAfter(mintId, output.stopReason, chunks)))
    ensures StopFits(output.stopReason, chunks, final.stopReason)
    ensures LogOf(codec, sender.delivered) == Over(final.content, NoBlock, TerminalFor(final))
    ensures sender.done && sender.result == Some(final) && (r.Success? <==> !final.stopReason.Error?)
    ensures ReportsEnd(sender.delivered, final, final.stopReason.Error?)
    ensures final.errorMessage == if final.stopReason.Error? then Some("An unknown error occurred")
                                  else output.errorMessage
    ensures ClientAgrees(codec, now, client, sender.delivered, final)
  {
    var processor := new GoogleStreamProcessor(codec, sender, output, mintId);
    for i := 0 to |chunks|
      invariant processor.sender == sender && processor.codec == codec && processor.mintId == mintId && fresh(processor)
      invariant processor.Logged() && processor.Built()
      invariant processor.parts == AllParts(chunks[..i])
      invariant processor.output == output.(content := processor.output.content,
                                            stopReason := StopAfter(mintId, output.stopReason, chunks[..i]))
    {
      ChunkSnoc(mintId, output.stopReason, chunks, i);
      processor.ProcessChunk(chunks[i]);
    }
    assert chunks[..|chunks|] == chunks;
    BuildKeepsEverything(mintId, AllParts(chunks));
    StopReasonFits(mintId, output.stopReason, chunks);
    r := processor.Finish();
    final := processor.output;
    OverEndsWithTerminal(codec, sender.delivered);
    FinishedLogIsRebuilt(codec, now, client, sender.delivered, final);
  }
}
