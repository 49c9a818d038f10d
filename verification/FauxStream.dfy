/** The faux provider: a fixed answer, streamed in pieces, that can be aborted before and after the
    wait for every piece.

    When the abort flag is seen is a script; pacing and usage estimates are left out. */
module FauxStream {
  import opened Wrappers
  import opened Messages
  import opened AssistantStream

  function Concat(chunks: seq<string>): string {
    if chunks == [] then "" else Concat(chunks[..|chunks| - 1]) + chunks[|chunks| - 1]
  }

  lemma ConcatSnoc(chunks: seq<string>, chunk: string)
    ensures Concat(chunks + [chunk]) == Concat(chunks) + chunk
  {
    assert (chunks + [chunk])[..|chunks|] == chunks;
  }

  function ChunkSize(minTokens: nat, maxTokens: nat): (size: nat)
    ensures size >= 4 && size >= 4 * minTokens && size >= 4 * maxTokens
    ensures size == 4 || size == 4 * minTokens || size == 4 * maxTokens
  {
    var tokens := if minTokens > maxTokens then minTokens else maxTokens;
    (if tokens > 1 then tokens else 1) * 4
  }

  /** Every chunk but the last has exactly the size; the last is not longer. */
  predicate Bounded(chunks: seq<string>, size: nat) {
    forall i :: 0 <= i < |chunks| ==> |chunks[i]| <= size && (i + 1 < |chunks| ==> |chunks[i]| == size)
  }

  method ChunksForText(text: string, minTokens: nat, maxTokens: nat) returns (chunks: seq<string>)
    ensures Concat(chunks) == text && Bounded(chunks, ChunkSize(minTokens, maxTokens))
    ensures text == "" ==> chunks == [""]
    ensures text != "" ==> forall i :: 0 <= i < |chunks| ==> chunks[i] != ""
  {
    if text == "" {
      return [""];
    }
    var size := ChunkSize(minTokens, maxTokens);
    chunks := [];
    var current := "";
    for i := 0 to |text|
      invariant Concat(chunks) + current == text[..i]
      invariant |current| < size
      invariant forall k :: 0 <= k < |chunks| ==> |chunks[k]| == size
    {
      current := current + [text[i]];
      assert Concat(chunks) + current == text[..i + 1] by {
        assert text[..i + 1] == text[..i] + [text[i]];
      }
      if |current| >= size {
        ConcatSnoc(chunks, current);
        chunks := chunks + [current];
        current := "";
      }
    }
    assert text[..|text|] == text;
    if current != "" {
      ConcatSnoc(chunks, current);
      chunks := chunks + [current];
    } else {
      assert Concat(chunks) + "" == Concat(chunks);
    }
  }

  // ---------------------------------------------------------------------
  // What is delivered.

  /** What a stream's snapshots hold of a finished block: no text signatures. */
  function Bare(b: Block): Block {
    match b
    case TextBlock(text, _) => TextBlock(text, None)
    case ThinkingBlock(text, _, _) => ThinkingBlock(text, None, false)
    case CallBlock(_) => b
  }

  function BareAll(content: seq<Block>): (r: seq<Block>)
    ensures |r| == |content|
  {
    seq(|content|, i requires 0 <= i < |content| => Bare(content[i]))
  }

  /** The beginning of a block: part of its text, or a call whose arguments are not there yet. */
  /** The same texts, thoughts and calls, without the signatures of the texts and thoughts. */
  predicate Unsigned(streamed: seq<Block>, content: seq<Block>) {
    |streamed| == |content|
    && forall i :: 0 <= i < |content| ==>
         match content[i]
         case TextBlock(text, _) => streamed[i] == TextBlock(text, None)
         case ThinkingBlock(thinking, _, _) => streamed[i] == ThinkingBlock(thinking, None, false)
         case CallBlock(call) => streamed[i] == CallBlock(call)
  }

  predicate BeginningOf(codec: ArgumentCodec, part: Block, full: Block) {
    match full
    case TextBlock(text, _) => part.TextBlock? && part.text <= text && part.textSignature.None?
    case ThinkingBlock(text, _, _) => part.ThinkingBlock? && part.thinking <= text && part.thinkingSignature.None?
    case CallBlock(call) =>
      part.CallBlock? && part.call == call.(arguments := part.call.arguments)
      && part.call.arguments in {codec.empty, call.arguments}
  }

  /** Block-wise prefix: finished blocks, then at most one that is cut short. */
  predicate PrefixOf(codec: ArgumentCodec, content: seq<Block>, full: seq<Block>) {
    |content| <= |full|
    && (content == BareAll(full[..|content|])
        || (content != [] && content[..|content| - 1] == BareAll(full[..|content| - 1])
            && BeginningOf(codec, content[|content| - 1], full[|content| - 1])))
  }

  function AbortMessage(partial: Assistant, now: int): Assistant {
    partial.(stopReason := Aborted, errorMessage := Some("Request was aborted"), timestamp := now)
  }

  function PieceBlock(thinking: bool, text: string): Block {
    if thinking then ThinkingBlock(text, None, false) else TextBlock(text, None)
  }

  function PieceOpen(thinking: bool): OpenBlock {
    if thinking then OpenThinking else OpenText
  }

  function PieceStart(thinking: bool, index: nat, p: Assistant): AssistantEvent {
    if thinking then ThinkingStart(index, p) else TextStart(index, p)
  }

  function PieceDelta(thinking: bool, index: nat, delta: string, p: Assistant): AssistantEvent {
    if thinking then ThinkingDelta(index, delta, p) else TextDelta(index, delta, p)
  }

  function PieceEnd(thinking: bool, index: nat, text: string, p: Assistant): AssistantEvent {
    if thinking then ThinkingEnd(index, text, p) else TextEnd(index, text, p)
  }

  lemma StepPieceStart(codec: ArgumentCodec, thinking: bool, done: seq<Block>, p: Assistant)
    requires p.content == done + [PieceBlock(thinking, "")]
    ensures LogStep(codec, Streaming(done, NoBlock), PieceStart(thinking, |done|, p))
         == Streaming(p.content, PieceOpen(thinking))
  {
  }

  lemma StepPieceDelta(codec: ArgumentCodec, thinking: bool, done: seq<Block>, had: string, piece: string, p: Assistant)
    requires p.content == done + [PieceBlock(thinking, had + piece)]
    ensures LogStep(codec, Streaming(done + [PieceBlock(thinking, had)], PieceOpen(thinking)),
                    PieceDelta(thinking, |done|, piece, p))
         == Streaming(p.content, PieceOpen(thinking))
  {
    var before := done + [PieceBlock(thinking, had)];
    assert before[..|done|] == done && p.content[..|done|] == done;
  }

  lemma StepPieceEnd(codec: ArgumentCodec, thinking: bool, done: seq<Block>, text: string, p: Assistant)
    requires p.content == done + [PieceBlock(thinking, text)]
    ensures LogStep(codec, Streaming(p.content, PieceOpen(thinking)), PieceEnd(thinking, |done|, text, p))
         == Streaming(p.content, NoBlock)
  {
  }

  lemma StepCallStart(codec: ArgumentCodec, done: seq<Block>, call: ToolCall, p: Assistant)
    requires p.content == done + [CallBlock(call)]
    ensures LogStep(codec, Streaming(done, NoBlock), CallStart(|done|, p)) == Streaming(p.content, OpenCall(""))
  {
  }

  lemma StepCallDelta(codec: ArgumentCodec, done: seq<Block>, call: ToolCall, json: string, piece: string, p: Assistant)
    requires p.content == done + [CallBlock(call)]
    ensures LogStep(codec, Streaming(p.content, OpenCall(json)), CallDelta(|done|, piece, p))
         == Streaming(p.content, OpenCall(json + piece))
  {
  }

  lemma StepCallEnd(codec: ArgumentCodec, done: seq<Block>, had: ToolCall, json: string, call: ToolCall, p: Assistant)
    requires p.content == done + [CallBlock(call)] && had.id == call.id && had.name == call.name
    requires codec.parse(json) == call.arguments
    ensures LogStep(codec, Streaming(done + [CallBlock(had)], OpenCall(json)), CallEnd(|done|, call, p))
         == Streaming(p.content, NoBlock)
  {
    var before := done + [CallBlock(had)];
    assert before[..|done|] == done && p.content[..|done|] == done;
  }

  lemma ConcatTake(chunks: seq<string>, i: nat)
    requires i < |chunks|
    ensures Concat(chunks[..i + 1]) == Concat(chunks[..i]) + chunks[i]
  {
    assert chunks[..i + 1] == chunks[..i] + [chunks[i]];
    ConcatSnoc(chunks[..i], chunks[i]);
  }

  lemma ConcatPrefix(chunks: seq<string>, i: nat)
    requires i <= |chunks|
    ensures Concat(chunks[..i]) <= Concat(chunks)
    decreases |chunks|
  {
    if i == |chunks| {
      assert chunks[..i] == chunks;
    } else {
      ConcatPrefix(chunks[..|chunks| - 1], i);
      assert chunks[..|chunks| - 1][..i] == chunks[..i];
    }
  }

  class FauxStreamer {
    const codec: ArgumentCodec
    const sender: EventSender
    const message: Assistant
    const minTokens: nat
    const maxTokens: nat
    const now: int
    /** Whether the abort flag is set at the n-th check. */
    const flag: nat -> bool

    var partial: Assistant
    var checks: nat
    ghost var states: seq<LogState>

    constructor (codec: ArgumentCodec, sender: EventSender, message: Assistant, minTokens: nat, maxTokens: nat,
                 now: int, flag: nat -> bool)
      requires sender.Valid() && !sender.done && sender.delivered == []
      ensures this.codec == codec && this.sender == sender && this.message == message && this.flag == flag
      ensures this.now == now && partial == message.(content := []) && checks == 0
      ensures At(Unstarted)
    {
      this.codec, this.sender, this.message, this.flag, this.now := codec, sender, message, flag, now;
      this.minTokens, this.maxTokens := minTokens, maxTokens;
      partial, checks, states := message.(content := []), 0, [Unstarted];
    }

    /** The log is well formed, not over, and stands at the given state. */
    ghost predicate At(s: LogState)
      reads this, sender
    {
      && sender.Valid() && !sender.done
      && PassesThrough(codec, sender.delivered, states) && states[|states| - 1] == s
    }

    ghost predicate Quiet(to: nat) {
      forall n: nat | n < to :: !flag(n)
    }

    /** The answer so far keeps everything of the message but its content, and no check has seen the
        flag set. */
    ghost predicate SameFrame()
      reads this
    {
      partial == message.(content := partial.content) && Quiet(checks)
    }

    /** The stream was aborted: its last event says so and carries the answer so far, and nothing
        else ends it. */
    ghost predicate AbortedHere()
      reads this, sender
    {
      var last := Failed(Aborted, partial.(stopReason := Aborted, errorMessage := Some("Request was aborted"),
                                           timestamp := now));
      && sender.Valid() && sender.done && sender.result == Some(last.final)
      && sender.delivered != [] && sender.delivered[|sender.delivered| - 1] == last
      && LogOf(codec, sender.delivered) != BadLog
      && PrefixOf(codec, partial.content, message.content)
      && partial == message.(content := partial.content)
      && checks > 0 && flag(checks - 1) && Quiet(checks - 1)
    }

    method Push(e: AssistantEvent, ghost next: LogState)
      requires sender.Valid() && !sender.done
      requires PassesThrough(codec, sender.delivered, states)
      requires LogStep(codec, states[|states| - 1], e) == next
      modifies this`states, sender
      ensures sender.Valid() && sender.done == IsTerminal(e)
      ensures PassesThrough(codec, sender.delivered, states) && states[|states| - 1] == next
      ensures sender.delivered == old(sender.delivered) + [e]
      ensures IsTerminal(e) ==> sender.result == Some(e.final)
    {
      PassSnoc(codec, sender.delivered, states, e, next);
      states := states + [next];
      sender.Push(e);
    }

    method PushAbort(ghost s: LogState)
      requires At(s) && (s.Streaming? || s.Unstarted?) && partial == message.(content := partial.content)
      requires PrefixOf(codec, partial.content, message.content)
      requires checks > 0 && flag(checks - 1) && Quiet(checks - 1)
      modifies this`states, sender
      ensures AbortedHere()
    {
      var error := AbortMessage(partial, now);
      ghost var next := if s.Streaming? then Over(s.content, s.open, Failed(Aborted, error))
                        else Over([], NoBlock, Failed(Aborted, error));
      Push(Failed(Aborted, error), next);
      sender.End(error);
      PassEndsWhereItStands(codec, sender.delivered, states);
    }

    method PushAbortIfRequested(ghost s: LogState) returns (aborted: bool)
      requires At(s) && (s.Streaming? || s.Unstarted?) && SameFrame()
      requires PrefixOf(codec, partial.content, message.content)
      modifies this`checks, this`states, sender
      ensures aborted ==> AbortedHere()
      ensures !aborted ==> At(s) && SameFrame()
      ensures checks == old(checks) + 1
    {
      checks := checks + 1;
      aborted := flag(checks - 1);
      if aborted {
        PushAbort(s);
      }
    }

    /** The two checks around the wait for one piece. */
    method AwaitPiece(ghost s: LogState) returns (aborted: bool)
      requires At(s) && s.Streaming? && SameFrame()
      requires PrefixOf(codec, partial.content, message.content)
      modifies this`checks, this`states, sender
      ensures aborted ==> AbortedHere()
      ensures !aborted ==> At(s) && SameFrame() && checks == old(checks) + 2
    {
      aborted := PushAbortIfRequested(s);
      if aborted {
        return;
      }
      aborted := PushAbortIfRequested(s);
    }

    method SetContent(content: seq<Block>)
      requires SameFrame()
      modifies this`partial
      ensures SameFrame() && partial.content == content
    {
      partial := partial.(content := content);
    }

    /** The first `index` blocks are delivered in full and nothing is open. */
    ghost predicate Delivered(index: nat)
      reads this, sender
    {
      && index <= |message.content| && SameFrame()
      && partial.content == BareAll(message.content[..index])
      && At(Streaming(partial.content, NoBlock))
    }

    /** The block after the delivered ones holds part of its text. */
    ghost predicate InPieces(index: nat, thinking: bool, had: string)
      reads this, sender
    {
      && index < |message.content| && SameFrame()
      && partial.content == BareAll(message.content[..index]) + [PieceBlock(thinking, had)]
      && At(Streaming(partial.content, PieceOpen(thinking)))
    }

    ghost predicate InCall(index: nat, bare: ToolCall, json: string)
      reads this, sender
    {
      && index < |message.content| && SameFrame()
      && partial.content == BareAll(message.content[..index]) + [CallBlock(bare)]
      && At(Streaming(partial.content, OpenCall(json)))
    }

    method OpenPieces(index: nat, thinking: bool)
      requires Delivered(index) && index < |message.content|
      modifies this`partial, this`states, sender
      ensures InPieces(index, thinking, "")
    {
      ghost var done := partial.content;
      SetContent(partial.content + [PieceBlock(thinking, "")]);
      StepPieceStart(codec, thinking, done, partial);
      Push(PieceStart(thinking, index, partial), Streaming(partial.content, PieceOpen(thinking)));
    }

    method StreamPiece(index: nat, thinking: bool, ghost text: string, ghost had: string, chunk: string)
      returns (aborted: bool)
      requires InPieces(index, thinking, had) && Bare(message.content[index]) == PieceBlock(thinking,
          text) && had <= text
      modifies this`partial, this`checks, this`states, sender
      ensures aborted ==> AbortedHere()
      ensures !aborted ==> InPieces(index, thinking, had + chunk)
    {
      CutInBlock(codec, message.content, index, partial.content, PieceBlock(thinking, had));
      aborted := AwaitPiece(Streaming(partial.content, PieceOpen(thinking)));
      if aborted {
        return;
      }
      GrowPiece(index, thinking, BareAll(message.content[..index]), had, chunk);
    }

    method ClosePieces(index: nat, thinking: bool, text: string)
      requires InPieces(index, thinking, text) && Bare(message.content[index]) == PieceBlock(thinking, text)
      modifies this`states, sender
      ensures Delivered(index + 1)
    {
      StepPieceEnd(codec, thinking, BareAll(message.content[..index]), text, partial);
      Push(PieceEnd(thinking, index, text, partial), Streaming(partial.content, NoBlock));
      BareSnoc(message.content, index);
    }

    /** One text or thinking block, piece by piece. */
    method StreamPieces(index: nat, thinking: bool, text: string) returns (aborted: bool)
      requires Delivered(index) && index < |message.content| && Bare(message.content[index]) == PieceBlock(thinking,
          text)
      modifies this`partial, this`checks, this`states, sender
      ensures aborted ==> AbortedHere()
      ensures !aborted ==> Delivered(index + 1)
    {
      OpenPieces(index, thinking);
      var chunks := ChunksForText(text, minTokens, maxTokens);
      for i := 0 to |chunks|
        invariant InPieces(index, thinking, Concat(chunks[..i]))
      {
        ConcatPrefix(chunks, i);
        ConcatTake(chunks, i);
        aborted := StreamPiece(index, thinking, text, Concat(chunks[..i]), chunks[i]);
        if aborted {
          return;
        }
      }
      assert chunks[..|chunks|] == chunks;
      ClosePieces(index, thinking, text);
      aborted := false;
    }

    method GrowPiece(index: nat, thinking: bool, ghost done: seq<Block>, ghost had: string, chunk: string)
      requires SameFrame() && |done| == index && partial.content == done + [PieceBlock(thinking, had)]
      requires At(Streaming(partial.content, PieceOpen(thinking)))
      modifies this`partial, this`states, sender
      ensures SameFrame() && partial.content == done + [PieceBlock(thinking, had + chunk)]
      ensures At(Streaming(partial.content, PieceOpen(thinking)))
    {
      var block := partial.content[index];
      var next := if thinking then block.(thinking := block.thinking + chunk) else block.(text := block.text + chunk);
      SetContent(partial.content[index := next]);
      assert partial.content == done + [PieceBlock(thinking, had + chunk)];
      StepPieceDelta(codec, thinking, done, had, chunk, partial);
      Push(PieceDelta(thinking, index, chunk, partial), Streaming(partial.content, PieceOpen(thinking)));
    }

    method OpenCallBlock(index: nat, bare: ToolCall)
      requires Delivered(index) && index < |message.content|
      modifies this`partial, this`states, sender
      ensures InCall(index, bare, "")
    {
      ghost var done := partial.content;
      SetContent(partial.content + [CallBlock(bare)]);
      StepCallStart(codec, done, bare, partial);
      Push(CallStart(index, partial), Streaming(partial.content, OpenCall("")));
    }

    method StreamCallPiece(index: nat, ghost bare: ToolCall, ghost had: string, chunk: string)
      returns (aborted: bool)
      requires InCall(index, bare, had) && BeginningOf(codec, CallBlock(bare), message.content[index])
      modifies this`checks, this`states, sender
      ensures aborted ==> AbortedHere()
      ensures !aborted ==> InCall(index, bare, had + chunk)
    {
      CutInBlock(codec, message.content, index, partial.content, CallBlock(bare));
      aborted := AwaitPiece(Streaming(partial.content, OpenCall(had)));
      if aborted {
        return;
      }
      StepCallDelta(codec, BareAll(message.content[..index]), bare, had, chunk, partial);
      Push(CallDelta(index, chunk, partial), Streaming(partial.content, OpenCall(had + chunk)));
    }

    method CloseCallBlock(index: nat, ghost bare: ToolCall, ghost json: string, call: ToolCall)
      requires InCall(index, bare, json) && message.content[index] == CallBlock(call)
      requires bare.id == call.id && bare.name == call.name && codec.parse(json) == call.arguments
      modifies this`partial, this`states, sender
      ensures Delivered(index + 1)
    {
      ghost var done := BareAll(message.content[..index]);
      SetContent(partial.content[index := CallBlock(call)]);
      assert partial.content == done + [CallBlock(call)];
      StepCallEnd(codec, done, bare, json, call, partial);
      Push(CallEnd(index, call, partial), Streaming(partial.content, NoBlock));
      BareSnoc(message.content, index);
    }

    /** One tool call: its argument text piece by piece, the arguments themselves at the end. */
    method StreamCall(index: nat, call: ToolCall) returns (aborted: bool)
      requires Delivered(index) && index < |message.content| && message.content[index] == CallBlock(call)
      requires Faithful(codec)
      modifies this`partial, this`checks, this`states, sender
      ensures aborted ==> AbortedHere()
      ensures !aborted ==> Delivered(index + 1)
    {
      var bare := call.(arguments := codec.empty);
      OpenCallBlock(index, bare);
      var arguments := codec.serialize(call.arguments);
      var chunks := ChunksForText(arguments, minTokens, maxTokens);
      for i := 0 to |chunks|
        invariant InCall(index, bare, Concat(chunks[..i]))
      {
        ConcatTake(chunks, i);
        aborted := StreamCallPiece(index, bare, Concat(chunks[..i]), chunks[i]);
        if aborted {
          return;
        }
      }
      assert chunks[..|chunks|] == chunks;
      CloseCallBlock(index, bare, arguments, call);
      aborted := false;
    }

    /** The whole answer.  Whenever the abort flag is first seen, the stream ends there with exactly
        one terminal event, last, that says so and carries a block-wise prefix of the answer; if it
        never is, the stream ends with the answer itself. */
    method StreamWithDeltas() returns (aborted: bool)
      requires At(Unstarted) && partial == message.(content := []) && checks == 0 && Faithful(codec)
      modifies this`partial, this`checks, this`states, sender
      ensures sender.Valid() && sender.done && sender.delivered != []
      ensures IsTerminal(sender.delivered[|sender.delivered| - 1])
      ensures sender.result == Some(sender.delivered[|sender.delivered| - 1].final)
      ensures LogOf(codec, sender.delivered) != BadLog
      ensures ReportsEnd(sender.delivered, sender.result.value,
                         aborted || message.stopReason.Error? || message.stopReason.Aborted?)
      ensures aborted ==> AbortedHere()
      ensures !aborted ==> sender.result == Some(message) && Quiet(checks)
      ensures !aborted ==> LogOf(codec, sender.delivered) == Over(BareAll(message.content), NoBlock, Ending(message))
      ensures !aborted ==> Unsigned(BareAll(message.content), message.content)
    {
      assert BareAll(message.content[..0]) == [];
      aborted := PushAbortIfRequested(Unstarted);
      if aborted {
        return;
      }
      Push(Start(partial), Streaming([], NoBlock));
      for index := 0 to |message.content|
        invariant Delivered(index)
      {
        aborted := StreamBlock(index);
        if aborted {
          return;
        }
      }
      assert message.content[..|message.content|] == message.content;
      Conclude();
      aborted := false;
    }

    method StreamBlock(index: nat) returns (aborted: bool)
      requires Delivered(index) && index < |message.content| && Faithful(codec)
      modifies this`partial, this`checks, this`states, sender
      ensures aborted ==> AbortedHere()
      ensures !aborted ==> Delivered(index + 1)
    {
      match message.content[index]
      case ThinkingBlock(thinking, _, _) => aborted := StreamPieces(index, true, thinking);
      case TextBlock(text, _) => aborted := StreamPieces(index, false, text);
      case CallBlock(call) => aborted := StreamCall(index, call);
    }

    method Conclude()
      requires At(Streaming(BareAll(message.content), NoBlock))
      modifies this`states, sender
      ensures sender.Valid() && sender.done && sender.delivered != []
      ensures sender.delivered[|sender.delivered| - 1] == Ending(message) && sender.result == Some(message)
      ensures LogOf(codec, sender.delivered) == Over(BareAll(message.content), NoBlock, Ending(message))
    {
      Push(Ending(message), Over(BareAll(message.content), NoBlock, Ending(message)));
      sender.End(message);
      PassEndsWhereItStands(codec, sender.delivered, states);
    }
  }

  function Ending(message: Assistant): AssistantEvent {
    if message.stopReason.Error? || message.stopReason.Aborted? then Failed(message.stopReason, message)
    else Done(message.stopReason, message)
  }

  lemma BareSnoc(content: seq<Block>, index: nat)
    requires index < |content|
    ensures BareAll(content[..index + 1]) == BareAll(content[..index]) + [Bare(content[index])]
  {
  }

  lemma CutInBlock(codec: ArgumentCodec, full: seq<Block>, index: nat, content: seq<Block>, part: Block)
    requires index < |full| && content == BareAll(full[..index]) + [part] && BeginningOf(codec, part, full[index])
    ensures PrefixOf(codec, content, full)
  {
    assert content[..index] == BareAll(full[..index]);
  }
}
