/** The events of one streamed answer, the channel they go through, and when a log of them is well
    formed.  A log is checked against itself only: each event carries a snapshot, and the checker
    requires every snapshot to grow from the one before in the way the event says. */
module AssistantStream {
  import opened Wrappers
  import opened Messages

  datatype AssistantEvent =
    | Start(partial: Assistant)
    | TextStart(index: nat, partial: Assistant)
    | TextDelta(index: nat, delta: string, partial: Assistant)
    | TextEnd(index: nat, content: string, partial: Assistant)
    | ThinkingStart(index: nat, partial: Assistant)
    | ThinkingDelta(index: nat, delta: string, partial: Assistant)
    | ThinkingEnd(index: nat, content: string, partial: Assistant)
    | CallStart(index: nat, partial: Assistant)
    | CallDelta(index: nat, delta: string, partial: Assistant)
    | CallEnd(index: nat, call: ToolCall, partial: Assistant)
    | Done(reason: StopReason, final: Assistant)
    | Failed(reason: StopReason, final: Assistant)

  predicate IsTerminal(e: AssistantEvent) {
    e.Done? || e.Failed?
  }

  // ---------------------------------------------------------------------
  // The channel.

  class EventSender {
    var delivered: seq<AssistantEvent>
    var result: Option<Assistant>
    var open: bool
    var done: bool

    /** At most one terminal event, nothing after it, and the one-shot result is its message. */
    ghost predicate Valid()
      reads this
    {
      && done == result.Some? == !open
      && forall i :: 0 <= i < |delivered| && IsTerminal(delivered[i]) ==>
           i == |delivered| - 1 && done && result == Some(delivered[i].final)
    }

    constructor ()
      ensures Valid() && delivered == [] && !done
    {
      delivered, result, open, done := [], None, true, false;
    }

    method Push(e: AssistantEvent)
      requires Valid()
      modifies this
      ensures Valid()
      ensures delivered == old(delivered) + if old(done) then [] else [e]
      ensures result == if old(done) || !IsTerminal(e) then old(result) else Some(e.final)
      ensures done == (old(done) || IsTerminal(e))
    {
      if done {
        return;
      }
      if IsTerminal(e) {
        done := true;
        if result.None? {
          result := Some(e.final);
        }
      }
      if open {
        delivered := delivered + [e];
      }
      if IsTerminal(e) {
        open := false;
      }
    }

    method End(message: Assistant)
      requires Valid()
      modifies this
      ensures Valid() && done && delivered == old(delivered)
      ensures result == if old(done) then old(result) else Some(message)
    {
      if done {
        return;
      }
      done := true;
      if result.None? {
        result := Some(message);
      }
      open := false;
    }
  }

  // ---------------------------------------------------------------------
  // Well-formed logs.

  /** The block being streamed; for a call, the argument text received so far. */
  datatype OpenBlock = NoBlock | OpenText | OpenThinking | OpenCall(json: string)

  datatype LogState =
    | Unstarted
    | Streaming(content: seq<Block>, open: OpenBlock)
    | Over(content: seq<Block>, open: OpenBlock, terminal: AssistantEvent)
    | BadLog

  /** How argument text is written and read back. */
  datatype ArgumentCodec = ArgumentCodec(serialize: string -> string, parse: string -> string, empty: string)

  /** Reading back what was written gives it back; no text at all reads as no arguments. */
  ghost predicate Faithful(codec: ArgumentCodec) {
    (forall args :: codec.parse(codec.serialize(args)) == args) && codec.parse("") == codec.empty
  }

  predicate SameButLast(a: seq<Block>, b: seq<Block>) {
    a != [] && |a| == |b| && a[..|a| - 1] == b[..|a| - 1]
  }

  function LastOf(content: seq<Block>): Block
    requires content != []
  {
    content[|content| - 1]
  }

  /** The snapshot continues the open text block with the piece. */
  predicate TextGrows(content: seq<Block>, piece: string, next: seq<Block>) {
    && SameButLast(content, next) && LastOf(content).TextBlock? && LastOf(next).TextBlock?
    && LastOf(next).text == LastOf(content).text + piece
  }

  predicate ThinkingGrows(content: seq<Block>, piece: string, next: seq<Block>) {
    && SameButLast(content, next) && LastOf(content).ThinkingBlock? && LastOf(next).ThinkingBlock?
    && LastOf(next).thinking == LastOf(content).thinking + piece
    && LastOf(next).redacted == LastOf(content).redacted
  }

  predicate CallKept(content: seq<Block>, next: seq<Block>) {
    && SameButLast(content, next) && LastOf(content).CallBlock? && LastOf(next).CallBlock?
    && LastOf(next).call.id == LastOf(content).call.id && LastOf(next).call.name == LastOf(content).call.name
  }

  function LogStep(codec: ArgumentCodec, s: LogState, e: AssistantEvent): LogState {
    match s
    case Unstarted =>
      if e.Start? && e.partial.content == [] then Streaming([], NoBlock)
      else if e.Failed? && e.final.stopReason == e.reason then Over([], NoBlock, e)
      else BadLog
    case Streaming(content, open) =>
      (match e
       case Start(_) => BadLog
       case TextStart(i, p) =>
         if open.NoBlock? && i == |content| && p.content == content + [TextBlock("", None)]
         then Streaming(p.content, OpenText) else BadLog
       case TextDelta(i, piece, p) =>
         if open.OpenText? && i + 1 == |content| && TextGrows(content, piece, p.content)
         then Streaming(p.content, OpenText) else BadLog
       case TextEnd(i, text, p) =>
         if open.OpenText? && i + 1 == |content| && p.content == content && LastOf(content).TextBlock?
            && text == LastOf(content).text
         then Streaming(content, NoBlock) else BadLog
       case ThinkingStart(i, p) =>
         if open.NoBlock? && i == |content| && p.content == content + [ThinkingBlock("", None, false)]
         then Streaming(p.content, OpenThinking) else BadLog
       case ThinkingDelta(i, piece, p) =>
         if open.OpenThinking? && i + 1 == |content| && ThinkingGrows(content, piece, p.content)
         then Streaming(p.content, OpenThinking) else BadLog
       case ThinkingEnd(i, text, p) =>
         if open.OpenThinking? && i + 1 == |content| && p.content == content && LastOf(content).ThinkingBlock?
            && text == LastOf(content).thinking
         then Streaming(content, NoBlock) else BadLog
       case CallStart(i, p) =>
         if open.NoBlock? && i == |content| && p.content == content + [LastBlock(p.content)]
            && LastBlock(p.content).CallBlock?
         then Streaming(p.content, OpenCall("")) else BadLog
       case CallDelta(i, piece, p) =>
         if open.OpenCall? && i + 1 == |content| && CallKept(content, p.content)
         then Streaming(p.content, OpenCall(open.json + piece)) else BadLog
       case CallEnd(i, call, p) =>
         if open.OpenCall? && i + 1 == |content| && CallKept(content, p.content) && LastOf(p.content).call == call
            && call.arguments == codec.parse(open.json)
         then Streaming(p.content, NoBlock) else BadLog
       case Done(reason, final) =>
         if open.NoBlock? && final.stopReason == reason then Over(content, open, e) else BadLog
       case Failed(reason, final) => if final.stopReason == reason then Over(content, open, e) else BadLog)
    case Over(_, _, _) => BadLog
    case BadLog => BadLog
  }

  /** The last block, or an empty text for empty content. */
  function LastBlock(content: seq<Block>): Block {
    if content == [] then TextBlock("", None) else content[|content| - 1]
  }

  function LogOf(codec: ArgumentCodec, log: seq<AssistantEvent>): LogState {
    if log == [] then Unstarted
    else LogStep(codec, LogOf(codec, log[..|log| - 1]), log[|log| - 1])
  }

  lemma LogSnoc(codec: ArgumentCodec, log: seq<AssistantEvent>, e: AssistantEvent)
    ensures LogOf(codec, log + [e]) == LogStep(codec, LogOf(codec, log), e)
  {
    assert (log + [e])[..|log|] == log;
  }

  /** A log that is over ends with its terminal event. */
  lemma OverEndsWithTerminal(codec: ArgumentCodec, log: seq<AssistantEvent>)
    requires LogOf(codec, log).Over?
    ensures log != [] && LogOf(codec, log).terminal == log[|log| - 1] && IsTerminal(log[|log| - 1])
  {
  }

  /** The log's last event carries the answer, as a failure exactly when `failed`. */
  predicate ReportsEnd(log: seq<AssistantEvent>, answer: Assistant, failed: bool) {
    && log != []
    && var last := log[|log| - 1];
       IsTerminal(last) && last.final == answer && last.reason == answer.stopReason && (last.Failed? <==> failed)
  }

  /** The states a log passes through, the last one being where it stands. */
  ghost predicate PassesThrough(codec: ArgumentCodec, log: seq<AssistantEvent>, states: seq<LogState>) {
    && |states| == |log| + 1 && states[0] == Unstarted
    && forall i | 0 <= i < |log| :: states[i + 1] == LogStep(codec, states[i], log[i])
  }

  lemma PassSnoc(codec: ArgumentCodec, log: seq<AssistantEvent>, states: seq<LogState>, e: AssistantEvent,
                 next: LogState)
    requires PassesThrough(codec, log, states) && LogStep(codec, states[|log|], e) == next
    ensures PassesThrough(codec, log + [e], states + [next])
  {
  }

  lemma {:induction false} PassEndsWhereItStands(codec: ArgumentCodec, log: seq<AssistantEvent>, states: seq<LogState>)
    requires PassesThrough(codec, log, states)
    ensures LogOf(codec, log) == states[|log|]
    decreases |log|
  {
    if log != [] {
      var init := log[..|log| - 1];
      PassEndsWhereItStands(codec, init, states[..|log|]);
      assert states[|init| + 1] == LogStep(codec, states[|init|], log[|init|]);
    }
  }

  predicate HasIndex(e: AssistantEvent) {
    !e.Start? && !IsTerminal(e)
  }

  /** The pieces the log delivered for one block, joined. */
  function Joined(log: seq<AssistantEvent>, index: nat): string {
    if log == [] then ""
    else
      var e := log[|log| - 1];
      Joined(log[..|log| - 1], index)
      + if (e.TextDelta? || e.ThinkingDelta? || e.CallDelta?) && e.index == index then e.delta else ""
  }

  /** What a log in progress has delivered is what its snapshot holds, block by block, and nothing
      has been delivered for a block that has not started. */
  ghost predicate DeliveredSoFar(codec: ArgumentCodec, log: seq<AssistantEvent>, content: seq<Block>, open: OpenBlock) {
    && (forall i: nat :: i >= |content| ==> Joined(log, i) == "")
    && (open != NoBlock ==> content != [])
    && (forall i: nat | i < |content| ::
          match content[i]
          case TextBlock(text, _) => Joined(log, i) == text
          case ThinkingBlock(text, _, _) => Joined(log, i) == text
          case CallBlock(call) =>
            if i + 1 == |content| && open.OpenCall? then Joined(log, i) == open.json
            else codec.parse(Joined(log, i)) == call.arguments)
  }

  lemma JoinedSnoc(log: seq<AssistantEvent>, e: AssistantEvent, index: nat)
    ensures Joined(log + [e], index)
         == Joined(log, index)
            + if (e.TextDelta? || e.ThinkingDelta? || e.CallDelta?) && e.index == index then e.delta else ""
  {
    assert (log + [e])[..|log|] == log;
  }

  /** The state of a log in progress fits the pieces it delivered. */
  ghost predicate Told(codec: ArgumentCodec, log: seq<AssistantEvent>, s: LogState) {
    match s
    case Unstarted => forall i: nat :: Joined(log, i) == ""
    case Streaming(content, open) => DeliveredSoFar(codec, log, content, open)
    case Over(_, _, _) => true
    case BadLog => true
  }

  lemma TellPiece(codec: ArgumentCodec, log: seq<AssistantEvent>, s: LogState, e: AssistantEvent)
    requires Told(codec, log, s) && (e.TextDelta? || e.ThinkingDelta? || e.CallDelta?)
    ensures Told(codec, log + [e], LogStep(codec, s, e))
  {
    var s' := LogStep(codec, s, e);
    if s'.Streaming? {
      assert s.content[..|s.content| - 1] == s'.content[..|s.content| - 1];
      forall i: nat
        ensures i >= |s'.content| ==> Joined(log + [e], i) == ""
        ensures i < e.index ==> s'.content[i] == s.content[i] && Joined(log + [e], i) == Joined(log, i)
      {
        JoinedSnoc(log, e, i);
        if i < e.index {
          assert s.content[i] == s.content[..|s.content| - 1][i];
        }
      }
      JoinedSnoc(log, e, e.index);
    }
  }

  lemma TellMark(codec: ArgumentCodec, log: seq<AssistantEvent>, s: LogState, e: AssistantEvent)
    requires Told(codec, log, s) && !(e.TextDelta? || e.ThinkingDelta? || e.CallDelta?)
    ensures Told(codec, log + [e], LogStep(codec, s, e))
  {
    var s' := LogStep(codec, s, e);
    MarkAddsNoPiece(log, e);
    if s.Streaming? && s'.Streaming? && e.CallEnd? {
      SameBeforeLast(s.content, s'.content);
    }
  }

  lemma MarkAddsNoPiece(log: seq<AssistantEvent>, e: AssistantEvent)
    requires !(e.TextDelta? || e.ThinkingDelta? || e.CallDelta?)
    ensures forall i: nat :: Joined(log + [e], i) == Joined(log, i)
  {
    forall i: nat
      ensures Joined(log + [e], i) == Joined(log, i)
    {
      JoinedSnoc(log, e, i);
      assert Joined(log, i) + "" == Joined(log, i);
    }
  }

  lemma SameBeforeLast(a: seq<Block>, b: seq<Block>)
    requires SameButLast(a, b)
    ensures forall i: nat | i + 1 < |a| :: a[i] == b[i]
  {
    forall i: nat | i + 1 < |a|
      ensures a[i] == b[i]
    {
      assert a[i] == a[..|a| - 1][i];
    }
  }

  lemma {:induction false} LogTellsItsContent(codec: ArgumentCodec, log: seq<AssistantEvent>)
    ensures Told(codec, log, LogOf(codec, log))
  {
    if log != [] {
      var init := log[..|log| - 1];
      var e := log[|log| - 1];
      LogTellsItsContent(codec, init);
      assert log == init + [e];
      if e.TextDelta? || e.ThinkingDelta? || e.CallDelta? {
        TellPiece(codec, init, LogOf(codec, init), e);
      } else {
        TellMark(codec, init, LogOf(codec, init), e);
      }
    }
  }

  lemma {:induction false} GoodPrefix(codec: ArgumentCodec, log: seq<AssistantEvent>, k: nat)
    requires k <= |log| && LogOf(codec, log) != BadLog
    ensures LogOf(codec, log[..k]) != BadLog
    decreases |log|
  {
    if k < |log| {
      GoodPrefix(codec, log[..|log| - 1], k);
      assert log[..|log| - 1][..k] == log[..k];
    } else {
      assert log[..k] == log;
    }
  }

  predicate EndTold(codec: ArgumentCodec, log: seq<AssistantEvent>, e: AssistantEvent) {
    && (e.TextEnd? || e.ThinkingEnd? ==> e.content == Joined(log, e.index))
    && (e.CallEnd? ==> e.call.arguments == codec.parse(Joined(log, e.index)))
  }

  lemma EndIsTold(codec: ArgumentCodec, log: seq<AssistantEvent>, s: LogState, e: AssistantEvent)
    requires Told(codec, log, s) && LogStep(codec, s, e) != BadLog
    ensures EndTold(codec, log, e)
  {
    if HasIndex(e) && s.Streaming? && s.content != [] {
      assert Told(codec, log, s) ==> DeliveredSoFar(codec, log, s.content, s.open);
      var last := s.content[|s.content| - 1];
    }
  }

  /** In a well-formed log, every end event carries what the pieces of its block join to: the text
      itself, or arguments that are what the joined text reads as. */
  lemma EndsCarryTheirPieces(codec: ArgumentCodec, log: seq<AssistantEvent>, k: nat)
    requires k < |log| && LogOf(codec, log) != BadLog
    ensures EndTold(codec, log[..k], log[k])
  {
    GoodPrefix(codec, log, k + 1);
    assert log[..k + 1] == log[..k] + [log[k]];
    LogSnoc(codec, log[..k], log[k]);
    LogTellsItsContent(codec, log[..k]);
    EndIsTold(codec, log[..k], LogOf(codec, log[..k]), log[k]);
  }

  function UpTo(n: nat): seq<nat> {
    seq(n, i => i)
  }

  function StartIndex(e: AssistantEvent): seq<nat> {
    if e.TextStart? || e.ThinkingStart? || e.CallStart? then [e.index] else []
  }

  function StartIndices(log: seq<AssistantEvent>): seq<nat> {
    if log == [] then [] else StartIndices(log[..|log| - 1]) + StartIndex(log[|log| - 1])
  }

  predicate StartsFit(starts: seq<nat>, s: LogState) {
    match s
    case Unstarted => starts == []
    case Streaming(content, _) => starts == UpTo(|content|)
    case Over(content, _, _) => starts == UpTo(|content|)
    case BadLog => true
  }

  lemma OneMoreIndex(n: nat)
    ensures UpTo(n + 1) == UpTo(n) + [n] && UpTo(n) + [] == UpTo(n) && UpTo(0) == []
  {
  }

  lemma StartStepFits(codec: ArgumentCodec, starts: seq<nat>, s: LogState, e: AssistantEvent)
    requires StartsFit(starts, s)
    ensures StartsFit(starts + StartIndex(e), LogStep(codec, s, e))
  {
    if s.Streaming? {
      OneMoreIndex(|s.content|);
    }
  }

  /** Block numbers are consecutive: each start event opens the block right after the last one. */
  lemma {:induction false} StartsAreConsecutive(codec: ArgumentCodec, log: seq<AssistantEvent>)
    ensures StartsFit(StartIndices(log), LogOf(codec, log))
  {
    if log != [] {
      var init := log[..|log| - 1];
      StartsAreConsecutive(codec, init);
      StartStepFits(codec, StartIndices(init), LogOf(codec, init), log[|log| - 1]);
    }
  }

  function EndIndex(e: AssistantEvent): seq<nat> {
    if e.TextEnd? || e.ThinkingEnd? || e.CallEnd? then [e.index] else []
  }

  function EndIndices(log: seq<AssistantEvent>): seq<nat> {
    if log == [] then [] else EndIndices(log[..|log| - 1]) + EndIndex(log[|log| - 1])
  }

  /** All blocks have ended but the one that is open. */
  predicate EndsUpTo(ends: seq<nat>, blocks: nat, open: OpenBlock) {
    if open.NoBlock? then ends == UpTo(blocks) else blocks > 0 && ends == UpTo(blocks - 1)
  }

  predicate EndsFit(ends: seq<nat>, s: LogState) {
    match s
    case Unstarted => ends == []
    case Streaming(content, open) => EndsUpTo(ends, |content|, open)
    case Over(content, open, terminal) => EndsUpTo(ends, |content|, open) && (terminal.Done? ==> open.NoBlock?)
    case BadLog => true
  }

  lemma EndStepFits(codec: ArgumentCodec, ends: seq<nat>, s: LogState, e: AssistantEvent)
    requires EndsFit(ends, s)
    ensures EndsFit(ends + EndIndex(e), LogStep(codec, s, e))
  {
    assert ends + [] == ends;
    if s.Streaming? && |s.content| > 0 {
      OneMoreIndex(|s.content| - 1);
    }
  }

  /** Blocks end in the order in which they start, one at a time; a stream that is done has ended all of
      them, and one that failed all but perhaps the last. */
  lemma {:induction false} EndsFollowStarts(codec: ArgumentCodec, log: seq<AssistantEvent>)
    ensures EndsFit(EndIndices(log), LogOf(codec, log))
  {
    if log != [] {
      var init := log[..|log| - 1];
      EndsFollowStarts(codec, init);
      EndStepFits(codec, EndIndices(init), LogOf(codec, init), log[|log| - 1]);
    }
  }
}
