/** The client end of the streaming proxy.  The wire carries events without their snapshots; the
    client rebuilds the answer from them.

    The model starts at parsed wire events.  How argument text is read is a codec parameter; usage
    is left out. */
module ProxyClient {
  import opened Wrappers
  import opened Messages
  import opened AssistantStream

  datatype ProxyEvent =
    | WireStart
    | WireTextStart(index: nat)
    | WireTextDelta(index: nat, delta: string)
    | WireTextEnd(index: nat, signature: Option<string>)
    | WireThinkingStart(index: nat)
    | WireThinkingDelta(index: nat, delta: string)
    | WireThinkingEnd(index: nat, signature: Option<string>)
    | WireCallStart(index: nat, id: string, name: string)
    | WireCallDelta(index: nat, delta: string)
    | WireCallEnd(index: nat)
    | WireDone(reason: StopReason)
    | WireError(reason: StopReason, errorMessage: Option<string>)

  function BlockAt(content: seq<Block>, index: nat): Block {
    if index < |content| then content[index] else TextBlock("", None)
  }

  /** What the wire keeps of an event. */
  function Strip(e: AssistantEvent): ProxyEvent {
    match e
    case Start(_) => WireStart
    case TextStart(i, _) => WireTextStart(i)
    case TextDelta(i, delta, _) => WireTextDelta(i, delta)
    case TextEnd(i, _, p) =>
      var b := BlockAt(p.content, i);
      WireTextEnd(i, if b.TextBlock? then b.textSignature else None)
    case ThinkingStart(i, _) => WireThinkingStart(i)
    case ThinkingDelta(i, delta, _) => WireThinkingDelta(i, delta)
    case ThinkingEnd(i, _, p) =>
      var b := BlockAt(p.content, i);
      WireThinkingEnd(i, if b.ThinkingBlock? then b.thinkingSignature else None)
    case CallStart(i, p) =>
      var b := BlockAt(p.content, i);
      if b.CallBlock? then WireCallStart(i, b.call.id, b.call.name) else WireCallStart(i, "", "")
    case CallDelta(i, delta, _) => WireCallDelta(i, delta)
    case CallEnd(i, _, _) => WireCallEnd(i)
    case Done(reason, _) => WireDone(reason)
    case Failed(reason, final) => WireError(reason, final.errorMessage)
  }

  function StripAll(log: seq<AssistantEvent>): (wire: seq<ProxyEvent>)
    ensures |wire| == |log|
  {
    seq(|log|, i requires 0 <= i < |log| => Strip(log[i]))
  }

  lemma StripSnoc(log: seq<AssistantEvent>, e: AssistantEvent)
    ensures StripAll(log + [e]) == StripAll(log) + [Strip(e)]
  {
  }

  // ---------------------------------------------------------------------
  // The client.

  /** The answer so far, the argument text of the calls in progress, and the events passed on. */
  datatype ClientState = ClientState(partial: Assistant, json: map<nat, string>, sent: seq<AssistantEvent>)

  function Padding(n: nat): (blocks: seq<Block>)
    ensures |blocks| == n
  {
    seq(n, i => TextBlock("", None))
  }

  /** The content with the block at the index, filled up with empty texts where it was shorter. */
  function WithSlot(content: seq<Block>, index: nat, block: Block): (r: seq<Block>)
    ensures index < |r| && |content| <= |r| && r[index] == block
    ensures |r| == |content| || |r| == index + 1
    ensures forall i :: 0 <= i < |content| && i != index ==> r[i] == content[i]
    ensures forall i :: |content| <= i < index ==> r[i] == TextBlock("", None)
  {
    if index < |content| then content[index := block]
    else content + Padding(index - |content|) + [block]
  }

  method EnsureContentSlot(content: seq<Block>, index: nat, block: Block) returns (r: seq<Block>)
    ensures r == WithSlot(content, index, block)
  {
    r := content;
    while |r| <= index
      invariant |content| <= |r| && r[..|content|] == content
      invariant |r| <= |content| || |r| <= index + 1
      invariant forall i :: |content| <= i < |r| ==> r[i] == TextBlock("", None)
      decreases index - |r|
    {
      r := r + [TextBlock("", None)];
    }
    r := r[index := block];
    assert forall i :: 0 <= i < |content| && i != index ==> r[i] == r[..|content|][i];
    if index < |content| {
      assert r == content[index := block];
    } else {
      assert r == content + Padding(index - |content|) + [block];
    }
  }

  function Update(c: ClientState, index: nat, block: Block): ClientState
    requires index < |c.partial.content|
  {
    c.(partial := c.partial.(content := c.partial.content[index := block]))
  }

  function Slot(c: ClientState, index: nat, block: Block): ClientState {
    c.(partial := c.partial.(content := WithSlot(c.partial.content, index, block)))
  }

  function Send(c: ClientState, e: AssistantEvent): ClientState {
    c.(sent := c.sent + [e])
  }

  /** One wire event; success says whether it was the terminal one. */
  function ClientStep(codec: ArgumentCodec, now: int, c: ClientState, e: ProxyEvent): Result<(ClientState, bool)> {
    match e
    case WireStart => Success((Send(c, Start(c.partial)), false))
    case WireTextStart(i) =>
      var c' := Slot(c, i, TextBlock("", None));
      Success((Send(c', TextStart(i, c'.partial)), false))
    case WireTextDelta(i, delta) =>
      if i < |c.partial.content| && c.partial.content[i].TextBlock? then
        var b := c.partial.content[i];
        var c' := Update(c, i, b.(text := b.text + delta));
        Success((Send(c', TextDelta(i, delta, c'.partial)), false))
      else Failure("Received text_delta for non-text content")
    case WireTextEnd(i, signature) =>
      if i < |c.partial.content| && c.partial.content[i].TextBlock? then
        var b := c.partial.content[i];
        var c' := Update(c, i, b.(textSignature := signature));
        Success((Send(c', TextEnd(i, b.text, c'.partial)), false))
      else Failure("Received text_end for non-text content")
    case WireThinkingStart(i) =>
      var c' := Slot(c, i, ThinkingBlock("", None, false));
      Success((Send(c', ThinkingStart(i, c'.partial)), false))
    case WireThinkingDelta(i, delta) =>
      if i < |c.partial.content| && c.partial.content[i].ThinkingBlock? then
        var b := c.partial.content[i];
        var c' := Update(c, i, b.(thinking := b.thinking + delta));
        Success((Send(c', ThinkingDelta(i, delta, c'.partial)), false))
      else Failure("Received thinking_delta for non-thinking content")
    case WireThinkingEnd(i, signature) =>
      if i < |c.partial.content| && c.partial.content[i].ThinkingBlock? then
        var b := c.partial.content[i];
        var c' := Update(c, i, b.(thinkingSignature := signature));
        Success((Send(c', ThinkingEnd(i, b.thinking, c'.partial)), false))
      else Failure("Received thinking_end for non-thinking content")
    case WireCallStart(i, id, name) =>
      var c' := Slot(c, i, CallBlock(ToolCall(id, name, codec.empty, None)));
      var c'' := c'.(json := c'.json[i := ""]);
      Success((Send(c'', CallStart(i, c''.partial)), false))
    case WireCallDelta(i, delta) =>
      if i < |c.partial.content| && c.partial.content[i].CallBlock? then
        var scratch := (if i in c.json then c.json[i] else "") + delta;
        var call := c.partial.content[i].call.(arguments := codec.parse(scratch));
        var c' := Update(c.(json := c.json[i := scratch]), i, CallBlock(call));
        Success((Send(c', CallDelta(i, delta, c'.partial)), false))
      else Failure("Received toolcall_delta for non-toolCall content")
    case WireCallEnd(i) =>
      var c' := c.(json := c.json - {i});
      if i < |c.partial.content| && c.partial.content[i].CallBlock? then
        Success((Send(c', CallEnd(i, c'.partial.content[i].call, c'.partial)), false))
      else Success((c', false))
    case WireDone(reason) =>
      var c' := c.(partial := c.partial.(stopReason := reason, timestamp := now));
      Success((Send(c', Done(reason, c'.partial)), true))
    case WireError(reason, errorMessage) =>
      var c' := c.(partial := c.partial.(stopReason := reason, errorMessage := errorMessage, timestamp := now));
      Success((Send(c', Failed(reason, c'.partial)), true))
  }

  class Client {
    const codec: ArgumentCodec
    const now: int
    var partial: Assistant
    var toolPartialJson: map<nat, string>
    var sent: seq<AssistantEvent>

    function Value(): ClientState
      reads this
    {
      ClientState(partial, toolPartialJson, sent)
    }

    constructor (codec: ArgumentCodec, now: int, partial: Assistant)
      ensures Value() == ClientState(partial, map[], []) && this.codec == codec && this.now == now
    {
      this.codec, this.now, this.partial := codec, now, partial;
      toolPartialJson, sent := map[], [];
    }

    method Send(e: AssistantEvent)
      modifies this`sent
      ensures sent == old(sent) + [e]
    {
      sent := sent + [e];
    }

    method SetBlock(index: nat, block: Block)
      requires index < |partial.content|
      modifies this`partial
      ensures partial == old(partial).(content := old(partial).content[index := block])
    {
      partial := partial.(content := partial.content[index := block]);
    }

    method OpenSlot(index: nat, block: Block)
      modifies this`partial
      ensures partial == old(partial).(content := WithSlot(old(partial).content, index, block))
    {
      var content := EnsureContentSlot(partial.content, index, block);
      partial := partial.(content := content);
    }

    ghost predicate Did(before: ClientState, e: ProxyEvent, r: Result<bool>)
      reads this
    {
      match ClientStep(codec, now, before, e)
      case Success((c, terminal)) => r == Success(terminal) && Value() == c
      case Failure(error) => r == Failure(error) && Value() == before
    }

    method ProcessEvent(e: ProxyEvent) returns (r: Result<bool>)
      modifies this
      ensures Did(old(Value()), e, r)
    {
      match e {
        case WireTextStart(_) => r := ProcessText(e);
        case WireTextDelta(_, _) => r := ProcessText(e);
        case WireTextEnd(_, _) => r := ProcessText(e);
        case WireThinkingStart(_) => r := ProcessThinking(e);
        case WireThinkingDelta(_, _) => r := ProcessThinking(e);
        case WireThinkingEnd(_, _) => r := ProcessThinking(e);
        case WireCallStart(_, _, _) => r := ProcessCall(e);
        case WireCallDelta(_, _) => r := ProcessCall(e);
        case WireCallEnd(_) => r := ProcessCall(e);
        case _ => r := ProcessFrame(e);
      }
    }

    method ProcessText(e: ProxyEvent) returns (r: Result<bool>)
      requires e.WireTextStart? || e.WireTextDelta? || e.WireTextEnd?
      modifies this
      ensures Did(old(Value()), e, r)
    {
      if e.WireTextStart? {
        OpenSlot(e.index, TextBlock("", None));
        Send(TextStart(e.index, partial));
        return Success(false);
      }
      if |partial.content| <= e.index || !partial.content[e.index].TextBlock? {
        return Failure(if e.WireTextDelta? then "Received text_delta for non-text content"
                       else "Received text_end for non-text content");
      }
      var block := partial.content[e.index];
      if e.WireTextDelta? {
        SetBlock(e.index, block.(text := block.text + e.delta));
        Send(TextDelta(e.index, e.delta, partial));
      } else {
        SetBlock(e.index, block.(textSignature := e.signature));
        Send(TextEnd(e.index, block.text, partial));
      }
      r := Success(false);
    }

    method ProcessThinking(e: ProxyEvent) returns (r: Result<bool>)
      requires e.WireThinkingStart? || e.WireThinkingDelta? || e.WireThinkingEnd?
      modifies this
      ensures Did(old(Value()), e, r)
    {
      if e.WireThinkingStart? {
        OpenSlot(e.index, ThinkingBlock("", None, false));
        Send(ThinkingStart(e.index, partial));
        return Success(false);
      }
      if |partial.content| <= e.index || !partial.content[e.index].ThinkingBlock? {
        return Failure(if e.WireThinkingDelta? then "Received thinking_delta for non-thinking content"
                       else "Received thinking_end for non-thinking content");
      }
      var block := partial.content[e.index];
      if e.WireThinkingDelta? {
        SetBlock(e.index, block.(thinking := block.thinking + e.delta));
        Send(ThinkingDelta(e.index, e.delta, partial));
      } else {
        SetBlock(e.index, block.(thinkingSignature := e.signature));
        Send(ThinkingEnd(e.index, block.thinking, partial));
      }
      r := Success(false);
    }

    method ProcessCall(e: ProxyEvent) returns (r: Result<bool>)
      requires e.WireCallStart? || e.WireCallDelta? || e.WireCallEnd?
      modifies this
      ensures Did(old(Value()), e, r)
    {
      var i := e.index;
      if e.WireCallStart? {
        OpenSlot(i, CallBlock(ToolCall(e.id, e.name, codec.empty, None)));
        toolPartialJson := toolPartialJson[i := ""];
        Send(CallStart(i, partial));
        return Success(false);
      }
      if e.WireCallDelta? {
        if |partial.content| <= i || !partial.content[i].CallBlock? {
          return Failure("Received toolcall_delta for non-toolCall content");
        }
        var scratch := (if i in toolPartialJson then toolPartialJson[i] else "") + e.delta;
        toolPartialJson := toolPartialJson[i := scratch];
        SetBlock(i, CallBlock(partial.content[i].call.(arguments := codec.parse(scratch))));
        Send(CallDelta(i, e.delta, partial));
        return Success(false);
      }
      toolPartialJson := toolPartialJson - {i};
      if i < |partial.content| && partial.content[i].CallBlock? {
        Send(CallEnd(i, partial.content[i].call, partial));
      }
      r := Success(false);
    }

    method ProcessFrame(e: ProxyEvent) returns (r: Result<bool>)
      requires e.WireStart? || e.WireDone? || e.WireError?
      modifies this
      ensures Did(old(Value()), e, r)
    {
      if e.WireStart? {
        Send(Start(partial));
        return Success(false);
      }
      if e.WireDone? {
        partial := partial.(stopReason := e.reason, timestamp := now);
        Send(Done(e.reason, partial));
      } else {
        partial := partial.(stopReason := e.reason, errorMessage := e.errorMessage, timestamp := now);
        Send(Failed(e.reason, partial));
      }
      r := Success(true);
    }

    /** Every event in turn, up to the first error; whether a terminal one was among them.  An error
        leaves the client as the events before it left it. */
    method ProcessAll(wire: seq<ProxyEvent>) returns (r: Result<bool>)
      modifies this
      ensures match Replay(codec, now, old(Value()), wire)
              case Success((c, terminal)) => r == Success(terminal) && Value() == c
              case Failure(error) =>
                r == Failure(error)
                && exists k :: 0 <= k < |wire| && StopsAt(codec, now, old(Value()), wire, k, Value(), error)
    {
      var terminal := false;
      for i := 0 to |wire|
        invariant Replay(codec, now, old(Value()), wire[..i]) == Success((Value(), terminal))
      {
        assert wire[..i + 1][..i] == wire[..i];
        var step := ProcessEvent(wire[i]);
        if step.Failure? {
          ReplayFails(codec, now, old(Value()), wire, i + 1);
          assert StopsAt(codec, now, old(Value()), wire, i, Value(), step.error);
          return Failure(step.error);
        }
        terminal := terminal || step.value;
      }
      assert wire[..|wire|] == wire;
      r := Success(terminal);
    }
  }

  function Replay(codec: ArgumentCodec, now: int, c: ClientState, wire: seq<ProxyEvent>): Result<(ClientState, bool)> {
    if wire == [] then Success((c, false))
    else
      match Replay(codec, now, c, wire[..|wire| - 1])
      case Failure(error) => Failure(error)
      case Success((before, terminal)) =>
        match ClientStep(codec, now, before, wire[|wire| - 1])
        case Failure(error) => Failure(error)
        case Success((after, last)) => Success((after, terminal || last))
  }

  /** The first error is at the event `k`, and `after` is the state the events before it lead to. */
  predicate StopsAt(codec: ArgumentCodec, now: int, c: ClientState, wire: seq<ProxyEvent>, k: nat,
                    after: ClientState, error: string)
    requires k < |wire|
  {
    var before := Replay(codec, now, c, wire[..k]);
    before.Success? && before.value.0 == after && ClientStep(codec, now, after, wire[k]) == Failure(error)
  }

  lemma {:induction false} ReplayFails(codec: ArgumentCodec, now: int, c: ClientState, wire: seq<ProxyEvent>, k: nat)
    requires k <= |wire| && Replay(codec, now, c, wire[..k]).Failure?
    ensures Replay(codec, now, c, wire) == Replay(codec, now, c, wire[..k])
    decreases |wire|
  {
    if k < |wire| {
      assert wire[..|wire| - 1][..k] == wire[..k];
      ReplayFails(codec, now, c, wire[..|wire| - 1], k);
    } else {
      assert wire[..k] == wire;
    }
  }

  // ---------------------------------------------------------------------
  // The client rebuilds the answer.

  /** What survives the wire of a finished block: everything but a call's thought signature. */
  function Erase(b: Block): Block {
    match b
    case TextBlock(_, _) => b
    case ThinkingBlock(text, signature, _) => ThinkingBlock(text, signature, false)
    case CallBlock(call) => CallBlock(call.(thoughtSignature := None))
  }

  /** The client's view of the block still being streamed: no signature yet, and whatever arguments
      the text so far reads as. */
  function EraseOpen(codec: ArgumentCodec, b: Block, open: OpenBlock): Block {
    match b
    case TextBlock(text, _) => if open.OpenText? then TextBlock(text, None) else b
    case ThinkingBlock(text, signature, _) =>
      ThinkingBlock(text, if open.OpenThinking? then None else signature, false)
    case CallBlock(call) =>
      CallBlock(ToolCall(call.id, call.name,
                         if open.OpenCall? then codec.parse(open.json) else call.arguments, None))
  }

  function EraseAll(content: seq<Block>): (r: seq<Block>)
    ensures |r| == |content|
  {
    seq(|content|, i requires 0 <= i < |content| => Erase(content[i]))
  }

  function Mirror(codec: ArgumentCodec, content: seq<Block>, open: OpenBlock): (r: seq<Block>)
    ensures |r| == |content|
  {
    if content == [] then []
    else EraseAll(content[..|content| - 1]) + [EraseOpen(codec, content[|content| - 1], open)]
  }

  lemma ClosedMirror(codec: ArgumentCodec, content: seq<Block>)
    ensures Mirror(codec, content, NoBlock) == EraseAll(content)
  {
  }

  /** The open marker fits the last block. */
  predicate Fits(content: seq<Block>, open: OpenBlock) {
    match open
    case NoBlock => true
    case OpenText => content != [] && LastOf(content).TextBlock?
    case OpenThinking => content != [] && LastOf(content).ThinkingBlock?
    case OpenCall(_) => content != [] && LastOf(content).CallBlock?
  }

  predicate Mirrors(codec: ArgumentCodec, s: LogState, c: ClientState) {
    match s
    case Unstarted => c.partial.content == [] && c.json == map[]
    case Streaming(content, open) =>
      && Fits(content, open)
      && c.partial.content == Mirror(codec, content, open)
      && c.json == if open.OpenCall? then map[|content| - 1 := open.json] else map[]
    case Over(content, open, terminal) =>
      && IsTerminal(terminal) && c.partial.stopReason == terminal.final.stopReason
      && c.partial.content == Mirror(codec, content, open)
      && (terminal.Failed? ==> c.partial.errorMessage == terminal.final.errorMessage)
    case BadLog => false
  }

  // ---------------------------------------------------------------------
  // What one wire event does, whatever state the client is in.

  /** An event that goes on with a block finds one of its kind. */
  predicate FindsItsBlock(content: seq<Block>, e: ProxyEvent) {
    match e
    case WireTextDelta(i, _) => i < |content| && content[i].TextBlock?
    case WireTextEnd(i, _) => i < |content| && content[i].TextBlock?
    case WireThinkingDelta(i, _) => i < |content| && content[i].ThinkingBlock?
    case WireThinkingEnd(i, _) => i < |content| && content[i].ThinkingBlock?
    case WireCallDelta(i, _) => i < |content| && content[i].CallBlock?
    case WireCallEnd(i) => i < |content| && content[i].CallBlock?
    case _ => true
  }

  predicate EndsStream(e: ProxyEvent) {
    e.WireDone? || e.WireError?
  }

  /** An event is an error exactly when it does not find its block, except the end of a call, which is then
      passed over.  Every other event is sent on once, as what it says, with the answer so far; the answer
      is dated when the stream ends. */
  lemma EventIsSentOn(codec: ArgumentCodec, now: int, c: ClientState, e: ProxyEvent)
    ensures match ClientStep(codec, now, c, e)
            case Failure(_) => !FindsItsBlock(c.partial.content, e) && !e.WireCallEnd?
            case Success((after, terminal)) =>
              && (terminal <==> EndsStream(e))
              && after.partial.timestamp == (if EndsStream(e) then now else c.partial.timestamp)
              && if FindsItsBlock(c.partial.content, e)
                 then |after.sent| == |c.sent| + 1 && after.sent[..|c.sent|] == c.sent
                      && Strip(after.sent[|c.sent|]) == e && AnswerIn(after.sent[|c.sent|]) == after.partial
                 else e.WireCallEnd? && after.sent == c.sent && after.partial == c.partial
  {
  }

  function AnswerIn(e: AssistantEvent): Assistant {
    if IsTerminal(e) then e.final else e.partial
  }

  predicate StepMirrors(codec: ArgumentCodec, now: int, s: LogState, c: ClientState, e: AssistantEvent) {
    match ClientStep(codec, now, c, Strip(e))
    case Failure(_) => false
    case Success((c', terminal)) =>
      && Mirrors(codec, LogStep(codec, s, e), c')
      && terminal == LogStep(codec, s, e).Over?
      && c'.sent == c.sent + [LastSent(c')] && Strip(LastSent(c')) == Strip(e)
  }

  function LastSent(c: ClientState): AssistantEvent {
    if c.sent == [] then Start(c.partial) else c.sent[|c.sent| - 1]
  }

  lemma OpeningSlot(codec: ArgumentCodec, content: seq<Block>, block: Block, mirrored: Block, open: OpenBlock)
    requires EraseOpen(codec, block, open) == mirrored
    ensures WithSlot(Mirror(codec, content, NoBlock), |content|, mirrored) == Mirror(codec, content + [block], open)
  {
    ClosedMirror(codec, content);
    var next := content + [block];
    assert next[..|content|] == content;
    assert Padding(0) == [];
    assert WithSlot(EraseAll(content), |content|, mirrored) == EraseAll(content) + [mirrored];
  }

  lemma UpdatingSlot(codec: ArgumentCodec, content: seq<Block>, open: OpenBlock, next: seq<Block>, open': OpenBlock)
    requires SameButLast(content, next)
    ensures Mirror(codec, content, open)[|content| - 1 := EraseOpen(codec, LastOf(next), open')]
         == Mirror(codec, next, open')
  {
  }

  lemma MirrorTextStart(codec: ArgumentCodec, now: int, s: LogState, c: ClientState, e: AssistantEvent)
    requires Mirrors(codec, s, c) && LogStep(codec, s, e) != BadLog && e.TextStart?
    ensures StepMirrors(codec, now, s, c, e)
  {
    var block := TextBlock("", None);
    OpeningSlot(codec, s.content, block, block, OpenText);
  }

  lemma MirrorThinkingStart(codec: ArgumentCodec, now: int, s: LogState, c: ClientState, e: AssistantEvent)
    requires Mirrors(codec, s, c) && LogStep(codec, s, e) != BadLog && e.ThinkingStart?
    ensures StepMirrors(codec, now, s, c, e)
  {
    var block := ThinkingBlock("", None, false);
    OpeningSlot(codec, s.content, block, block, OpenThinking);
  }

  lemma CallStartShape(codec: ArgumentCodec, s: LogState, e: AssistantEvent)
    requires e.CallStart? && LogStep(codec, s, e) != BadLog
    ensures s.Streaming? && s.open.NoBlock? && e.index == |s.content| && LastBlock(e.partial.content).CallBlock?
    ensures e.partial.content == s.content + [LastBlock(e.partial.content)]
    ensures LogStep(codec, s, e) == Streaming(e.partial.content, OpenCall(""))
  {
  }

  lemma MirrorCallStart(codec: ArgumentCodec, now: int, s: LogState, c: ClientState, e: AssistantEvent)
    requires Mirrors(codec, s, c) && LogStep(codec, s, e) != BadLog && codec.parse("") == codec.empty
    requires e.CallStart?
    ensures StepMirrors(codec, now, s, c, e)
  {
    CallStartShape(codec, s, e);
    var block := LastBlock(e.partial.content);
    var mirrored := CallBlock(ToolCall(block.call.id, block.call.name, codec.empty, None));
    assert EraseOpen(codec, block, OpenCall("")) == mirrored;
    OpeningSlot(codec, s.content, block, mirrored, OpenCall(""));
    assert BlockAt(e.partial.content, e.index) == block;
    var c' := ClientStep(codec, now, c, Strip(e)).value.0;
    assert c'.json == map[e.index := ""];
    assert c'.partial.content[e.index] == mirrored;
  }

  lemma MirrorPiece(codec: ArgumentCodec, now: int, s: LogState, c: ClientState, e: AssistantEvent)
    requires Mirrors(codec, s, c) && LogStep(codec, s, e) != BadLog
    requires e.TextDelta? || e.ThinkingDelta?
    ensures StepMirrors(codec, now, s, c, e)
  {
    UpdatingSlot(codec, s.content, s.open, e.partial.content, s.open);
  }

  lemma MirrorCallPiece(codec: ArgumentCodec, now: int, s: LogState, c: ClientState, e: AssistantEvent)
    requires Mirrors(codec, s, c) && LogStep(codec, s, e) != BadLog && e.CallDelta?
    ensures StepMirrors(codec, now, s, c, e)
  {
    UpdatingSlot(codec, s.content, s.open, e.partial.content, OpenCall(s.open.json + e.delta));
  }

  lemma MirrorEnd(codec: ArgumentCodec, now: int, s: LogState, c: ClientState, e: AssistantEvent)
    requires Mirrors(codec, s, c) && LogStep(codec, s, e) != BadLog
    requires e.TextEnd? || e.ThinkingEnd?
    ensures StepMirrors(codec, now, s, c, e)
  {
    UpdatingSlot(codec, s.content, s.open, s.content, NoBlock);
  }

  lemma MirrorCallEnd(codec: ArgumentCodec, now: int, s: LogState, c: ClientState, e: AssistantEvent)
    requires Mirrors(codec, s, c) && LogStep(codec, s, e) != BadLog && e.CallEnd?
    ensures StepMirrors(codec, now, s, c, e)
  {
    UpdatingSlot(codec, s.content, s.open, e.partial.content, NoBlock);
    var m := Mirror(codec, s.content, s.open);
    assert EraseOpen(codec, LastOf(e.partial.content), NoBlock) == LastOf(m);
    assert m[|m| - 1 := LastOf(m)] == m;
    assert c.json - {e.index} == map[];
  }

  lemma MirrorFrame(codec: ArgumentCodec, now: int, s: LogState, c: ClientState, e: AssistantEvent)
    requires Mirrors(codec, s, c) && LogStep(codec, s, e) != BadLog
    requires e.Start? || IsTerminal(e)
    requires e.Failed? && s.Unstarted? ==> e.final.stopReason == e.reason
    ensures StepMirrors(codec, now, s, c, e)
  {
    if s.Streaming? {
      ClosedMirror(codec, s.content);
    } else if s.Unstarted? && e.Failed? {
      assert Mirror(codec, [], NoBlock) == [];
    }
  }

  /** Replaying the wire form of any well-formed log never errors.  It leaves the client with the
      answer of the log, up to tool thought signatures and, when the log breaks off inside a block,
      up to what that block had not yet sent; it finds a terminal event exactly when there is one;
      and what the client passes on has the same wire form, so it can be proxied again. */
  lemma {:induction false} ClientRebuildsTheAnswer(codec: ArgumentCodec, now: int, log: seq<AssistantEvent>,
                                        c: ClientState)
    requires Faithful(codec) && LogOf(codec, log) != BadLog
    requires c.partial.content == [] && c.json == map[] && c.sent == []
    ensures match Replay(codec, now, c, StripAll(log))
            case Failure(_) => false
            case Success((c', terminal)) =>
              && Mirrors(codec, LogOf(codec, log), c')
              && terminal == LogOf(codec, log).Over?
              && StripAll(c'.sent) == StripAll(log)
  {
    if log == [] {
    } else {
      var init := log[..|log| - 1];
      var e := log[|log| - 1];
      assert log == init + [e];
      ClientRebuildsTheAnswer(codec, now, init, c);
      StripSnoc(init, e);
      assert StripAll(log)[..|log| - 1] == StripAll(init);
      var before := Replay(codec, now, c, StripAll(init)).value.0;
      StepIsMirrored(codec, now, LogOf(codec, init), before, e);
      var after := ClientStep(codec, now, before, Strip(e)).value.0;
      StripSnoc(before.sent, LastSent(after));
    }
  }

  lemma StepIsMirrored(codec: ArgumentCodec, now: int, s: LogState, c: ClientState, e: AssistantEvent)
    requires Mirrors(codec, s, c) && LogStep(codec, s, e) != BadLog && codec.parse("") == codec.empty
    ensures StepMirrors(codec, now, s, c, e) && !s.Over?
  {
    match e {
      case TextStart(_, _) => MirrorTextStart(codec, now, s, c, e);
      case ThinkingStart(_, _) => MirrorThinkingStart(codec, now, s, c, e);
      case CallStart(_, _) => MirrorCallStart(codec, now, s, c, e);
      case TextDelta(_, _, _) => MirrorPiece(codec, now, s, c, e);
      case ThinkingDelta(_, _, _) => MirrorPiece(codec, now, s, c, e);
      case CallDelta(_, _, _) => MirrorCallPiece(codec, now, s, c, e);
      case TextEnd(_, _, _) => MirrorEnd(codec, now, s, c, e);
      case ThinkingEnd(_, _, _) => MirrorEnd(codec, now, s, c, e);
      case CallEnd(_, _, _) => MirrorCallEnd(codec, now, s, c, e);
      case _ => MirrorFrame(codec, now, s, c, e);
    }
  }
}
