/** The agent's messages and events, the state a listener keeps from them, and the grammar of an
    event log. */
module AgentEvents {
  import opened Wrappers
  import opened Messages

  datatype AgentMessage =
    | AgentUser(content: UserContent, timestamp: int)
    | AgentAssistant(assistant: Assistant)
    | AgentToolResult(result: ToolResult)
    | AgentCustom(value: string)

  datatype ToolOutput = ToolOutput(content: seq<Part>, addedToolNames: Option<seq<string>>, terminate: bool)

  datatype AgentEvent =
    | AgentStart
    | AgentEnd(messages: seq<AgentMessage>)
    | TurnStart
    | TurnEnd(message: AgentMessage, toolResults: seq<ToolResult>)
    | MessageStart(message: AgentMessage)
    | MessageUpdate(message: AgentMessage)
    | MessageEnd(message: AgentMessage)
    | ToolStart(id: string, name: string, args: string)
    | ToolUpdate(id: string, name: string)
    | ToolEnd(id: string, name: string, output: ToolOutput, isError: bool)

  /** Progress events reach the sink but are not kept in the returned log. */
  predicate IsProgress(e: AgentEvent) {
    e.MessageUpdate? || e.ToolUpdate?
  }

  function Retained(events: seq<AgentEvent>): seq<AgentEvent> {
    if events == [] then []
    else
      Retained(events[..|events| - 1])
      + if IsProgress(events[|events| - 1]) then [] else [events[|events| - 1]]
  }

  /** The messages whose end the log reports. */
  function MessageEnds(events: seq<AgentEvent>): seq<AgentMessage> {
    if events == [] then []
    else
      MessageEnds(events[..|events| - 1])
      + if events[|events| - 1].MessageEnd? then [events[|events| - 1].message] else []
  }

  lemma MessageEndsSnoc(events: seq<AgentEvent>, e: AgentEvent)
    ensures MessageEnds(events + [e]) == MessageEnds(events) + if e.MessageEnd? then [e.message] else []
  {
    assert (events + [e])[..|events|] == events;
  }

  // ---------------------------------------------------------------------
  // The reducer.

  datatype AgentStateValue = AgentStateValue(
    messages: seq<AgentMessage>, streaming: Option<AgentMessage>, pendingToolCalls: set<string>,
    errorMessage: Option<string>)

  function Reduce(state: AgentStateValue, e: AgentEvent): AgentStateValue {
    match e
    case AgentEnd(_) => state.(streaming := None)
    case TurnEnd(message, _) =>
      if message.AgentAssistant? && message.assistant.errorMessage.Some?
      then state.(errorMessage := message.assistant.errorMessage) else state
    case MessageStart(message) => state.(streaming := Some(message))
    case MessageUpdate(message) => state.(streaming := Some(message))
    case MessageEnd(message) => state.(streaming := None, messages := state.messages + [message])
    case ToolStart(id, _, _) => state.(pendingToolCalls := state.pendingToolCalls + {id})
    case ToolEnd(id, _, _, _) => state.(pendingToolCalls := state.pendingToolCalls - {id})
    case _ => state
  }

  function ReduceAll(state: AgentStateValue, events: seq<AgentEvent>): AgentStateValue {
    if events == [] then state
    else Reduce(ReduceAll(state, events[..|events| - 1]), events[|events| - 1])
  }

  lemma ReduceAllSnoc(state: AgentStateValue, events: seq<AgentEvent>, e: AgentEvent)
    ensures ReduceAll(state, events + [e]) == Reduce(ReduceAll(state, events), e)
    ensures Retained(events + [e]) == Retained(events) + if IsProgress(e) then [] else [e]
  {
    assert (events + [e])[..|events|] == events;
  }

  /** The listener's transcript grows by exactly the messages whose end the returned log reports. */
  lemma {:induction false} ReducerFollowsTheLog(state: AgentStateValue, delivered: seq<AgentEvent>)
    ensures ReduceAll(state, delivered).messages == state.messages + MessageEnds(Retained(delivered))
  {
    if delivered != [] {
      var init := delivered[..|delivered| - 1];
      var last := delivered[|delivered| - 1];
      ReducerFollowsTheLog(state, init);
      if !IsProgress(last) {
        MessageEndsSnoc(Retained(init), last);
      } else {
        assert Retained(init) + [] == Retained(init);
      }
    }
  }

  /** The events that decide what a listener shows as being streamed. */
  predicate MovesStream(e: AgentEvent) {
    e.MessageStart? || e.MessageUpdate? || e.MessageEnd? || e.AgentEnd?
  }

  predicate NamesCall(e: AgentEvent, id: string) {
    (e.ToolStart? || e.ToolEnd?) && e.id == id
  }

  predicate CarriesError(e: AgentEvent) {
    e.TurnEnd? && e.message.AgentAssistant? && e.message.assistant.errorMessage.Some?
  }

  /** Nothing after event `i` decides the matter again. */
  ghost predicate IsLast(events: seq<AgentEvent>, i: nat, decides: AgentEvent -> bool)
    requires i < |events|
  {
    decides(events[i]) && forall j :: i < j < |events| ==> !decides(events[j])
  }

  lemma LastOfLonger(events: seq<AgentEvent>, i: nat, decides: AgentEvent -> bool)
    requires i < |events| && IsLast(events, i, decides) && i < |events| - 1
    ensures IsLast(events[..|events| - 1], i, decides) && !decides(events[|events| - 1])
  {
  }

  /** What a listener shows is settled by the last event that concerns it: the message being streamed
      by the last start, update or end of a message, whether a call is pending by the last start or end
      of that call, and the error by the last turn that ended in one. */
  lemma {:induction false} ListenerShowsTheLast(state: AgentStateValue, events: seq<AgentEvent>, i: nat, id: string)
    requires i < |events|
    ensures IsLast(events, i, MovesStream) ==>
              ReduceAll(state, events).streaming
              == if events[i].MessageStart? || events[i].MessageUpdate? then Some(events[i].message) else None
    ensures IsLast(events, i, e => NamesCall(e, id)) ==>
              (id in ReduceAll(state, events).pendingToolCalls <==> events[i].ToolStart?)
    ensures IsLast(events, i, CarriesError) ==>
              ReduceAll(state, events).errorMessage == events[i].message.assistant.errorMessage
  {
    var init := events[..|events| - 1];
    var last := events[|events| - 1];
    if i < |events| - 1 {
      ListenerShowsTheLast(state, init, i, id);
      if IsLast(events, i, MovesStream) {
        LastOfLonger(events, i, MovesStream);
      }
      if IsLast(events, i, e => NamesCall(e, id)) {
        LastOfLonger(events, i, e => NamesCall(e, id));
      }
      if IsLast(events, i, CarriesError) {
        LastOfLonger(events, i, CarriesError);
      }
    }
  }

  // ---------------------------------------------------------------------
  // The grammar of a log.

  /** Where a log stands.  `open` holds the ids of the tool calls started and not ended; `surplus`
      says that a failure between turns was closed with one turn end of its own. */
  datatype Phase =
    | Unstarted
    | BetweenTurns(turns: nat, surplus: bool)
    | InTurn(open: multiset<string>, turns: nat)
    | Closing(turns: nat)
    | Finished(turns: nat, surplus: bool)
    | Broken

  function PhaseStep(p: Phase, e: AgentEvent): Phase {
    if IsProgress(e) then p
    else
      match p
      case Unstarted => if e.AgentStart? then BetweenTurns(0, false) else Broken
      case BetweenTurns(turns, surplus) =>
        if e.AgentEnd? then Finished(turns, surplus)
        else if surplus then Broken
        else if e.TurnStart? then InTurn(multiset{}, turns + 1)
        else if e.MessageStart? && turns > 0 then Closing(turns)
        else Broken
      case InTurn(open, turns) =>
        (match e
         case MessageStart(_) => p
         case MessageEnd(_) => p
         case ToolStart(id, _, _) => InTurn(open + multiset{id}, turns)
         case ToolEnd(id, _, _, _) => if id in open then InTurn(open - multiset{id}, turns) else Broken
         case TurnEnd(_, _) => if open == multiset{} then BetweenTurns(turns, false) else Broken
         case _ => Broken)
      case Closing(turns) =>
        if e.MessageEnd? then p else if e.TurnEnd? then BetweenTurns(turns, true) else Broken
      case Finished(_, _) => Broken
      case Broken => Broken
  }

  function PhaseOf(events: seq<AgentEvent>): Phase {
    if events == [] then Unstarted
    else PhaseStep(PhaseOf(events[..|events| - 1]), events[|events| - 1])
  }

  lemma PhaseSnoc(events: seq<AgentEvent>, e: AgentEvent)
    ensures PhaseOf(events + [e]) == PhaseStep(PhaseOf(events), e)
  {
    assert (events + [e])[..|events|] == events;
  }

  /** Progress events do not move the grammar, so the delivered log and the kept one stand alike. */
  lemma {:induction false} RetainedKeepsPhase(events: seq<AgentEvent>)
    ensures PhaseOf(Retained(events)) == PhaseOf(events)
  {
    if events != [] {
      var init := events[..|events| - 1];
      RetainedKeepsPhase(init);
      if IsProgress(events[|init|]) {
        assert Retained(init) + [] == Retained(init);
      } else {
        PhaseSnoc(Retained(init), events[|init|]);
      }
    }
  }

  function TurnStarts(events: seq<AgentEvent>): nat {
    if events == [] then 0
    else TurnStarts(events[..|events| - 1]) + if events[|events| - 1].TurnStart? then 1 else 0
  }

  function TurnEnds(events: seq<AgentEvent>): nat {
    if events == [] then 0
    else TurnEnds(events[..|events| - 1]) + if events[|events| - 1].TurnEnd? then 1 else 0
  }

  /** In a log that follows the grammar, turn starts and ends alternate; at the end they differ by
      at most the one surplus end of a failure between turns. */
  lemma {:induction false} TurnsAlternate(events: seq<AgentEvent>)
    ensures match PhaseOf(events)
            case Unstarted => TurnStarts(events) == TurnEnds(events) == 0
            case BetweenTurns(turns, surplus) =>
              TurnStarts(events) == turns && TurnEnds(events) == turns + (if surplus then 1 else 0)
            case InTurn(_, turns) => TurnStarts(events) == turns && TurnEnds(events) + 1 == turns
            case Closing(turns) => TurnStarts(events) == TurnEnds(events) == turns
            case Finished(turns, surplus) =>
              TurnStarts(events) == turns && TurnEnds(events) == turns + (if surplus then 1 else 0)
            case Broken => true
  {
    if events != [] {
      TurnsAlternate(events[..|events| - 1]);
    }
  }

  predicate NoProgress(events: seq<AgentEvent>) {
    forall i :: 0 <= i < |events| ==> !IsProgress(events[i])
  }

  lemma {:induction false} RetainedHasNoProgress(events: seq<AgentEvent>)
    ensures NoProgress(Retained(events))
  {
    if events != [] {
      RetainedHasNoProgress(events[..|events| - 1]);
    }
  }

  lemma FrameStep(p: Phase, e: AgentEvent)
    requires !IsProgress(e) && PhaseStep(p, e) != Broken
    ensures !p.Finished? && p != Broken && !PhaseStep(p, e).Unstarted?
    ensures e.AgentStart? <==> p.Unstarted?
    ensures e.AgentEnd? <==> PhaseStep(p, e).Finished?
  {
  }

  /** A log that follows the grammar starts with AgentStart and holds no other; it holds AgentEnd
      only as its last event, and exactly when it is finished. */
  lemma {:induction false} FinishedLogIsFramed(events: seq<AgentEvent>)
    requires NoProgress(events) && PhaseOf(events) != Broken
    ensures events == [] <==> PhaseOf(events).Unstarted?
    ensures forall i :: 0 <= i < |events| ==> (events[i].AgentStart? <==> i == 0)
    ensures forall i :: 0 <= i < |events| && events[i].AgentEnd? ==> i == |events| - 1 && PhaseOf(events).Finished?
    ensures PhaseOf(events).Finished? ==> events[|events| - 1].AgentEnd?
  {
    if events != [] {
      var init := events[..|events| - 1];
      assert forall i :: 0 <= i < |init| ==> init[i] == events[i];
      FrameStep(PhaseOf(init), events[|init|]);
      FinishedLogIsFramed(init);
    }
  }

  predicate Within(s: set<string>, m: multiset<string>) {
    forall x :: x in s ==> x in m
  }

  predicate PendingFits(pending: set<string>, p: Phase) {
    if p.InTurn? then Within(pending, p.open) else pending == {}
  }

  lemma PendingStep(state: AgentStateValue, p: Phase, e: AgentEvent)
    requires PendingFits(state.pendingToolCalls, p) && PhaseStep(p, e) != Broken
    ensures PendingFits(Reduce(state, e).pendingToolCalls, PhaseStep(p, e))
    ensures e.TurnEnd? ==> state.pendingToolCalls == {}
  {
    if e.TurnEnd? && p.InTurn? {
      assert forall x :: x in state.pendingToolCalls ==> x in p.open;
    }
  }

  lemma {:induction false} PendingFollowsPhase(state: AgentStateValue, events: seq<AgentEvent>)
    requires state.pendingToolCalls == {} && PhaseOf(events) != Broken
    ensures PendingFits(ReduceAll(state, events).pendingToolCalls, PhaseOf(events))
  {
    if events != [] {
      var init := events[..|events| - 1];
      PendingFollowsPhase(state, init);
      PendingStep(ReduceAll(state, init), PhaseOf(init), events[|events| - 1]);
    }
  }

  lemma {:induction false} UnbrokenPrefix(events: seq<AgentEvent>, i: nat)
    requires i <= |events| && PhaseOf(events) != Broken
    ensures PhaseOf(events[..i]) != Broken
    decreases |events|
  {
    if i < |events| {
      UnbrokenPrefix(events[..|events| - 1], i);
      assert events[..|events| - 1][..i] == events[..i];
    } else {
      assert events[..i] == events;
    }
  }

  /** The listener's pending set never holds more than the calls the grammar has open, so it is
      empty whenever a turn ends. */
  lemma PendingSetEmptyAtTurnEnds(state: AgentStateValue, events: seq<AgentEvent>, i: nat)
    requires state.pendingToolCalls == {} && PhaseOf(events) != Broken
    requires i < |events| && events[i].TurnEnd?
    ensures ReduceAll(state, events[..i]).pendingToolCalls == {}
  {
    UnbrokenPrefix(events, i);
    UnbrokenPrefix(events, i + 1);
    OneMoreEvent(events, i);
    NothingPendsAtTurnEnd(state, events[..i], events[i]);
  }

  lemma OneMoreEvent(events: seq<AgentEvent>, i: nat)
    requires i < |events|
    ensures PhaseOf(events[..i + 1]) == PhaseStep(PhaseOf(events[..i]), events[i])
  {
    assert events[..i + 1] == events[..i] + [events[i]];
    PhaseSnoc(events[..i], events[i]);
  }

  lemma NothingPendsAtTurnEnd(state: AgentStateValue, before: seq<AgentEvent>, e: AgentEvent)
    requires state.pendingToolCalls == {} && PhaseOf(before) != Broken
    requires PhaseStep(PhaseOf(before), e) != Broken && e.TurnEnd?
    ensures ReduceAll(state, before).pendingToolCalls == {}
  {
    PendingFollowsPhase(state, before);
    PendingStep(ReduceAll(state, before), PhaseOf(before), e);
  }

  /** The state object the event sink updates in place. */
  class AgentState {
    var messages: seq<AgentMessage>
    var streaming: Option<AgentMessage>
    var pendingToolCalls: set<string>
    var errorMessage: Option<string>

    function Value(): AgentStateValue
      reads this
    {
      AgentStateValue(messages, streaming, pendingToolCalls, errorMessage)
    }

    constructor (messages: seq<AgentMessage>)
      ensures Value() == AgentStateValue(messages, None, {}, None)
    {
      this.messages := messages;
      streaming, pendingToolCalls, errorMessage := None, {}, None;
    }

    method OnEvent(e: AgentEvent)
      modifies this
      ensures Value() == Reduce(old(Value()), e)
    {
      match e
      case AgentEnd(_) =>
        streaming := None;
      case TurnEnd(message, _) =>
        if message.AgentAssistant? && message.assistant.errorMessage.Some? {
          errorMessage := message.assistant.errorMessage;
        }
      case MessageStart(message) =>
        streaming := Some(message);
      case MessageUpdate(message) =>
        streaming := Some(message);
      case MessageEnd(message) =>
        streaming := None;
        messages := messages + [message];
      case ToolStart(id, _, _) =>
        pendingToolCalls := pendingToolCalls + {id};
      case ToolEnd(id, _, _, _) =>
        pendingToolCalls := pendingToolCalls - {id};
      case _ =>
    }
  }
}
