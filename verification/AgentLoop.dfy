/** The agent loop: turns of one provider call and its tool calls, until nothing is left to do, the
    turn limit is reached, or something fails.

    The provider, the hooks, the tools, the order in which parallel tools complete and the arrival
    of queued messages are a script the loop does not control; every result holds for every
    script.  Hooks that replace the context are excluded. */
module AgentLoop {
  import opened Wrappers
  import opened Messages
  import opened AgentEvents
  import opened AgentTools
  import opened AgentQueue
  import opened AgentCourse
  import opened AgentLedger

  lemma ReportedSnoc(before: seq<AgentMessage>, results: seq<ToolResult>, r: ToolResult)
    ensures before + ResultMessages(results + [r]) == (before + ResultMessages(results)) + [AgentToolResult(r)]
  {
    ResultMessagesSnoc(results, r);
  }

  function OutcomeIds(outcomes: seq<ToolOutcome>): (ids: seq<string>)
    ensures |ids| == |outcomes|
    ensures forall i :: 0 <= i < |ids| ==> ids[i] == outcomes[i].id
  {
    seq(|outcomes|, i requires 0 <= i < |outcomes| => outcomes[i].id)
  }

  lemma RemoveId(os: seq<ToolOutcome>, at: nat)
    requires at < |os|
    ensures multiset(OutcomeIds(os)) == multiset{os[at].id} + multiset(OutcomeIds(os[..at] + os[at + 1..]))
  {
    var ids := OutcomeIds(os);
    assert ids == ids[..at] + ([os[at].id] + ids[at + 1..]);
    assert OutcomeIds(os[..at] + os[at + 1..]) == ids[..at] + ids[at + 1..];
  }

  lemma TakeAway<T>(x: T, m: multiset<T>)
    ensures (multiset{x} + m) - multiset{x} == m
  {
  }

  lemma CancelOne<T>(x: T, m: multiset<T>, n: multiset<T>)
    requires multiset{x} + m == multiset{x} + n
    ensures m == n
  {
    TakeAway(x, m);
    TakeAway(x, n);
  }

  lemma RemoveFirst(os: seq<ToolOutcome>)
    requires os != []
    ensures multiset(os) == multiset{os[0]} + multiset(os[1..])
  {
    assert os == [os[0]] + os[1..];
  }

  lemma PermutedTail(a: seq<ToolOutcome>, b: seq<ToolOutcome>, j: nat)
    requires a != [] && j < |b| && multiset(a) == multiset(b) && b[j] == a[0]
    ensures multiset(a[1..]) == multiset(b[..j] + b[j + 1..])
  {
    RemoveOne(b, j);
    RemoveFirst(a);
    CancelOne(a[0], multiset(a[1..]), multiset(b[..j] + b[j + 1..]));
  }

  lemma {:induction false} PermutedIds(a: seq<ToolOutcome>, b: seq<ToolOutcome>)
    requires multiset(a) == multiset(b)
    ensures multiset(OutcomeIds(a)) == multiset(OutcomeIds(b))
    decreases |a|
  {
    if a == [] {
      assert |b| == |multiset(b)| == 0;
    } else {
      assert a[0] in multiset(b);
      var j :| 0 <= j < |b| && b[j] == a[0];
      PermutedTail(a, b, j);
      PermutedIds(a[1..], b[..j] + b[j + 1..]);
      IdsAfterRemoval(a, b, j);
    }
  }

  lemma IdsAfterRemoval(a: seq<ToolOutcome>, b: seq<ToolOutcome>, j: nat)
    requires a != [] && j < |b| && b[j] == a[0]
    requires multiset(OutcomeIds(a[1..])) == multiset(OutcomeIds(b[..j] + b[j + 1..]))
    ensures multiset(OutcomeIds(a)) == multiset(OutcomeIds(b))
  {
    RemoveId(b, j);
    RemoveFirstId(a);
  }

  lemma RemoveFirstId(a: seq<ToolOutcome>)
    requires a != []
    ensures multiset(OutcomeIds(a)) == multiset{a[0].id} + multiset(OutcomeIds(a[1..]))
  {
    assert OutcomeIds(a) == [a[0].id] + OutcomeIds(a[1..]);
  }

  lemma TailIds(os: seq<ToolOutcome>, i: nat)
    requires i < |os|
    ensures var open := multiset(OutcomeIds(os[i..]));
            os[i].id in open && open - multiset{os[i].id} == multiset(OutcomeIds(os[i + 1..]))
  {
    RemoveId(os[i..], 0);
    assert os[i..][..0] + os[i..][1..] == os[i + 1..];
  }

  lemma PreparedSnoc(prepared: seq<PreparedCall>, p: PreparedCall)
    ensures var all := ExecutedAll(prepared + [p]);
            && all == ExecutedAll(prepared) + [Executed(p)]
            && multiset(OutcomeIds(all)) == multiset(OutcomeIds(ExecutedAll(prepared))) + multiset{p.call.id}
  {
    assert ExecutedAll(prepared + [p]) == ExecutedAll(prepared) + [Executed(p)];
    assert OutcomeIds(ExecutedAll(prepared) + [Executed(p)]) == OutcomeIds(ExecutedAll(prepared)) + [p.call.id];
  }

  lemma PreparedIsOutcome(i: nat, call: ToolCall, env: ToolEnv)
    ensures match Prepare(i, call, env)
            case Prepared(p) => Executed(p) == OutcomeOf(i, call, env) && p.call == call
            case Immediate(o) => o == OutcomeOf(i, call, env)
  {
  }

  /** The batch so far, as a multiset, is what ended at once and what is still to run. */
  predicate Split(immediate: seq<ToolOutcome>, prepared: seq<PreparedCall>, batch: seq<ToolOutcome>) {
    multiset(immediate) + multiset(ExecutedAll(prepared)) == multiset(batch)
  }

  lemma SplitImmediate(immediate: seq<ToolOutcome>, prepared: seq<PreparedCall>, batch: seq<ToolOutcome>,
                       o: ToolOutcome)
    requires Split(immediate, prepared, batch)
    ensures Split(immediate + [o], prepared, batch + [o])
  {
  }

  lemma SplitPrepared(immediate: seq<ToolOutcome>, prepared: seq<PreparedCall>, batch: seq<ToolOutcome>,
                      p: PreparedCall)
    requires Split(immediate, prepared, batch)
    ensures Split(immediate, prepared + [p], batch + [Executed(p)])
  {
    PreparedSnoc(prepared, p);
  }

  lemma PermutationCovers(outcomes: seq<ToolOutcome>, batch: seq<ToolOutcome>)
    requires multiset(outcomes) == multiset(batch)
    requires forall i :: 0 <= i < |batch| ==> batch[i].index == i
    ensures Covers(outcomes, batch)
  {
    forall i | 0 <= i < |outcomes|
      ensures outcomes[i].index < |batch| && outcomes[i] == batch[outcomes[i].index]
    {
      assert outcomes[i] in multiset(batch);
      assert outcomes[i] in batch;
    }
    forall k | 0 <= k < |batch|
      ensures batch[k] in outcomes
    {
      assert batch[k] in multiset(outcomes);
    }
  }

  // ---------------------------------------------------------------------

  /** A run can only fail inside a turn with no call open, or right after a turn. */
  predicate CanFail(p: Phase) {
    match p
    case InTurn(open, turns) => open == multiset{} && turns > 0
    case BetweenTurns(turns, surplus) => turns > 0 && !surplus
    case _ => false
  }

  lemma FailurePhases(p: Phase, m: AgentMessage)
    requires CanFail(p)
    ensures PhaseStep(PhaseStep(PhaseStep(p, MessageStart(m)), MessageEnd(m)), TurnEnd(m, []))
         == BetweenTurns(p.turns, p.BetweenTurns?)
  {
  }

  /** The last message is an answer that carries an error. */
  predicate EndsInFailure(messages: seq<AgentMessage>) {
    && messages != [] && messages[|messages| - 1].AgentAssistant?
    && messages[|messages| - 1].assistant.errorMessage.Some?
  }

  /** What a listener and the returned log know after some events. */
  datatype Snapshot = Snapshot(
    state: AgentStateValue, kept: seq<AgentEvent>, phase: Phase, reported: seq<AgentMessage>)

  function SnapshotAfter(s: Snapshot, e: AgentEvent): Snapshot {
    Snapshot(Reduce(s.state, e), if IsProgress(e) then s.kept else s.kept + [e], PhaseStep(s.phase, e),
             if e.MessageEnd? then s.reported + [e.message] else s.reported)
  }

  ghost predicate Recounts(start: AgentStateValue, delivered: seq<AgentEvent>, history: seq<Snapshot>) {
    && |history| == |delivered| + 1 && history[0] == Snapshot(start, [], Unstarted, [])
    && forall i | 0 <= i < |delivered| :: history[i + 1] == SnapshotAfter(history[i], delivered[i])
  }

  lemma RecountsSnoc(start: AgentStateValue, delivered: seq<AgentEvent>, history: seq<Snapshot>, e: AgentEvent)
    requires Recounts(start, delivered, history)
    ensures Recounts(start, delivered + [e], history + [SnapshotAfter(history[|delivered|], e)])
  {
    var more, longer := delivered + [e], history + [SnapshotAfter(history[|delivered|], e)];
    forall i | 0 <= i < |more|
      ensures longer[i + 1] == SnapshotAfter(longer[i], more[i])
    {
      if i < |delivered| {
        assert history[i + 1] == SnapshotAfter(history[i], delivered[i]);
      }
    }
  }

  /** The last snapshot is the state the reducer reaches, the log without progress, where that log
      stands and the messages it reports. */
  lemma {:induction false} RecountsEnd(start: AgentStateValue, delivered: seq<AgentEvent>, history: seq<Snapshot>)
    requires Recounts(start, delivered, history)
    ensures history[|delivered|] == Snapshot(ReduceAll(start, delivered), Retained(delivered),
                                             PhaseOf(Retained(delivered)), MessageEnds(Retained(delivered)))
    decreases |delivered|
  {
    if delivered != [] {
      var init := delivered[..|delivered| - 1];
      var e := delivered[|delivered| - 1];
      RecountsEnd(start, init, history[..|delivered|]);
      assert history[|init| + 1] == SnapshotAfter(history[|init|], delivered[|init|]);
      assert delivered == init + [e];
      SnapshotOfLonger(start, init, e);
    }
  }

  lemma SnapshotOfLonger(start: AgentStateValue, init: seq<AgentEvent>, e: AgentEvent)
    ensures var longer := init + [e];
            var before := Snapshot(ReduceAll(start, init), Retained(init), PhaseOf(Retained(init)),
                                   MessageEnds(Retained(init)));
            SnapshotAfter(before, e) == Snapshot(ReduceAll(start, longer), Retained(longer),
                                                 PhaseOf(Retained(longer)), MessageEnds(Retained(longer)))
  {
    assert (init + [e])[..|init|] == init;
    ReduceAllSnoc(start, init, e);
    PhaseSnoc(Retained(init), e);
    MessageEndsSnoc(Retained(init), e);
    assert Retained(init) + [] == Retained(init);
  }

  class Loop {
    const config: LoopConfig
    const sink: AgentState
    const steering: PendingMessageQueue
    const followUps: PendingMessageQueue

    var context: seq<AgentMessage>
    var events: seq<AgentEvent>
    var providerCalls: nat

    /** The context before the run, the sink's state then, and everything delivered since. */
    ghost const original: seq<AgentMessage>
    ghost const sinkStart: AgentStateValue
    ghost var delivered: seq<AgentEvent>
    ghost var history: seq<Snapshot>
    ghost var phase: Phase
    ghost var reported: seq<AgentMessage>

    constructor (config: LoopConfig, sink: AgentState, steering: PendingMessageQueue,
                 followUps: PendingMessageQueue, context: seq<AgentMessage>)
      requires steering != followUps
      ensures this.steering != this.followUps
      ensures this.config == config && this.sink == sink && this.steering == steering && this.followUps == followUps
      ensures this.context == context == original && sinkStart == sink.Value()
      ensures events == [] && delivered == [] && providerCalls == 0
      ensures Consistent() && phase == Unstarted && reported == []
    {
      this.config, this.sink, this.steering, this.followUps := config, sink, steering, followUps;
      this.context, original, sinkStart := context, context, sink.Value();
      events, delivered, providerCalls := [], [], 0;
      history, phase, reported := [Snapshot(sink.Value(), [], Unstarted, [])], Unstarted, [];
    }

    /** The sink has seen every delivered event, the kept log is the delivered one without progress,
        and `phase` and `reported` are where that log stands and which messages it reports. */
    ghost predicate Consistent()
      reads this, sink
    {
      && Recounts(sinkStart, delivered, history)
      && history[|history| - 1] == Snapshot(sink.Value(), events, phase, reported)
    }

    /** The context has grown by exactly the messages whose end was reported. */
    ghost predicate Faithful()
      reads this
    {
      context == original + reported
    }

    method Record(e: AgentEvent)
      requires Consistent()
      modifies this`events, this`delivered, this`history, this`phase, this`reported, sink
      ensures Consistent()
      ensures events == old(events) + (if IsProgress(e) then [] else [e]) && delivered == old(delivered) + [e]
      ensures phase == PhaseStep(old(phase), e)
      ensures reported == old(reported) + if e.MessageEnd? then [e.message] else []
    {
      ghost var next := SnapshotAfter(history[|history| - 1], e);
      RecountsSnoc(sinkStart, delivered, history, e);
      sink.OnEvent(e);
      delivered := delivered + [e];
      history := history + [next];
      phase, reported := next.phase, next.reported;
      if IsProgress(e) {
        return;
      }
      events := events + [e];
    }

    /** The start and end events of one message. */
    method RecordMessage(m: AgentMessage)
      requires Consistent() && phase.InTurn?
      modifies this`events, this`delivered, this`history, this`phase, this`reported, sink
      ensures Consistent() && phase == old(phase)
      ensures reported == old(reported) + [m]
      ensures delivered == old(delivered) + MessageLog(m)
    {
      Record(MessageStart(m));
      Record(MessageEnd(m));
    }

    /** Report one message and put it in the context, before or after its end is reported. */
    method Inject(m: AgentMessage)
      requires Consistent() && Faithful() && phase.InTurn?
      modifies this`events, this`delivered, this`history, this`phase, this`reported, this`context, sink
      ensures Consistent() && Faithful() && phase == old(phase)
      ensures reported == old(reported) + [m]
    {
      Record(MessageStart(m));
      context := context + [m];
      Record(MessageEnd(m));
      assert original + (old(reported) + [m]) == (original + old(reported)) + [m];
    }

    method RecordInjectedMessages(queued: seq<AgentMessage>)
      requires Consistent() && Faithful() && phase.InTurn?
      modifies this`events, this`delivered, this`history, this`phase, this`reported, this`context, sink
      ensures Consistent() && Faithful() && phase == old(phase)
      ensures reported == old(reported) + queued
    {
      ghost var before := reported;
      for i := 0 to |queued|
        invariant Consistent() && Faithful() && phase == old(phase)
        invariant reported == before + queued[..i]
      {
        Inject(queued[i]);
        assert before + queued[..i + 1] == (before + queued[..i]) + [queued[i]];
      }
      assert queued[..|queued|] == queued;
    }

    // -------------------------------------------------------------------
    // Tool calls.

    function MessageLog(m: AgentMessage): (log: seq<AgentEvent>)
      ensures NoneStarts(log)
    {
      [MessageStart(m), MessageEnd(m)]
    }

    /** The result message of one call, reported and put in the context. */
    method InjectResult(outcome: ToolOutcome) returns (result: ToolResult)
      requires Consistent() && Faithful() && phase.InTurn?
      modifies this`events, this`delivered, this`history, this`phase, this`reported, this`context, sink
      ensures result == ResultOf(outcome, config.now)
      ensures Consistent() && Faithful() && phase == old(phase)
      ensures reported == old(reported) + [AgentToolResult(result)]
      ensures delivered == old(delivered) + MessageLog(AgentToolResult(result))
    {
      result := ResultOf(outcome, config.now);
      RecordMessage(AgentToolResult(result));
      context := context + [AgentToolResult(result)];
      assert original + (old(reported) + [AgentToolResult(result)])
          == (original + old(reported)) + [AgentToolResult(result)];
    }

    method StartCall(call: ToolCall)
      requires Consistent() && phase.InTurn?
      modifies this`events, this`delivered, this`history, this`phase, this`reported, sink
      ensures Consistent() && reported == old(reported)
      ensures phase == InTurn(old(phase).open + multiset{call.id}, old(phase).turns)
      ensures delivered == old(delivered) + [ToolStart(call.id, call.name, call.arguments)]
    {
      Record(ToolStart(call.id, call.name, call.arguments));
    }

    method EndCall(outcome: ToolOutcome)
      requires Consistent() && phase.InTurn? && outcome.id in phase.open
      modifies this`events, this`delivered, this`history, this`phase, this`reported, sink
      ensures Consistent() && reported == old(reported)
      ensures phase == InTurn(old(phase).open - multiset{outcome.id}, old(phase).turns)
      ensures delivered == old(delivered) + [ToolEnd(outcome.id, outcome.name, outcome.output, outcome.isError)]
    {
      Record(ToolEnd(outcome.id, outcome.name, outcome.output, outcome.isError));
    }

    /** A cut-off answer: every call fails without being executed. */
    method FailTruncatedCalls(calls: seq<ToolCall>) returns (results: seq<ToolResult>)
      requires Consistent() && Faithful() && phase.InTurn?
      modifies this`events, this`delivered, this`history, this`phase, this`reported, this`context, sink
      ensures Consistent() && Faithful() && phase == old(phase)
      ensures results == ResultsOf(TruncatedOutcomes(calls), config.now)
      ensures reported == old(reported) + ResultMessages(results)
    {
      results := [];
      ghost var before := reported;
      ghost var all := ResultsOf(TruncatedOutcomes(calls), config.now);
      for i := 0 to |calls|
        invariant Consistent() && Faithful() && phase == old(phase)
        invariant results == all[..i]
        invariant reported == before + ResultMessages(results)
      {
        var result := FailTruncatedCall(i, calls[i]);
        ReportedSnoc(before, results, result);
        assert all[..i + 1] == all[..i] + [all[i]];
        results := results + [result];
      }
    }

    method FailTruncatedCall(i: nat, call: ToolCall) returns (result: ToolResult)
      requires Consistent() && Faithful() && phase.InTurn?
      modifies this`events, this`delivered, this`history, this`phase, this`reported, this`context, sink
      ensures Consistent() && Faithful() && phase == old(phase)
      ensures result == ResultOf(TruncatedOutcome(i, call), config.now)
      ensures reported == old(reported) + [AgentToolResult(result)]
    {
      StartCall(call);
      var outcome := TruncatedOutcome(i, call);
      EndCall(outcome);
      result := InjectResult(outcome);
    }

    /** Parallel execution: start every call, run the prepared ones together, report the results in
        source order. */
    method RunParallel(calls: seq<ToolCall>, envs: seq<ToolEnv>, completes: nat -> nat)
      returns (results: seq<ToolResult>, terminate: bool)
      requires |envs| == |calls|
      requires Consistent() && Faithful() && phase.InTurn? && phase.open == multiset{}
      modifies this`events, this`delivered, this`history, this`phase, this`reported, this`context, sink
      ensures Consistent() && Faithful() && phase == old(phase)
      ensures results == ResultsOf(Outcomes(calls, envs), config.now)
      ensures terminate == AllTerminate(Outcomes(calls, envs))
      ensures reported == old(reported) + ResultMessages(results)
      ensures old(delivered) <= delivered && RunsTogether(delivered[|old(delivered)|..], calls, envs)
    {
      ghost var batch := Outcomes(calls, envs);
      var immediate, prepared := PrepareAll(calls, envs);
      ghost var begun := delivered;
      var completed := ExecuteToolCalls(prepared, completes);
      PermutedIds(completed, ExecutedAll(prepared));
      EndAll(completed);
      ghost var ended := delivered;
      var outcomes := immediate + completed;
      assert multiset(outcomes) == multiset(batch);
      results, terminate := ReportBatch(outcomes, batch);
      TogetherSince(old(delivered), begun, ended, delivered, calls, envs);
    }

    /** The results of a batch that has ended in any order, reported in source order. */
    method ReportBatch(outcomes: seq<ToolOutcome>, ghost batch: seq<ToolOutcome>)
      returns (results: seq<ToolResult>, terminate: bool)
      requires multiset(outcomes) == multiset(batch) && forall i :: 0 <= i < |batch| ==> batch[i].index == i
      requires Consistent() && Faithful() && phase.InTurn?
      modifies this`events, this`delivered, this`history, this`phase, this`reported, this`context, sink
      ensures Consistent() && Faithful() && phase == old(phase)
      ensures results == ResultsOf(batch, config.now) && terminate == AllTerminate(batch)
      ensures reported == old(reported) + ResultMessages(results)
      ensures old(delivered) <= delivered && NoneStarts(delivered[|old(delivered)|..])
    {
      PermutationCovers(outcomes, batch);
      CoveringBatchesTerminateAlike(outcomes, batch);
      terminate := AllTerminate(outcomes);
      var ordered := OrderBySource(outcomes);
      SlotsRestoreSourceOrder(outcomes, batch, ordered);
      results := InjectInOrder(ordered, batch);
    }

    lemma TogetherSince(before: seq<AgentEvent>, begun: seq<AgentEvent>, ended: seq<AgentEvent>, now: seq<AgentEvent>,
                        calls: seq<ToolCall>, envs: seq<ToolEnv>)
      requires |envs| == |calls| && before <= begun <= ended <= now
      requires OnlyStoppedEnd(begun[|before|..], calls, envs)
      requires NoneStarts(ended[|begun|..]) && NoneStarts(now[|ended|..])
      ensures before <= now && RunsTogether(now[|before|..], calls, envs)
    {
      var rest := ended[|begun|..] + now[|ended|..];
      assert now[|before|..] == begun[|before|..] + rest;
      StartedThenEnded(begun[|before|..], rest, calls, envs);
    }

    method PrepareAll(calls: seq<ToolCall>, envs: seq<ToolEnv>)
      returns (immediate: seq<ToolOutcome>, prepared: seq<PreparedCall>)
      requires |envs| == |calls|
      requires Consistent() && phase.InTurn? && phase.open == multiset{}
      modifies this`events, this`delivered, this`history, this`phase, this`reported, sink
      ensures Consistent() && reported == old(reported)
      ensures phase
           == InTurn(multiset(OutcomeIds(ExecutedAll(prepared))), old(phase).turns)
      ensures Split(immediate, prepared, Outcomes(calls, envs))
      ensures old(delivered) <= delivered && OnlyStoppedEnd(delivered[|old(delivered)|..], calls, envs)
    {
      immediate, prepared := [], [];
      ghost var batch := Outcomes(calls, envs);
      ghost var turns := phase.turns;
      ghost var started: seq<AgentEvent> := [];
      assert delivered + [] == delivered;
      for i := 0 to |calls|
        invariant Begun(old(delivered), started, calls, envs)
        invariant Consistent() && reported == old(reported)
        invariant StillOpen(prepared, turns)
        invariant Split(immediate, prepared, batch[..i])
      {
        immediate, prepared, started := BeginCall(i, calls, envs, immediate, prepared, old(delivered), started);
      }
      assert batch[..|calls|] == batch;
      Longer(old(delivered), started, []);
    }

    /** Since `before`, calls have been started, and only those that do not run have ended. */
    ghost predicate Begun(before: seq<AgentEvent>, started: seq<AgentEvent>, calls: seq<ToolCall>, envs: seq<ToolEnv>)
      requires |envs| == |calls|
      reads this
    {
      delivered == before + started && OnlyStoppedEnd(started, calls, envs)
    }

    method BeginCall(i: nat, calls: seq<ToolCall>, envs: seq<ToolEnv>, immediate: seq<ToolOutcome>,
                     prepared: seq<PreparedCall>, ghost before: seq<AgentEvent>, ghost started: seq<AgentEvent>)
      returns (immediate': seq<ToolOutcome>, prepared': seq<PreparedCall>, ghost started': seq<AgentEvent>)
      requires i < |calls| == |envs|
      requires Consistent() && phase.InTurn? && StillOpen(prepared, phase.turns)
      requires Split(immediate, prepared, Outcomes(calls, envs)[..i]) && Begun(before, started, calls, envs)
      modifies this`events, this`delivered, this`history, this`phase, this`reported, sink
      ensures Consistent() && reported == old(reported) && StillOpen(prepared', old(phase).turns)
      ensures Split(immediate', prepared', Outcomes(calls, envs)[..i + 1])
      ensures Begun(before, started', calls, envs)
    {
      ghost var batch := Outcomes(calls, envs);
      ghost var next := PreparationLog(calls[i], Prepare(i, calls[i], envs[i]));
      PreparationEndsStopped(i, calls, envs, started);
      Longer(before, started, next);
      assert batch[..i + 1] == batch[..i] + [batch[i]];
      immediate', prepared' := PrepareNext(i, calls[i], envs[i], immediate, prepared, batch[..i]);
      started' := started + next;
    }

    lemma Longer(before: seq<AgentEvent>, more: seq<AgentEvent>, next: seq<AgentEvent>)
      ensures (before + more) + next == before + (more + next)
      ensures (before + more)[|before|..] == more
    {
    }

    lemma PreparationEndsStopped(i: nat, calls: seq<ToolCall>, envs: seq<ToolEnv>, started: seq<AgentEvent>)
      requires i < |calls| == |envs| && OnlyStoppedEnd(started, calls, envs)
      ensures OnlyStoppedEnd(started + PreparationLog(calls[i], Prepare(i, calls[i], envs[i])), calls, envs)
    {
      if Prepare(i, calls[i], envs[i]).Immediate? {
        CallRunsExactlyWhenNothingStopsIt(i, calls[i], envs[i]);
        assert StoppedCall(calls[i].id, calls, envs);
      }
    }

    /** The open calls are the prepared ones. */
    ghost predicate StillOpen(prepared: seq<PreparedCall>, turns: nat)
      reads this
    {
      phase == InTurn(multiset(OutcomeIds(ExecutedAll(prepared))), turns)
    }

    method PrepareNext(i: nat, call: ToolCall, env: ToolEnv, immediate: seq<ToolOutcome>, prepared: seq<PreparedCall>,
                       ghost batch: seq<ToolOutcome>)
      returns (immediate': seq<ToolOutcome>, prepared': seq<PreparedCall>)
      requires Consistent() && phase.InTurn? && StillOpen(prepared, phase.turns)
      requires Split(immediate, prepared, batch)
      modifies this`events, this`delivered, this`history, this`phase, this`reported, sink
      ensures Consistent() && reported == old(reported) && StillOpen(prepared', old(phase).turns)
      ensures Split(immediate', prepared', batch + [OutcomeOf(i, call, env)])
      ensures delivered == old(delivered) + PreparationLog(call, Prepare(i, call, env))
    {
      PreparedIsOutcome(i, call, env);
      var preparation := PrepareToolCall(i, call, env);
      match preparation {
        case Prepared(p) =>
          PreparedSnoc(prepared, p);
          SplitPrepared(immediate, prepared, batch, p);
          return immediate, prepared + [p];
        case Immediate(outcome) =>
          SplitImmediate(immediate, prepared, batch, outcome);
          return immediate + [outcome], prepared;
      }
    }

    function PreparationLog(call: ToolCall, preparation: Preparation): seq<AgentEvent> {
      match preparation
      case Prepared(_) => [ToolStart(call.id, call.name, call.arguments)]
      case Immediate(o) => [ToolStart(call.id, call.name, call.arguments), ToolEnd(o.id, o.name, o.output, o.isError)]
    }

    /** Report the start of a call and prepare it; a call that does not run ends at once. */
    method PrepareToolCall(i: nat, call: ToolCall, env: ToolEnv) returns (preparation: Preparation)
      requires Consistent() && phase.InTurn?
      modifies this`events, this`delivered, this`history, this`phase, this`reported, sink
      ensures Consistent() && reported == old(reported)
      ensures preparation == Prepare(i, call, env)
      ensures phase == InTurn(
                old(phase).open + (if preparation.Prepared? then multiset{call.id} else multiset{}),
                old(phase).turns)
      ensures delivered == old(delivered) + PreparationLog(call, preparation)
    {
      StartCall(call);
      preparation := Prepare(i, call, env);
      if preparation.Immediate? {
        EndCall(preparation.outcome);
      }
    }

    method EndAll(outcomes: seq<ToolOutcome>)
      requires Consistent() && phase.InTurn?
      requires phase.open == multiset(OutcomeIds(outcomes))
      modifies this`events, this`delivered, this`history, this`phase, this`reported, sink
      ensures Consistent() && reported == old(reported)
      ensures phase == InTurn(multiset{}, old(phase).turns)
      ensures old(delivered) <= delivered && NoneStarts(delivered[|old(delivered)|..])
    {
      ghost var turns := phase.turns;
      assert outcomes[0..] == outcomes;
      for i := 0 to |outcomes|
        invariant old(delivered) <= delivered && NoneStarts(delivered[|old(delivered)|..])
        invariant Consistent() && reported == old(reported)
        invariant phase == InTurn(multiset(OutcomeIds(outcomes[i..])), turns)
      {
        TailIds(outcomes, i);
        EndCall(outcomes[i]);
      }
      assert outcomes[|outcomes|..] == [];
    }

    method InjectInOrder(ordered: seq<Option<ToolOutcome>>, ghost batch: seq<ToolOutcome>)
      returns (results: seq<ToolResult>)
      requires |ordered| == |batch| && forall k :: 0 <= k < |batch| ==> ordered[k] == Some(batch[k])
      requires Consistent() && Faithful() && phase.InTurn?
      modifies this`events, this`delivered, this`history, this`phase, this`reported, this`context, sink
      ensures Consistent() && Faithful() && phase == old(phase)
      ensures results == ResultsOf(batch, config.now)
      ensures reported == old(reported) + ResultMessages(results)
      ensures old(delivered) <= delivered && NoneStarts(delivered[|old(delivered)|..])
    {
      results := [];
      ghost var before := reported;
      ghost var all := ResultsOf(batch, config.now);
      for i := 0 to |ordered|
        invariant old(delivered) <= delivered && NoneStarts(delivered[|old(delivered)|..])
        invariant Consistent() && Faithful() && phase == old(phase)
        invariant results == all[..i]
        invariant reported == before + ResultMessages(results)
      {
        if ordered[i].Some? {
          var result := InjectResult(ordered[i].value);
          ReportedSnoc(before, results, result);
          assert all[..i + 1] == all[..i] + [all[i]];
          results := results + [result];
        }
      }
    }

    function CallLog(call: ToolCall, o: ToolOutcome): (log: seq<AgentEvent>)
      ensures o.id == call.id ==> OneCallAtATime(log)
    {
      [ToolStart(call.id, call.name, call.arguments), ToolEnd(o.id, o.name, o.output, o.isError)]
    }

    /** Start, run and end one call. */
    method RunCall(i: nat, call: ToolCall, env: ToolEnv) returns (outcome: ToolOutcome)
      requires Consistent() && phase.InTurn?
      modifies this`events, this`delivered, this`history, this`phase, this`reported, sink
      ensures Consistent() && reported == old(reported)
      ensures phase == old(phase)
      ensures outcome == OutcomeOf(i, call, env)
      ensures delivered == old(delivered) + CallLog(call, outcome)
    {
      StartCall(call);
      var preparation := Prepare(i, call, env);
      match preparation {
        case Prepared(p) => outcome := ExecutePreparedToolCall(p);
        case Immediate(o) => outcome := o;
      }
      EndCall(outcome);
    }

    /** Run one call and report its result, which does not enter the context yet. */
    method RunAndReport(i: nat, call: ToolCall, env: ToolEnv) returns (outcome: ToolOutcome, result: ToolResult)
      requires Consistent() && phase.InTurn?
      modifies this`events, this`delivered, this`history, this`phase, this`reported, sink
      ensures Consistent() && phase == old(phase)
      ensures outcome == OutcomeOf(i, call, env) && result == ResultOf(outcome, config.now)
      ensures reported == old(reported) + [AgentToolResult(result)]
      ensures delivered == old(delivered) + (CallLog(call, outcome) + MessageLog(AgentToolResult(result)))
    {
      outcome := RunCall(i, call, env);
      result := ResultOf(outcome, config.now);
      Longer(old(delivered), CallLog(call, outcome), MessageLog(AgentToolResult(result)));
      RecordMessage(AgentToolResult(result));
    }

    lemma OneMoreRun(before: seq<AgentEvent>, run: seq<AgentEvent>, call: ToolCall, outcome: ToolOutcome,
                     result: ToolResult) returns (longer: seq<AgentEvent>)
      requires OneCallAtATime(run) && outcome.id == call.id
      ensures longer == run + (CallLog(call, outcome) + MessageLog(AgentToolResult(result)))
      ensures (before + run) + (CallLog(call, outcome) + MessageLog(AgentToolResult(result))) == before + longer
      ensures OneCallAtATime(longer)
    {
      var next := CallLog(call, outcome) + MessageLog(AgentToolResult(result));
      longer := run + next;
      OneCallThenAnother(CallLog(call, outcome), MessageLog(AgentToolResult(result)));
      OneCallThenAnother(run, next);
      Longer(before, run, next);
    }

    /** Sequential execution: each call is started, run and reported before the next; the results
        enter the context together at the end. */
    method RunSequential(calls: seq<ToolCall>, envs: seq<ToolEnv>)
      returns (results: seq<ToolResult>, terminate: bool)
      requires |envs| == |calls|
      requires Consistent() && Faithful() && phase.InTurn? && phase.open == multiset{}
      modifies this`events, this`delivered, this`history, this`phase, this`reported, this`context, sink
      ensures Consistent() && Faithful() && phase == old(phase)
      ensures results == ResultsOf(Outcomes(calls, envs), config.now)
      ensures terminate == AllTerminate(Outcomes(calls, envs))
      ensures reported == old(reported) + ResultMessages(results)
      ensures old(delivered) <= delivered && OneCallAtATime(delivered[|old(delivered)|..])
    {
      results := [];
      var outcomes: seq<ToolOutcome> := [];
      ghost var run: seq<AgentEvent> := [];
      assert delivered + [] == delivered;
      ghost var batch := Outcomes(calls, envs);
      ghost var all := ResultsOf(batch, config.now);
      ghost var before := reported;
      for i := 0 to |calls|
        invariant Consistent() && phase == old(phase) && context == old(context)
        invariant outcomes == batch[..i] && results == all[..i]
        invariant delivered == old(delivered) + run && OneCallAtATime(run)
        invariant reported == before + ResultMessages(results)
      {
        var outcome, result := RunAndReport(i, calls[i], envs[i]);
        run := OneMoreRun(old(delivered), run, calls[i], outcome, result);
        ReportedSnoc(before, results, result);
        assert all[..i + 1] == all[..i] + [all[i]] && batch[..i + 1] == batch[..i] + [batch[i]];
        results := results + [result];
        outcomes := outcomes + [outcome];
      }
      assert batch[..|calls|] == batch && all[..|calls|] == all;
      terminate := AllTerminate(outcomes);
      Associate(original, before, ResultMessages(results));
      context := context + ResultMessages(results);
    }

    predicate UseParallel(envs: seq<ToolEnv>) {
      config.parallel && forall i :: 0 <= i < |envs| && envs[i].found ==> !envs[i].sequential
    }

    /** The tool part of a turn.  Its results and its verdict are functions of the calls and of what
        each tool does, not of the execution mode or the order of completion. */
    method RunTools(a: Assistant, script: TurnScript) returns (results: seq<ToolResult>, terminate: bool)
      requires Consistent() && Faithful() && phase.InTurn? && phase.open == multiset{}
      modifies this`events, this`delivered, this`history, this`phase, this`reported, this`context, sink
      ensures Consistent() && Faithful() && phase == old(phase)
      ensures results == TurnResults(a, script.tools, config.now)
      ensures terminate == TurnTerminates(a, script.tools)
      ensures TurnFits(a, script.tools, config.now, results, terminate)
      ensures reported == old(reported) + ResultMessages(results)
      ensures a.stopReason.ToolUse? ==>
        && old(delivered) <= delivered
        && RunAsAsked(config, CallsOf(a.content), EnvsFor(CallsOf(a.content), script.tools),
                      delivered[|old(delivered)|..])
    {
      TurnResultsFit(a, script.tools, config.now);
      var calls := CallsOf(a.content);
      results, terminate := [], false;
      assert reported + ResultMessages([]) == reported;
      if a.stopReason.Length? && calls != [] {
        results := FailTruncatedCalls(calls);
      } else if a.stopReason.ToolUse? {
        var envs := EnvsFor(calls, script.tools);
        if UseParallel(envs) {
          results, terminate := RunParallel(calls, envs, script.completes);
        } else {
          results, terminate := RunSequential(calls, envs);
        }
      }
    }

    // -------------------------------------------------------------------
    // One turn.

    method PassOn(e: StreamEvent)
      requires Consistent() && phase.InTurn?
      modifies this`events, this`delivered, this`history, this`phase, this`reported, sink
      ensures Consistent() && phase == old(phase) && reported == old(reported)
      ensures delivered == old(delivered) + PassedOn(e)
    {
      match e
      case StreamStart(partial) => Record(MessageStart(AgentAssistant(partial)));
      case StreamUpdate(partial) => Record(MessageUpdate(AgentAssistant(partial)));
      case StreamEnded(_) => assert delivered + [] == delivered;
    }

    /** Pass the provider's stream on, and find the message it ends with. */
    method PassStream(stream: seq<StreamEvent>) returns (final: Option<Assistant>, started: bool)
      requires Consistent() && phase.InTurn?
      modifies this`events, this`delivered, this`history, this`phase, this`reported, sink
      ensures Consistent() && phase == old(phase) && reported == old(reported)
      ensures final == FinalOf(stream) && started == HasStart(stream)
      ensures delivered == old(delivered) + StreamLog(stream)
    {
      final, started := None, false;
      ghost var before := delivered;
      for i := 0 to |stream|
        invariant Consistent() && phase == old(phase) && reported == old(reported)
        invariant final == FinalOf(stream[..i]) && started == HasStart(stream[..i])
        invariant delivered == before + StreamLog(stream[..i])
      {
        StreamSnoc(stream, i);
        var e := stream[i];
        PassOn(e);
        if e.StreamStart? {
          started := true;
        } else if e.StreamEnded? {
          final := Some(e.message);
        }
      }
      assert stream[..|stream|] == stream;
    }

    /** The provider's answer: its stream is passed on, and a start is supplied where it had none. */
    method StreamAssistant(script: TurnScript) returns (r: Result<Assistant>)
      requires Consistent() && phase.InTurn?
      modifies this`events, this`delivered, this`history, this`phase, this`reported, sink
      ensures Consistent() && phase == old(phase)
      ensures reported == old(reported)
      ensures r == StreamResult(script)
      ensures delivered == old(delivered) + StreamLog(script.stream)
                           + if r.Success? && !HasStart(script.stream)
                             then [MessageStart(AgentAssistant(r.value))] else []
    {
      var final, started := PassStream(script.stream);
      r := if final.Some? then Success(final.value) else script.lateResult;
      if r.Success? && !started {
        Record(MessageStart(AgentAssistant(r.value)));
      }
    }

    /** A finished turn adds its answer and then its results, which fit; it is the last one when the
        answer itself failed. */
    ghost predicate Answered(a: Assistant, tools: nat -> ToolEnv, outcome: TurnOutcome) {
      && TurnFits(a, tools, config.now, outcome.toolResults, outcome.terminate)
      && outcome.messages == [AgentAssistant(a)] + ResultMessages(outcome.toolResults)
      && (outcome.terminalAssistant <==> a.stopReason.Error? || a.stopReason.Aborted?)
    }

    method RunOneTurn(script: TurnScript) returns (r: Result<TurnOutcome>)
      requires Consistent() && Faithful() && phase.InTurn? && phase.open == multiset{}
      modifies this`events, this`delivered, this`history, this`phase, this`reported, this`context,
               this`providerCalls, sink
      ensures Consistent() && Faithful() && r == TurnResult(script, config.now)
      ensures providerCalls == old(providerCalls) + if script.contextFailure.Some? then 0 else 1
      ensures r.Failure? ==> phase == old(phase) && reported == old(reported)
      ensures r.Success? ==>
        phase == BetweenTurns(old(phase).turns, false) && reported == old(reported) + r.value.messages
      ensures r.Success? ==>
        && StreamResult(script).Success? && Answered(StreamResult(script).value, script.tools, r.value)
    {
      if script.contextFailure.Some? {
        return Failure(script.contextFailure.value);
      }
      providerCalls := providerCalls + 1;
      if script.refusal.Some? {
        return Failure(script.refusal.value);
      }
      var streamed := StreamAssistant(script);
      if streamed.Failure? {
        return Failure(streamed.error);
      }
      var outcome := FinishTurn(streamed.value, script);
      r := Success(outcome);
    }

    /** The assistant's answer enters the transcript, its tools run, and the turn ends. */
    method FinishTurn(assistant: Assistant, script: TurnScript) returns (outcome: TurnOutcome)
      requires Consistent() && Faithful() && phase.InTurn? && phase.open == multiset{}
      modifies this`events, this`delivered, this`history, this`phase, this`reported, this`context, sink
      ensures Consistent() && Faithful()
      ensures phase == BetweenTurns(old(phase).turns, false)
      ensures reported == old(reported) + outcome.messages
      ensures outcome == OutcomeFor(assistant, script.tools, config.now)
      ensures Answered(assistant, script.tools, outcome)
    {
      ghost var before := reported;
      var message := AgentAssistant(assistant);
      context := context + [message];
      Record(MessageEnd(message));
      Associate(original, before, [message]);
      var results, terminate := RunTools(assistant, script);
      Record(TurnEnd(message, results));
      Associate(before, [message], ResultMessages(results));
      outcome := TurnOutcome([message] + ResultMessages(results), results, terminate,
                             assistant.stopReason.Error? || assistant.stopReason.Aborted?);
    }

    // -------------------------------------------------------------------
    // The queues.

    /** The two queues are different objects, and each is first in, first out. */
    ghost predicate QueuesValid()
      reads steering, followUps
    {
      steering != followUps && steering.Valid() && followUps.Valid()
    }

    method Poll(queue: PendingMessageQueue, script: PollScript) returns (r: Result<seq<AgentMessage>>)
      requires queue.Valid()
      modifies queue
      ensures queue.Valid() && queue.received == old(queue.received) + script.arrivals
      ensures (r, queue.messages) == Polled(script, old(queue.messages))
      ensures script.extra == Success([]) ==> r.Success? && queue.taken == old(queue.taken) + r.value
    {
      queue.SetMode(script.mode);
      for i := 0 to |script.arrivals|
        invariant queue.Valid() && queue.taken == old(queue.taken)
        invariant queue.received == old(queue.received) + script.arrivals[..i]
        invariant queue.mode == script.mode && queue.messages == old(queue.messages) + script.arrivals[..i]
      {
        queue.Enqueue(script.arrivals[i]);
      }
      assert script.arrivals[..|script.arrivals|] == script.arrivals;
      var batch := queue.DrainNow();
      match script.extra {
        case Failure(error) => r := Failure(error);
        case Success(more) => r := Success(batch + more);
      }
    }

    /** What waits in the queues. */
    ghost function Waiting(): Queues
      reads steering, followUps
    {
      Queues(steering.messages, followUps.messages)
    }

    /** What happens between turns: the hooks, then steering, then, when neither tool results nor
        steering ask for another turn, the follow-ups. */
    method AfterTurn(script: TurnScript, continues: bool) returns (round: Round)
      requires QueuesValid()
      modifies steering, followUps
      ensures QueuesValid()
      ensures (round, Waiting()) == After(script, continues, old(Waiting()))
    {
      if script.prepareFailure.Some? {
        return RoundFailed(script.prepareFailure.value, true);
      }
      if script.stop.Failure? {
        return RoundFailed(script.stop.error, true);
      }
      if script.stop.value {
        return LastRound;
      }
      var steered := Poll(steering, script.steering);
      if steered.Failure? {
        return RoundFailed(steered.error, true);
      }
      if continues || steered.value != [] {
        return NextRound(steered.value);
      }
      round := AskFollowUps(script);
    }

    method AskFollowUps(script: TurnScript) returns (round: Round)
      requires QueuesValid()
      modifies followUps
      ensures QueuesValid()
      ensures (round, Waiting()) == AfterFollowUps(script, old(Waiting()))
    {
      var followed := Poll(followUps, script.followUp);
      if followed.Failure? {
        return RoundFailed(followed.error, true);
      }
      if followed.value == [] {
        return LastRound;
      }
      return NextRound(followed.value);
    }

    // -------------------------------------------------------------------
    // A whole run.

    /** The turn about to be taken is the first, already started, or comes after `turn` finished ones. */
    ghost predicate AtTurn(turn: nat)
      reads this
    {
      phase == if turn == 0 then InTurn(multiset{}, 1) else BetweenTurns(turn, false)
    }

    /** Where a failed round leaves the log: after its turn, or in it. */
    ghost predicate FailedAt(between: bool, turns: nat)
      reads this
    {
      if between then AtTurn(turns) else phase == InTurn(multiset{}, turns)
    }

    /** Start the turn unless it is the first, inject what the queues gave, and run it. */
    method TakeTurn(turn: nat, script: TurnScript, pending: seq<AgentMessage>) returns (r: Result<TurnOutcome>)
      requires Consistent() && Faithful() && AtTurn(turn)
      modifies this`events, this`delivered, this`history, this`phase, this`reported, this`context,
               this`providerCalls, sink
      ensures Consistent() && Faithful() && r == TurnResult(script, config.now)
      ensures providerCalls == old(providerCalls) + if script.contextFailure.Some? then 0 else 1
      ensures r.Failure? ==> phase == InTurn(multiset{}, turn + 1)
      ensures r.Failure? ==> reported == old(reported) + pending
      ensures r.Success? ==>
        && AtTurn(turn + 1)
        && reported == (old(reported) + pending) + r.value.messages
    {
      Associate(reported, [], []);
      if turn > 0 {
        Record(TurnStart);
      }
      if pending != [] {
        RecordInjectedMessages(pending);
      }
      r := RunOneTurn(script);
    }

    /** The poll before the first turn, unless it is to be skipped. */
    method PollFirst(firstPoll: PollScript) returns (r: Result<seq<AgentMessage>>)
      requires QueuesValid()
      modifies steering
      ensures QueuesValid()
      ensures (r, Waiting()) ==
              if config.skipInitialPoll then (Success([]), old(Waiting()))
              else (Polled(firstPoll, old(Waiting()).steering).0,
                    old(Waiting()).(steering := Polled(firstPoll, old(Waiting()).steering).1))
    {
      if config.skipInitialPoll {
        return Success([]);
      }
      r := Poll(steering, firstPoll);
    }

    /** The run has gone the course so far. */
    ghost predicate Went(before: seq<AgentMessage>, course: Course)
      reads this, steering, followUps
    {
      reported == before + course.messages && providerCalls == course.calls && Waiting() == course.queues
    }

    /** What the run has added so far, followed by what is to come, is the course. */
    ghost predicate OnCourse(script: nat -> TurnScript, before: seq<AgentMessage>, course: Course, turn: nat,
                             pending: seq<AgentMessage>, all: seq<AgentMessage>)
      reads this, steering, followUps
    {
      && reported == before + all
      && course == Prefixed(all, providerCalls, CourseFrom(config, script, turn, pending, Waiting()))
    }

    ghost predicate CourseOver(before: seq<AgentMessage>, course: Course, turn: nat, ending: Ending,
                               all: seq<AgentMessage>)
      reads this, steering, followUps
    {
      Went(before, course) && course.turns == turn && course.ending == ending && course.messages == all
    }

    /** One round of the turn loop keeps the run on its course, or completes it. */
    method FollowCourse(turn: nat, script: nat -> TurnScript, pending: seq<AgentMessage>, all: seq<AgentMessage>,
                        ghost before: seq<AgentMessage>, ghost course: Course)
      returns (round: Round, all': seq<AgentMessage>)
      requires Consistent() && Faithful() && QueuesValid() && AtTurn(turn)
      requires turn < MaxTurns(config) && OnCourse(script, before, course, turn, pending, all)
      modifies this, sink, steering, followUps
      ensures Consistent() && Faithful() && QueuesValid()
      ensures providerCalls <= old(providerCalls) + 1
      ensures if round.RoundFailed? then FailedAt(round.between, turn + 1) else AtTurn(turn + 1)
      ensures match round
              case RoundFailed(error, between) =>
                CourseOver(before, course, turn + 1, CourseFails(error, between), all')
              case LastRound => CourseOver(before, course, turn + 1, CourseEnds, all')
              case NextRound(queued) => OnCourse(script, before, course, turn + 1, queued, all')
    {
      ghost var q, calls := Waiting(), providerCalls;
      var messages;
      round, messages := TakeRound(turn, script(turn), pending);
      CourseGoesOn(config, script, turn, pending, q, all, calls,
                   RoundResult(round, messages, Waiting(), providerCalls - calls));
      Associate(before, all, messages);
      all' := all + messages;
    }

    /** The limit was reached: what the queues gave last is not in the course. */
    lemma CourseAtLimit(script: nat -> TurnScript, before: seq<AgentMessage>, course: Course,
                        pending: seq<AgentMessage>,
                        all: seq<AgentMessage>)
      requires OnCourse(script, before, course, MaxTurns(config), pending, all)
      ensures CourseOver(before, course, MaxTurns(config), LimitHit, all)
    {
      Associate(all, [], []);
    }

    lemma CourseBegins(script: nat -> TurnScript, firstPoll: PollScript, q: Queues, first: Result<seq<AgentMessage>>)
      requires (first, Waiting()) ==
               if config.skipInitialPoll then (Success([]), q)
               else (Polled(firstPoll, q.steering).0, q.(steering := Polled(firstPoll, q.steering).1))
      requires providerCalls == 0
      ensures var course := WholeCourse(config, script, firstPoll, q);
              match first
              case Failure(error) => CourseOver(reported, course, 1, CourseFails(error, false), [])
              case Success(pending) => OnCourse(script, reported, course, 0, pending, [])
    {
      Associate(reported, [], []);
      NothingPrefixed(WholeCourse(config, script, firstPoll, q));
    }

    /** The run proper, up to the point where it succeeds or fails. */
    method RunUntilDone(script: nat -> TurnScript, firstPoll: PollScript)
      returns (r: Result<seq<AgentMessage>>, ghost course: Course)
      requires Consistent() && Faithful() && AtTurn(0) && providerCalls == 0 && QueuesValid()
      modifies this, sink, steering, followUps
      ensures course == WholeCourse(config, script, firstPoll, old(Waiting()))
      ensures Consistent() && Faithful() && QueuesValid() && Went(old(reported), course)
      ensures r == ResultOfCourse(config, course)
      ensures 1 <= course.turns <= MaxTurns(config) && providerCalls <= course.turns
      ensures FailedAt(course.ending.CourseFails? ==> course.ending.between, course.turns)
      ensures course.ending.LimitHit? ==> course.turns == MaxTurns(config)
    {
      ghost var before := reported;
      course := WholeCourse(config, script, firstPoll, Waiting());
      ghost var q := Waiting();
      var first := PollFirst(firstPoll);
      CourseBegins(script, firstPoll, q, first);
      if first.Failure? {
        return Failure(first.error), course;
      }
      var ending, all;
      ending, all := RunRounds(script, first.value, before, course);
      r := match ending
        case CourseEnds => Success(all)
        case CourseFails(error, _) => Failure(error)
        case LimitHit => Failure(LimitMessage(config));
    }

    /** Where a run over a course stands when its rounds are over. */
    ghost predicate Ran(before: seq<AgentMessage>, course: Course, ending: Ending, all: seq<AgentMessage>)
      reads this, steering, followUps
    {
      && CourseOver(before, course, course.turns, ending, all)
      && 1 <= course.turns <= MaxTurns(config) && providerCalls <= course.turns
      && FailedAt(ending.CourseFails? ==> ending.between, course.turns)
      && (ending.LimitHit? ==> course.turns == MaxTurns(config))
    }

    /** One round of the course: how it ends the run, or what the next one begins with. */
    method FollowRound(turn: nat, script: nat -> TurnScript, pending: seq<AgentMessage>, all: seq<AgentMessage>,
                       ghost before: seq<AgentMessage>, ghost course: Course)
      returns (over: Option<Ending>, pending': seq<AgentMessage>, all': seq<AgentMessage>)
      requires Consistent() && Faithful() && QueuesValid() && AtTurn(turn) && providerCalls <= turn
      requires turn < MaxTurns(config) && OnCourse(script, before, course, turn, pending, all)
      modifies this, sink, steering, followUps
      ensures Consistent() && Faithful() && QueuesValid()
      ensures over.Some? ==> Ran(before, course, over.value, all')
      ensures over.None? ==> AtTurn(turn + 1) && providerCalls <= turn + 1
      ensures over.None? ==> OnCourse(script, before, course, turn + 1, pending', all')
    {
      var round;
      round, all' := FollowCourse(turn, script, pending, all, before, course);
      over, pending' := None, [];
      match round {
        case RoundFailed(error, between) => over := Some(CourseFails(error, between));
        case LastRound => over := Some(CourseEnds);
        case NextRound(queued) => pending' := queued;
      }
    }

    /** The turn loop. */
    method RunRounds(script: nat -> TurnScript, first: seq<AgentMessage>, ghost before: seq<AgentMessage>,
                     ghost course: Course)
      returns (ending: Ending, all: seq<AgentMessage>)
      requires Consistent() && Faithful() && QueuesValid() && AtTurn(0) && providerCalls == 0
      requires OnCourse(script, before, course, 0, first, [])
      modifies this, sink, steering, followUps
      ensures Consistent() && Faithful() && QueuesValid()
      ensures Ran(before, course, ending, all)
    {
      all := [];
      var pending := first;
      for turn := 0 to MaxTurns(config)
        invariant Consistent() && Faithful() && QueuesValid() && AtTurn(turn)
        invariant providerCalls <= turn
        invariant OnCourse(script, before, course, turn, pending, all)
      {
        var over;
        over, pending, all := FollowRound(turn, script, pending, all, before, course);
        if over.Some? {
          return over.value, all;
        }
      }
      CourseAtLimit(script, before, course, pending, all);
      ending := LimitHit;
    }

    /** One turn and what comes after it, with the messages it reported. */
    method TakeRound(turn: nat, script: TurnScript, pending: seq<AgentMessage>)
      returns (round: Round, messages: seq<AgentMessage>)
      requires Consistent() && Faithful() && QueuesValid() && AtTurn(turn)
      modifies this, sink, steering, followUps
      ensures Consistent() && Faithful() && QueuesValid()
      ensures old(providerCalls) <= providerCalls <= old(providerCalls) + 1
      ensures RoundResult(round, messages, Waiting(), providerCalls - old(providerCalls))
           == RoundFor(script, config.now, pending, old(Waiting()))
      ensures reported == old(reported) + messages
      ensures if round.RoundFailed? then FailedAt(round.between, turn + 1) else AtTurn(turn + 1)
    {
      ghost var start := reported;
      var turned := TakeTurn(turn, script, pending);
      if turned.Failure? {
        return RoundFailed(turned.error, false), pending;
      }
      var outcome := turned.value;
      Associate(start, pending, outcome.messages);
      messages := pending + outcome.messages;
      if outcome.terminalAssistant {
        return LastRound, messages;
      }
      var continues := !outcome.terminate && outcome.toolResults != [];
      FailsBetweenTurns(script, continues, Waiting());
      round := AfterTurn(script, continues);
    }

    lemma FailsBetweenTurns(script: TurnScript, continues: bool, q: Queues)
      ensures var round := After(script, continues, q).0;
              round.RoundFailed? ==> round.between
    {
    }

    function FailureMessage(error: string): AgentMessage {
      AgentAssistant(Assistant([TextBlock("", None)], config.api, config.provider, config.model,
        if config.aborted then Aborted else Error, Some(error), config.now))
    }

    /** A failed run ends with one error answer, in the turn that failed or in a surplus one. */
    method FinishWithError(originalLen: nat, error: string) returns (messages: seq<AgentMessage>)
      requires Consistent() && Faithful() && originalLen == |original|
      requires CanFail(phase)
      modifies this`events, this`delivered, this`history, this`phase, this`reported, this`context, sink
      ensures Consistent() && Faithful() && messages == reported
      ensures reported == old(reported) + [FailureMessage(error)]
      ensures IsFailureAnswer(config, reported[|reported| - 1], error)
      ensures phase == BetweenTurns(old(phase).turns, old(phase).BetweenTurns?)
    {
      var message := FailureMessage(error);
      FailurePhases(phase, message);
      Associate(original, reported, [message]);
      Record(MessageStart(message));
      context := context + [message];
      Record(MessageEnd(message));
      Record(TurnEnd(message, []));
      messages := context[originalLen..];
    }

    /** The log begins with the only AgentStart and ends with the only AgentEnd. */
    predicate Framed(log: seq<AgentEvent>) {
      forall i :: 0 <= i < |log| ==> (log[i].AgentStart? <==> i == 0) && (log[i].AgentEnd? <==> i == |log| - 1)
    }

    /** What every finished run leaves behind: four transcripts that agree, and a framed log that is
        what was delivered without progress. */
    ghost predicate Completed(messages: seq<AgentMessage>)
      reads this, sink
    {
      && events == Retained(delivered) && NoProgress(events) && Framed(events)
      && phase == PhaseOf(events) && reported == MessageEnds(events)
      && messages == MessageEnds(events)
      && context == original + messages
      && sink.messages == sinkStart.messages + messages
      && events != [] && events[|events| - 1] == AgentEnd(messages)
      && PhaseOf(events).Finished? && 1 <= PhaseOf(events).turns <= MaxTurns(config)
      && providerCalls <= PhaseOf(events).turns
      && (sinkStart.pendingToolCalls == {} ==> sink.pendingToolCalls == {})
      && (PhaseOf(events).surplus ==> EndsInFailure(messages))
    }

    /** The end of a run is reported. */
    method Close(messages: seq<AgentMessage>)
      requires Consistent() && Faithful() && messages == reported
      requires phase.BetweenTurns? && 1 <= phase.turns <= MaxTurns(config)
      requires providerCalls <= phase.turns && (phase.surplus ==> EndsInFailure(messages))
      modifies this`events, this`delivered, this`history, this`phase, this`reported, sink
      ensures Consistent() && Completed(messages)
      ensures phase == Finished(old(phase).turns, old(phase).surplus)
    {
      Record(AgentEnd(messages));
      ClosedLogIsCompleted(messages);
    }

    lemma ClosedLogIsCompleted(messages: seq<AgentMessage>)
      requires Consistent() && Faithful() && messages == reported
      requires phase.Finished? && 1 <= phase.turns <= MaxTurns(config) && providerCalls <= phase.turns
      requires phase.surplus ==> EndsInFailure(messages)
      requires events != [] && events[|events| - 1] == AgentEnd(messages)
      ensures Completed(messages)
    {
      LogTellsAll();
      LogIsFramed();
      ListenerAgrees();
    }

    lemma LogIsFramed()
      requires events == Retained(delivered) && PhaseOf(events).Finished?
      ensures NoProgress(events) && Framed(events)
    {
      RetainedHasNoProgress(delivered);
      FinishedLogIsFramed(events);
    }

    /** What the ghost fields say is what the kept log says. */
    lemma LogTellsAll()
      requires Consistent()
      ensures phase == PhaseOf(events) && reported == MessageEnds(events) && events == Retained(delivered)
    {
      RecountsEnd(sinkStart, delivered, history);
    }

    /** The listener has grown by the reported messages, and has no call pending when the log is finished. */
    lemma ListenerAgrees()
      requires Consistent() && phase.Finished?
      ensures sink.messages == sinkStart.messages + reported
      ensures sinkStart.pendingToolCalls == {} ==> sink.pendingToolCalls == {}
    {
      RecountsEnd(sinkStart, delivered, history);
      ReducerFollowsTheLog(sinkStart, delivered);
      RetainedKeepsPhase(delivered);
      if sinkStart.pendingToolCalls == {} {
        PendingFollowsPhase(sinkStart, delivered);
      }
    }

    /** Turn a failure into an error answer, and close the log. */
    method Settle(r: Result<seq<AgentMessage>>, prompts: seq<AgentMessage>, originalLen: nat)
      returns (messages: seq<AgentMessage>)
      requires Consistent() && Faithful() && originalLen == |original|
      requires CanFail(phase) && phase.turns <= MaxTurns(config)
      requires providerCalls <= phase.turns
      requires r.Success? ==> phase.BetweenTurns? && reported == prompts + r.value
      modifies this`events, this`delivered, this`history, this`phase, this`reported, this`context, sink
      ensures Consistent() && Completed(messages)
      ensures messages == old(reported) + if r.Success? then [] else [FailureMessage(r.error)]
      ensures phase == Finished(old(phase).turns, r.Failure? && old(phase).BetweenTurns?)
    {
      if r.Success? {
        messages := prompts + r.value;
      } else {
        messages := FinishWithError(originalLen, r.error);
      }
      Close(messages);
    }

    /** What a run returns: the prompts, the course's messages and, unless it went well, an error answer. */
    ghost function Returned(prompts: seq<AgentMessage>, course: Course): seq<AgentMessage> {
      var r := ResultOfCourse(config, course);
      prompts + course.messages + if r.Success? then [] else [FailureMessage(r.error)]
    }

    lemma ReturnedSays(prompts: seq<AgentMessage>, course: Course)
      ensures SaysHowItEnded(config, course, Returned(prompts, course))
    {
    }

    /** Run until done, then settle. */
    method RunAndClose(script: nat -> TurnScript, firstPoll: PollScript, prompts: seq<AgentMessage>, originalLen: nat)
      returns (messages: seq<AgentMessage>, ghost course: Course)
      requires Consistent() && Faithful() && AtTurn(0) && providerCalls == 0 && prompts == reported
      requires originalLen == |original| && QueuesValid()
      modifies this, sink, steering, followUps
      ensures course == WholeCourse(config, script, firstPoll, old(Waiting()))
      ensures Consistent() && Completed(messages) && QueuesValid()
      ensures messages == Returned(prompts, course)
      ensures phase == Finished(course.turns, FailsBetween(course))
      ensures providerCalls == course.calls && Waiting() == course.queues
      ensures course.ending.LimitHit? ==> course.turns == MaxTurns(config)
    {
      var r: Result<seq<AgentMessage>>;
      r, course := RunUntilDone(script, firstPoll);
      assert CanFail(phase) && phase.turns == course.turns;
      messages := Settle(r, prompts, originalLen);
    }

    /** Nothing has happened yet. */
    ghost predicate Fresh()
      reads this, sink, steering, followUps
    {
      context == original && NothingReported()
    }

    ghost predicate NothingReported()
      reads this, sink, steering, followUps
    {
      && events == [] && delivered == [] && providerCalls == 0
      && Consistent() && phase == Unstarted && reported == []
      && sink.Value() == sinkStart && QueuesValid()
    }

    method Begin()
      requires NothingReported()
      modifies this`events, this`delivered, this`history, this`phase, this`reported, sink
      ensures Consistent() && AtTurn(0) && reported == []
    {
      Record(AgentStart);
      Record(TurnStart);
    }

    /** A run that starts from prompts. */
    method PromptMessages(prompts: seq<AgentMessage>, script: nat -> TurnScript, firstPoll: PollScript)
      returns (messages: seq<AgentMessage>, log: seq<AgentEvent>, ghost course: Course)
      requires Fresh()
      modifies this, sink, steering, followUps
      ensures course == WholeCourse(config, script, firstPoll, old(Waiting()))
      ensures log == events && Completed(messages) && QueuesValid()
      ensures messages == Returned(prompts, course) && SaysHowItEnded(config, course, messages)
      ensures PhaseOf(log) == Finished(course.turns, FailsBetween(course))
      ensures providerCalls == course.calls && Waiting() == course.queues
      ensures course.ending.LimitHit? ==> course.turns == MaxTurns(config)
      ensures Balances(config, script, firstPoll, old(Waiting()), course)
    {
      var originalLen := |context|;
      context := context + prompts;
      Begin();
      for i := 0 to |prompts|
        invariant Consistent() && AtTurn(0) && reported == prompts[..i]
        invariant context == original + prompts && providerCalls == 0
        invariant QueuesValid() && Waiting() == old(Waiting())
      {
        RecordMessage(prompts[i]);
        assert prompts[..i + 1] == prompts[..i] + [prompts[i]];
      }
      assert prompts[..|prompts|] == prompts;
      RunBalances(config, script, firstPoll, Waiting());
      messages, course := RunAndClose(script, firstPoll, prompts, originalLen);
      ReturnedSays(prompts, course);
      log := events;
    }

    /** A run that continues from the transcript; it refuses, without reporting anything, when there
        is none or when it ends with an answer. */
    method ContinueRun(script: nat -> TurnScript, firstPoll: PollScript)
      returns (r: Result<(seq<AgentMessage>, seq<AgentEvent>)>, ghost course: Course)
      requires Fresh()
      modifies this, sink, steering, followUps
      ensures r.Failure? <==> original == [] || original[|original| - 1].AgentAssistant?
      ensures r.Failure? ==> Fresh()
      ensures course == WholeCourse(config, script, firstPoll, old(Waiting()))
      ensures r.Success? ==>
        && r.value.1 == events && Completed(r.value.0) && QueuesValid()
        && r.value.0 == Returned([], course) && SaysHowItEnded(config, course, r.value.0)
        && PhaseOf(events) == Finished(course.turns, FailsBetween(course))
        && providerCalls == course.calls && Waiting() == course.queues
        && (course.ending.LimitHit? ==> course.turns == MaxTurns(config))
        && Balances(config, script, firstPoll, old(Waiting()), course)
    {
      course := WholeCourse(config, script, firstPoll, Waiting());
      if context == [] {
        return Failure("Cannot continue: no messages in context"), course;
      }
      if context[|context| - 1].AgentAssistant? {
        return Failure("Cannot continue from message role: assistant"), course;
      }
      var originalLen := |context|;
      Begin();
      Associate(original, [], []);
      RunBalances(config, script, firstPoll, Waiting());
      var messages: seq<AgentMessage>;
      messages, course := RunAndClose(script, firstPoll, [], originalLen);
      ReturnedSays([], course);
      r := Success((messages, events));
    }
  }
}
