/** What a run of the agent loop amounts to, as a function of everything the loop does not control:
    the provider, the hooks, the tools and the arrival of queued messages are a script. */
module AgentCourse {
  import opened Wrappers
  import opened Text
  import opened Messages
  import opened AgentEvents
  import opened AgentTools
  import opened AgentQueue

  datatype StreamEvent =
    | StreamStart(partial: Assistant)
    | StreamUpdate(partial: Assistant)
    | StreamEnded(message: Assistant)

  /** A poll of one queue: the mode it is in and what has arrived by then, and what the caller's own
      provider adds. */
  datatype PollScript = PollScript(mode: QueueMode, arrivals: seq<AgentMessage>, extra: Result<seq<AgentMessage>>)

  datatype TurnScript = TurnScript(
    contextFailure: Option<string>,
    refusal: Option<string>,
    stream: seq<StreamEvent>,
    lateResult: Result<Assistant>,
    tools: nat -> ToolEnv,
    completes: nat -> nat,
    prepareFailure: Option<string>,
    stop: Result<bool>,
    steering: PollScript,
    followUp: PollScript)

  datatype LoopConfig = LoopConfig(
    api: string, provider: string, model: string, parallel: bool, maxTurns: nat,
    skipInitialPoll: bool, aborted: bool, now: int)

  datatype TurnOutcome = TurnOutcome(
    messages: seq<AgentMessage>, toolResults: seq<ToolResult>, terminate: bool, terminalAssistant: bool)

  /** The caller's own providers never fail, and add nothing. */
  ghost predicate QuietProviders(script: nat -> TurnScript) {
    forall i: nat :: script(i).steering.extra == Success([]) && script(i).followUp.extra == Success([])
  }

  /** Only the loop's own queues deliver messages. */
  ghost predicate InternalOnly(script: nat -> TurnScript, firstPoll: PollScript) {
    firstPoll.extra == Success([]) && QuietProviders(script)
  }

  /** The configured limit, and at least one turn. */
  function MaxTurns(config: LoopConfig): (n: nat)
    ensures n >= 1 && n >= config.maxTurns && (n == 1 || n == config.maxTurns)
  {
    if config.maxTurns > 1 then config.maxTurns else 1
  }

  // ---------------------------------------------------------------------
  // What a turn's tool calls amount to, whatever runs them.

  function EnvsFor(calls: seq<ToolCall>, tools: nat -> ToolEnv): (envs: seq<ToolEnv>)
    ensures |envs| == |calls|
  {
    seq(|calls|, i requires 0 <= i < |calls| => tools(i))
  }

  function TruncatedOutcome(index: nat, call: ToolCall): ToolOutcome {
    ErrorOutcome(index, call,
      "Tool call \"" + call.name + "\" was not executed: the response hit the output token limit, "
      + "so its arguments may be truncated. Re-issue the tool call with complete arguments.")
  }

  function TruncatedOutcomes(calls: seq<ToolCall>): (os: seq<ToolOutcome>)
    ensures |os| == |calls|
  {
    seq(|calls|, i requires 0 <= i < |calls| => TruncatedOutcome(i, calls[i]))
  }

  function TurnResults(a: Assistant, tools: nat -> ToolEnv, now: int): seq<ToolResult> {
    var calls := CallsOf(a.content);
    if a.stopReason.Length? then ResultsOf(TruncatedOutcomes(calls), now)
    else if a.stopReason.ToolUse? then ResultsOf(Outcomes(calls, EnvsFor(calls, tools)), now)
    else []
  }

  function TurnTerminates(a: Assistant, tools: nat -> ToolEnv): bool {
    var calls := CallsOf(a.content);
    a.stopReason.ToolUse? && AllTerminate(Outcomes(calls, EnvsFor(calls, tools)))
  }

  /** One result of a turn: for its call, with the output, and no list of added tools rather than an
      empty one. */
  predicate CarriesOutput(call: ToolCall, output: ToolOutput, isError: bool, now: int, r: ToolResult) {
    && r.toolCallId == call.id && r.toolName == call.name && r.timestamp == now
    && r.content == output.content && r.isError == isError
    && r.addedToolNames == if output.addedToolNames == Some([]) then None else output.addedToolNames
  }

  /** The results of a turn.  An answer cut off at the token limit has an error for every call, in
      order, and no tool has a say in it; an answer that stopped to use tools has for every call, in
      order, what became of it; any other answer has none.  The turn ends the run exactly when it
      stopped to use tools and every one of its calls, of which there is one, asked for that. */
  ghost predicate TurnFits(a: Assistant, tools: nat -> ToolEnv, now: int, results: seq<ToolResult>, terminate: bool) {
    var calls := CallsOf(a.content);
    if a.stopReason.Length? then
      && !terminate && |results| == |calls|
      && forall i :: 0 <= i < |calls| ==> NotExecuted(calls[i], now, results[i])
    else if a.stopReason.ToolUse? then
      && |results| == |calls|
      && (forall i :: 0 <= i < |calls| ==> ExecutedAs(calls[i], tools(i), now, results[i]))
      && (terminate <==> calls != [] && forall i :: 0 <= i < |calls| ==> CallTerminates(calls[i], tools(i)))
    else results == [] && !terminate
  }

  predicate NotExecuted(call: ToolCall, now: int, r: ToolResult) {
    && r.toolCallId == call.id && r.toolName == call.name && r.timestamp == now
    && r.isError && r.addedToolNames.None? && |r.content| == 1 && r.content[0].TextPart?
  }

  ghost predicate ExecutedAs(call: ToolCall, env: ToolEnv, now: int, r: ToolResult) {
    exists output, isError :: CallResultFits(call, env, output, isError) && CarriesOutput(call, output, isError, now, r)
  }

  predicate CallTerminates(call: ToolCall, env: ToolEnv) {
    !IsStopped(call, env)
    && PassageAt(env.resultHooks, env.execute(FinalArguments(call, env)), |env.resultHooks|).output.terminate
  }

  lemma TurnResultsFit(a: Assistant, tools: nat -> ToolEnv, now: int)
    ensures TurnFits(a, tools, now, TurnResults(a, tools, now), TurnTerminates(a, tools))
  {
    if a.stopReason.ToolUse? {
      var calls := CallsOf(a.content);
      var os := Outcomes(calls, EnvsFor(calls, tools));
      forall i | 0 <= i < |calls|
        ensures ExecutedAs(calls[i], tools(i), now, TurnResults(a, tools, now)[i])
        ensures os[i].output.terminate <==> CallTerminates(calls[i], tools(i))
      {
        OutcomeFits(i, calls[i], tools(i));
        assert CallResultFits(calls[i], tools(i), os[i].output, os[i].isError);
        assert CarriesOutput(calls[i], os[i].output, os[i].isError, now, TurnResults(a, tools, now)[i]);
      }
    }
  }

  // ---------------------------------------------------------------------
  // In which order calls are run.

  /** Every call that is started ends before anything else happens. */
  predicate OneCallAtATime(events: seq<AgentEvent>) {
    forall i :: 0 <= i < |events| && events[i].ToolStart? ==>
      i + 1 < |events| && events[i + 1].ToolEnd? && events[i + 1].id == events[i].id
  }

  lemma OneCallThenAnother(before: seq<AgentEvent>, more: seq<AgentEvent>)
    requires OneCallAtATime(before) && OneCallAtATime(more)
    ensures OneCallAtATime(before + more)
  {
    var events := before + more;
    forall i | 0 <= i < |events| && events[i].ToolStart?
      ensures i + 1 < |events| && events[i + 1].ToolEnd? && events[i + 1].id == events[i].id
    {
      if i < |before| {
        assert before[i + 1] == events[i + 1];
      } else {
        assert more[i - |before|] == events[i];
      }
    }
  }

  ghost predicate StoppedCall(id: string, calls: seq<ToolCall>, envs: seq<ToolEnv>)
    requires |envs| == |calls|
  {
    exists k :: 0 <= k < |calls| && calls[k].id == id && IsStopped(calls[k], envs[k])
  }

  /** Only calls that do not run end. */
  ghost predicate OnlyStoppedEnd(events: seq<AgentEvent>, calls: seq<ToolCall>, envs: seq<ToolEnv>)
    requires |envs| == |calls|
  {
    forall i :: 0 <= i < |events| && events[i].ToolEnd? ==> StoppedCall(events[i].id, calls, envs)
  }

  predicate NoneStarts(events: seq<AgentEvent>) {
    forall i :: 0 <= i < |events| ==> !events[i].ToolStart?
  }

  /** No call that runs ends before every call has been started. */
  ghost predicate RunsTogether(events: seq<AgentEvent>, calls: seq<ToolCall>, envs: seq<ToolEnv>)
    requires |envs| == |calls|
  {
    forall i, j :: 0 <= i < j < |events| && events[i].ToolEnd? && events[j].ToolStart? ==>
      StoppedCall(events[i].id, calls, envs)
  }

  lemma StartedThenEnded(started: seq<AgentEvent>, ended: seq<AgentEvent>, calls: seq<ToolCall>, envs: seq<ToolEnv>)
    requires |envs| == |calls| && OnlyStoppedEnd(started, calls, envs) && NoneStarts(ended)
    ensures RunsTogether(started + ended, calls, envs)
  {
  }

  /** Calls run together where the configuration says so and no tool that is called asks to run alone. */
  ghost predicate RunAsAsked(config: LoopConfig, calls: seq<ToolCall>, envs: seq<ToolEnv>, events: seq<AgentEvent>)
    requires |envs| == |calls|
  {
    if config.parallel && forall i :: 0 <= i < |envs| && envs[i].found ==> !envs[i].sequential
    then RunsTogether(events, calls, envs) else OneCallAtATime(events)
  }

  function ResultMessages(results: seq<ToolResult>): (ms: seq<AgentMessage>)
    ensures |ms| == |results|
    ensures forall i :: 0 <= i < |ms| ==> ms[i] == AgentToolResult(results[i])
  {
    seq(|results|, i requires 0 <= i < |results| => AgentToolResult(results[i]))
  }

  lemma ResultMessagesSnoc(results: seq<ToolResult>, r: ToolResult)
    ensures ResultMessages(results + [r]) == ResultMessages(results) + [AgentToolResult(r)]
  {
  }

  lemma Associate(a: seq<AgentMessage>, b: seq<AgentMessage>, c: seq<AgentMessage>)
    ensures (a + b) + c == a + (b + c)
    ensures a + [] == a
  {
  }

  // ---------------------------------------------------------------------
  // What a turn, a round and a whole run amount to.

  /** The events the provider's stream is passed on as. */
  function StreamLog(stream: seq<StreamEvent>): seq<AgentEvent> {
    if stream == [] then []
    else
      StreamLog(stream[..|stream| - 1]) + PassedOn(stream[|stream| - 1])
  }

  function PassedOn(e: StreamEvent): seq<AgentEvent> {
    match e
    case StreamStart(partial) => [MessageStart(AgentAssistant(partial))]
    case StreamUpdate(partial) => [MessageUpdate(AgentAssistant(partial))]
    case StreamEnded(_) => []
  }

  /** The messages a listener is shown while they grow. */
  function ShownBy(events: seq<AgentEvent>): seq<AgentMessage> {
    if events == [] then []
    else
      var e := events[|events| - 1];
      ShownBy(events[..|events| - 1])
      + if e.MessageStart? then [e.message] else if e.MessageUpdate? then [e.message] else []
  }

  function Partials(stream: seq<StreamEvent>): seq<AgentMessage> {
    if stream == [] then []
    else
      var e := stream[|stream| - 1];
      Partials(stream[..|stream| - 1]) + if e.StreamEnded? then [] else [AgentAssistant(e.partial)]
  }

  /** What is passed on of a stream shows every partial answer of it, in order, and nothing else. */
  lemma {:induction false} StreamIsShown(stream: seq<StreamEvent>)
    ensures ShownBy(StreamLog(stream)) == Partials(stream) && |StreamLog(stream)| == |Partials(stream)|
  {
    if stream != [] {
      var log, next := StreamLog(stream[..|stream| - 1]), PassedOn(stream[|stream| - 1]);
      StreamIsShown(stream[..|stream| - 1]);
      if next == [] {
        assert log + next == log;
      } else {
        assert (log + next)[..|log|] == log;
      }
    }
  }

  /** The message of the stream's last end event. */
  function FinalOf(stream: seq<StreamEvent>): Option<Assistant> {
    if stream == [] then None
    else if stream[|stream| - 1].StreamEnded? then Some(stream[|stream| - 1].message)
    else FinalOf(stream[..|stream| - 1])
  }

  predicate HasStart(stream: seq<StreamEvent>) {
    exists i :: 0 <= i < |stream| && stream[i].StreamStart?
  }

  lemma StreamSnoc(stream: seq<StreamEvent>, i: nat)
    requires i < |stream|
    ensures StreamLog(stream[..i + 1]) == StreamLog(stream[..i]) + PassedOn(stream[i])
    ensures FinalOf(stream[..i + 1]) == if stream[i].StreamEnded? then Some(stream[i].message) else FinalOf(stream[..i])
    ensures HasStart(stream[..i + 1]) <==> HasStart(stream[..i]) || stream[i].StreamStart?
  {
    var longer := stream[..i + 1];
    assert longer[..i] == stream[..i] && longer[i] == stream[i];
    if HasStart(stream[..i]) {
      var k :| 0 <= k < i && stream[..i][k].StreamStart?;
      assert longer[k].StreamStart?;
    }
  }

  /** The message a stream ends with is that of an end event after which there is no other. */
  lemma {:induction false} FinalIsTheLastEnd(stream: seq<StreamEvent>)
    ensures FinalOf(stream).None? <==> forall i :: 0 <= i < |stream| ==> !stream[i].StreamEnded?
    ensures FinalOf(stream).Some? ==>
      exists i :: 0 <= i < |stream| && stream[i] == StreamEnded(FinalOf(stream).value)
                  && forall j :: i < j < |stream| ==> !stream[j].StreamEnded?
  {
    if stream != [] {
      var init := stream[..|stream| - 1];
      FinalIsTheLastEnd(init);
      if !stream[|stream| - 1].StreamEnded? && FinalOf(init).Some? {
        var i :| 0 <= i < |init| && init[i] == StreamEnded(FinalOf(init).value)
                 && forall j :: i < j < |init| ==> !init[j].StreamEnded?;
        assert stream[i] == init[i];
        assert forall j :: i < j < |stream| ==> j == |init| || stream[j] == init[j];
      }
    }
  }

  function StreamResult(script: TurnScript): Result<Assistant> {
    var final := FinalOf(script.stream);
    if final.Some? then Success(final.value) else script.lateResult
  }

  /** A finished turn: the answer, then its results. */
  function OutcomeFor(a: Assistant, tools: nat -> ToolEnv, now: int): TurnOutcome {
    var results := TurnResults(a, tools, now);
    TurnOutcome([AgentAssistant(a)] + ResultMessages(results), results, TurnTerminates(a, tools),
                a.stopReason.Error? || a.stopReason.Aborted?)
  }

  function TurnResult(script: TurnScript, now: int): Result<TurnOutcome> {
    if script.contextFailure.Some? then Failure(script.contextFailure.value)
    else if script.refusal.Some? then Failure(script.refusal.value)
    else
      match StreamResult(script)
      case Failure(error) => Failure(error)
      case Success(a) => Success(OutcomeFor(a, script.tools, now))
  }

  /** What waits in the two queues. */
  datatype Queues = Queues(steering: seq<AgentMessage>, followUps: seq<AgentMessage>)

  /** What a poll gives, and what it leaves waiting. */
  function Polled(script: PollScript, waiting: seq<AgentMessage>): (Result<seq<AgentMessage>>, seq<AgentMessage>) {
    var (batch, left) := DrainedBy(script.mode, waiting + script.arrivals);
    match script.extra
    case Failure(error) => (Failure(error), left)
    case Success(more) => (Success(batch + more), left)
  }

  /** How a round leaves the run: failed, in its turn or between turns; done; or going on with what
      the queues gave. */
  datatype Round =
    | RoundFailed(error: string, between: bool)
    | LastRound
    | NextRound(queued: seq<AgentMessage>)

  function AfterFollowUps(script: TurnScript, q: Queues): (Round, Queues) {
    var (followed, left) := Polled(script.followUp, q.followUps);
    var q' := q.(followUps := left);
    match followed
    case Failure(error) => (RoundFailed(error, true), q')
    case Success(queued) => (if queued == [] then LastRound else NextRound(queued), q')
  }

  /** Between turns: the hooks, then steering, then follow-ups if nothing else asks for a turn. */
  function After(script: TurnScript, continues: bool, q: Queues): (Round, Queues) {
    if script.prepareFailure.Some? then (RoundFailed(script.prepareFailure.value, true), q)
    else
      match script.stop
      case Failure(error) => (RoundFailed(error, true), q)
      case Success(true) => (LastRound, q)
      case Success(false) =>
        var (steered, left) := Polled(script.steering, q.steering);
        var q' := q.(steering := left);
        match steered
        case Failure(error) => (RoundFailed(error, true), q')
        case Success(queued) =>
          if continues || queued != [] then (NextRound(queued), q') else AfterFollowUps(script, q')
  }

  datatype RoundResult = RoundResult(round: Round, messages: seq<AgentMessage>, queues: Queues, calls: nat)

  /** One turn with what was injected before it and what follows it. */
  function RoundFor(script: TurnScript, now: int, pending: seq<AgentMessage>, q: Queues): RoundResult {
    var calls := if script.contextFailure.Some? then 0 else 1;
    match TurnResult(script, now)
    case Failure(error) => RoundResult(RoundFailed(error, false), pending, q, calls)
    case Success(outcome) =>
      var messages := pending + outcome.messages;
      if outcome.terminalAssistant then RoundResult(LastRound, messages, q, calls)
      else
        var (round, q') := After(script, !outcome.terminate && outcome.toolResults != [], q);
        RoundResult(round, messages, q', calls)
  }

  datatype Ending = CourseEnds | CourseFails(error: string, between: bool) | LimitHit

  /** A whole run: the messages it adds, how it ends, after how many turns and provider calls, and
      what is left in the queues. */
  datatype Course = Course(messages: seq<AgentMessage>, ending: Ending, turns: nat, calls: nat, queues: Queues)

  function Prefixed(messages: seq<AgentMessage>, calls: nat, c: Course): Course {
    c.(messages := messages + c.messages, calls := calls + c.calls)
  }

  function CourseFrom(config: LoopConfig, script: nat -> TurnScript, turn: nat, pending: seq<AgentMessage>,
                      q: Queues): Course
    decreases MaxTurns(config) - turn
  {
    if turn >= MaxTurns(config) then Course([], LimitHit, turn, 0, q)
    else
      var r := RoundFor(script(turn), config.now, pending, q);
      match r.round
      case RoundFailed(error, between) =>
        Course(r.messages, CourseFails(error, between), turn + 1, r.calls, r.queues)
      case LastRound => Course(r.messages, CourseEnds, turn + 1, r.calls, r.queues)
      case NextRound(queued) => Prefixed(r.messages, r.calls, CourseFrom(config, script, turn + 1, queued, r.queues))
  }

  function WholeCourse(config: LoopConfig, script: nat -> TurnScript, firstPoll: PollScript, q: Queues): Course {
    if config.skipInitialPoll then CourseFrom(config, script, 0, [], q)
    else
      var (first, left) := Polled(firstPoll, q.steering);
      var q' := q.(steering := left);
      match first
      case Failure(error) => Course([], CourseFails(error, false), 1, 0, q')
      case Success(pending) => CourseFrom(config, script, 0, pending, q')
  }

  /** The run failed after a finished turn: in a hook, in a poll, or because the turns were used up. */
  predicate FailsBetween(c: Course) {
    c.ending.LimitHit? || (c.ending.CourseFails? && c.ending.between)
  }

  function LimitMessage(config: LoopConfig): string {
    "Agent loop exceeded maximum tool continuation turns: " + Decimal(MaxTurns(config))
  }

  function ResultOfCourse(config: LoopConfig, c: Course): Result<seq<AgentMessage>> {
    match c.ending
    case CourseEnds => Success(c.messages)
    case CourseFails(error, _) => Failure(error)
    case LimitHit => Failure(LimitMessage(config))
  }

  /** An answer that reports an error, or a cancellation when the run was cancelled, and calls nothing. */
  predicate IsFailureAnswer(config: LoopConfig, m: AgentMessage, error: string) {
    && m.AgentAssistant? && CallsOf(m.assistant.content) == []
    && m.assistant.errorMessage == Some(error)
    && m.assistant.stopReason == if config.aborted then Aborted else Error
  }

  /** A run that did not end well says why in its last message. */
  predicate SaysHowItEnded(config: LoopConfig, c: Course, messages: seq<AgentMessage>) {
    match c.ending
    case CourseEnds => true
    case CourseFails(error, _) => messages != [] && IsFailureAnswer(config, messages[|messages| - 1], error)
    case LimitHit =>
      messages != []
      && IsFailureAnswer(config, messages[|messages| - 1],
                         "Agent loop exceeded maximum tool continuation turns: " + Decimal(MaxTurns(config)))
  }

  lemma NothingPrefixed(c: Course)
    ensures Prefixed([], 0, c) == c
  {
  }

  lemma CourseGoesOn(config: LoopConfig, script: nat -> TurnScript, turn: nat, pending: seq<AgentMessage>, q: Queues,
                     all: seq<AgentMessage>, calls: nat, r: RoundResult)
    requires turn < MaxTurns(config) && r == RoundFor(script(turn), config.now, pending, q)
    ensures Prefixed(all, calls, CourseFrom(config, script, turn, pending, q)) ==
            match r.round
            case RoundFailed(error, between) =>
              Course(all + r.messages, CourseFails(error, between), turn + 1, calls + r.calls, r.queues)
            case LastRound => Course(all + r.messages, CourseEnds, turn + 1, calls + r.calls, r.queues)
            case NextRound(queued) =>
              Prefixed(all + r.messages, calls + r.calls, CourseFrom(config, script, turn + 1, queued, r.queues))
  {
    if r.round.NextRound? {
      Associate(all, r.messages, CourseFrom(config, script, turn + 1, r.round.queued, r.queues).messages);
    }
  }

  // ---------------------------------------------------------------------
  // When a run goes on.

  /** The turn's answer, when the provider was asked and gave one. */
  predicate Answers(script: TurnScript, a: Assistant) {
    script.contextFailure.None? && script.refusal.None? && StreamResult(script) == Success(a)
  }

  /** The answer made calls, and the run was not asked to end with every one of them. */
  ghost predicate WantsMore(a: Assistant, tools: nat -> ToolEnv) {
    var calls := CallsOf(a.content);
    calls != []
    && (a.stopReason.Length?
        || (a.stopReason.ToolUse? && exists i :: 0 <= i < |calls| && !CallTerminates(calls[i], tools(i))))
  }

  /** A poll that does not fail has messages for the run: waiting, just arrived, or from the caller. */
  predicate Brings(poll: PollScript, waiting: seq<AgentMessage>) {
    poll.extra.Success? && (waiting != [] || poll.arrivals != [] || poll.extra.value != [])
  }

  /** Nothing between the turns fails or stops the run before the steering queue has been polled. */
  predicate AsksOn(script: TurnScript) {
    script.prepareFailure.None? && script.stop == Success(false) && script.steering.extra.Success?
  }

  ghost predicate GoesOn(script: TurnScript, a: Assistant, q: Queues) {
    && !a.stopReason.Error? && !a.stopReason.Aborted? && AsksOn(script)
    && (WantsMore(a, script.tools) || Brings(script.steering, q.steering) || Brings(script.followUp, q.followUps))
  }

  ghost predicate ComesToRest(script: TurnScript, a: Assistant, q: Queues) {
    || a.stopReason.Error? || a.stopReason.Aborted?
    || (script.prepareFailure.None? && script.stop == Success(true))
    || (AsksOn(script) && script.followUp.extra.Success? && !GoesOn(script, a, q))
  }

  lemma DrainBrings(poll: PollScript, waiting: seq<AgentMessage>)
    ensures Polled(poll, waiting).0.Success? <==> poll.extra.Success?
    ensures poll.extra.Success? ==> (Polled(poll, waiting).0.value != [] <==> Brings(poll, waiting))
  {
  }

  lemma ContinuesExactlyWhen(a: Assistant, tools: nat -> ToolEnv, now: int)
    ensures !TurnTerminates(a, tools) && TurnResults(a, tools, now) != [] <==> WantsMore(a, tools)
  {
    TurnResultsFit(a, tools, now);
  }

  /** A turn is followed by another exactly when its answer asks for one or a queue has messages, and it is
      the last exactly when the answer failed, a hook stopped the run, or nothing is left to do. */
  lemma RoundGoesOnExactlyWhen(script: TurnScript, now: int, pending: seq<AgentMessage>, q: Queues)
    ensures var round := RoundFor(script, now, pending, q).round;
            && (round.NextRound? <==> exists a :: Answers(script, a) && GoesOn(script, a, q))
            && (round.LastRound? <==> exists a :: Answers(script, a) && ComesToRest(script, a, q))
  {
    if script.contextFailure.None? && script.refusal.None? && StreamResult(script).Success? {
      var a := StreamResult(script).value;
      assert Answers(script, a);
      AnsweredRound(script, now, pending, q, a);
    }
  }

  lemma AnsweredRound(script: TurnScript, now: int, pending: seq<AgentMessage>, q: Queues, a: Assistant)
    requires Answers(script, a)
    ensures var round := RoundFor(script, now, pending, q).round;
            (round.NextRound? <==> GoesOn(script, a, q)) && (round.LastRound? <==> ComesToRest(script, a, q))
  {
    ContinuesExactlyWhen(a, script.tools, now);
    DrainBrings(script.steering, q.steering);
    DrainBrings(script.followUp, q.followUps);
    assert |ResultMessages(TurnResults(a, script.tools, now))| == |TurnResults(a, script.tools, now)|;
  }

  /** What a turn fails with is the first thing that failed, and the provider was asked unless the context
      could not be made. */
  lemma RoundFailsWith(script: TurnScript, now: int, pending: seq<AgentMessage>, q: Queues, error: string)
    ensures var r := RoundFor(script, now, pending, q);
            && (r.calls == 0 <==> script.contextFailure.Some?) && r.calls <= 1
            && (script.contextFailure == Some(error) ==> r.round == RoundFailed(error, false))
            && (script.contextFailure.None? && script.refusal == Some(error) ==> r.round == RoundFailed(error, false))
            && (script.contextFailure.None? && script.refusal.None? && StreamResult(script) == Failure(error) ==>
                  r.round == RoundFailed(error, false))
    ensures forall a :: Answers(script, a) && !a.stopReason.Error? && !a.stopReason.Aborted? ==>
              FailsBetweenWith(script, error, a, q, RoundFor(script, now, pending, q).round)
  {
    forall a | Answers(script, a) && !a.stopReason.Error? && !a.stopReason.Aborted?
      ensures FailsBetweenWith(script, error, a, q, RoundFor(script, now, pending, q).round)
    {
      ContinuesExactlyWhen(a, script.tools, now);
      DrainBrings(script.steering, q.steering);
    }
  }

  ghost predicate FailsBetweenWith(script: TurnScript, error: string, a: Assistant, q: Queues, round: Round) {
    && (script.prepareFailure == Some(error) ==> round == RoundFailed(error, true))
    && (script.prepareFailure.None? && script.stop == Failure(error) ==> round == RoundFailed(error, true))
    && (script.prepareFailure.None? && script.stop == Success(false) && script.steering.extra == Failure(error) ==>
          round == RoundFailed(error, true))
    && (AsksOn(script) && !WantsMore(a, script.tools) && !Brings(script.steering, q.steering)
        && script.followUp.extra == Failure(error) ==>
          round == RoundFailed(error, true))
  }
}
