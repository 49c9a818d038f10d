/** Polling for a device-code login: the cadence, the driver that sleeps, and the simulator that only
    adds up.

    Time is virtual and unbounded; intervals are 64-bit.  The answers to the polls are a script; a run
    that reaches its end is still waiting. */
module DevicePolling {
  import opened Wrappers

  type U64 = x: int | 0 <= x < 0x1_0000_0000_0000_0000

  const U64_MAX: U64 := 0xFFFF_FFFF_FFFF_FFFF
  const MINIMUM_INTERVAL_MS: U64 := 1000
  const DEFAULT_POLL_INTERVAL_SECONDS: U64 := 5
  const SLOW_DOWN_INTERVAL_INCREMENT_MS: U64 := 5000

  datatype PollResponse =
    | Pending
    | SlowDown(intervalSeconds: Option<U64>)
    | Completed(value: string)
    | Refused(message: string)
    | PollError(error: string)

  datatype PollConfig = PollConfig(
    intervalSeconds: Option<U64>, expiresInSeconds: Option<U64>, waitBeforeFirstPoll: bool)

  datatype Outcome =
    | Token(value: string)
    | Failed(message: string)
    | TimedOut(slowDownSeen: bool)
    | Cancelled
    | Waiting

  datatype Cadence = Cadence(
    deadline: Option<int>, interval: U64, slowDowns: nat, waitBeforeFirstPoll: bool)

  function AtLeast(x: U64, low: U64): U64 {
    if x < low then low else x
  }

  function SaturatingMilliseconds(seconds: U64): U64 {
    if seconds * 1000 > U64_MAX then U64_MAX else seconds * 1000
  }

  function NewCadence(now: int, config: PollConfig): Cadence {
    Cadence(
      if config.expiresInSeconds.Some? then Some(now + config.expiresInSeconds.value * 1000) else None,
      AtLeast(SaturatingMilliseconds(
                if config.intervalSeconds.Some? then config.intervalSeconds.value else DEFAULT_POLL_INTERVAL_SECONDS),
              MINIMUM_INTERVAL_MS),
      0, config.waitBeforeFirstPoll)
  }

  /** The interval after a slow-down: the server's if it gives a positive one, else five seconds more,
      in 64 bits. */
  function SlowedInterval(interval: U64, given: Option<U64>): U64 {
    if given.Some? && given.value > 0 then AtLeast(SaturatingMilliseconds(given.value), MINIMUM_INTERVAL_MS)
    else AtLeast((interval + SLOW_DOWN_INTERVAL_INCREMENT_MS) % 0x1_0000_0000_0000_0000, MINIMUM_INTERVAL_MS)
  }

  function Remaining(c: Cadence, now: int): Option<int> {
    if c.deadline.Some? then Some(c.deadline.value - now) else None
  }

  predicate ShouldPoll(c: Cadence, now: int) {
    var remaining := Remaining(c, now);
    remaining.Some? ==> remaining.value > 0
  }

  function Wait(c: Cadence, now: int): Option<nat> {
    match Remaining(c, now)
    case None => Some(c.interval)
    case Some(remaining) =>
      if remaining <= 0 then None else Some(if c.interval < remaining then c.interval else remaining)
  }

  function InitialWait(c: Cadence, now: int): Option<nat> {
    if c.waitBeforeFirstPoll then Wait(c, now) else None
  }

  datatype Progress = Continue | Stop(outcome: Outcome)

  function AfterResponse(c: Cadence, r: PollResponse): Cadence {
    if r.SlowDown? then
      c.(interval := SlowedInterval(c.interval, r.intervalSeconds), slowDowns := c.slowDowns + 1)
    else c
  }

  function ProgressOf(r: PollResponse): Progress {
    match r
    case Pending => Continue
    case SlowDown(_) => Continue
    case Completed(value) => Stop(Token(value))
    case Refused(message) => Stop(Failed(message))
    case PollError(error) => Stop(Failed(error))
  }

  /** What follows an answer: the end of the run, or a wait. */
  datatype Round = Ends(outcome: Outcome) | Waits(delay: nat)

  function RoundOf(c: Cadence, now: int, r: PollResponse): Round {
    match ProgressOf(r)
    case Stop(outcome) => Ends(outcome)
    case Continue =>
      var c' := AfterResponse(c, r);
      match Wait(c', now)
      case None => Ends(TimedOut(c'.slowDowns > 0))
      case Some(delay) => Waits(delay)
  }

  /** A run: when each poll was made, the interval in force after its answer, and how and when it ended. */
  datatype PollRun = PollRun(times: seq<int>, intervals: seq<U64>, outcome: Outcome, endedAt: int)

  function Earlier(times: seq<int>, intervals: seq<U64>, run: PollRun): PollRun {
    run.(times := times + run.times, intervals := intervals + run.intervals)
  }

  function Run(c: Cadence, now: int, responses: seq<PollResponse>): PollRun
    decreases |responses|
  {
    if !ShouldPoll(c, now) then PollRun([], [], TimedOut(c.slowDowns > 0), now)
    else if responses == [] then PollRun([], [], Waiting, now)
    else
      var c' := AfterResponse(c, responses[0]);
      match RoundOf(c, now, responses[0])
      case Ends(outcome) => PollRun([now], [c'.interval], outcome, now)
      case Waits(delay) => Earlier([now], [c'.interval], Run(c', now + delay, responses[1..]))
  }

  function WholeRun(start: int, config: PollConfig, responses: seq<PollResponse>): PollRun {
    var c := NewCadence(start, config);
    match InitialWait(c, start)
    case None => Run(c, start, responses)
    case Some(delay) => Run(c, start + delay, responses)
  }

  // ---------------------------------------------------------------------
  // The state object and the two loops that use it.

  class DeviceCodePollState {
    var deadlineMs: Option<int>
    var intervalMs: U64
    var slowDownResponses: nat
    var waitBeforeFirstPoll: bool

    function Value(): Cadence
      reads this
    {
      Cadence(deadlineMs, intervalMs, slowDownResponses, waitBeforeFirstPoll)
    }

    constructor (now: int, config: PollConfig)
      ensures Value() == NewCadence(now, config)
    {
      deadlineMs := NewCadence(now, config).deadline;
      intervalMs := NewCadence(now, config).interval;
      slowDownResponses := 0;
      waitBeforeFirstPoll := config.waitBeforeFirstPoll;
    }

    method ApplyResponse(r: PollResponse) returns (progress: Progress)
      modifies this
      ensures Value() == AfterResponse(old(Value()), r) && progress == ProgressOf(r)
    {
      match r
      case Pending => progress := Continue;
      case SlowDown(given) =>
        slowDownResponses := slowDownResponses + 1;
        intervalMs := SlowedInterval(intervalMs, given);
        progress := Continue;
      case Completed(value) => progress := Stop(Token(value));
      case Refused(message) => progress := Stop(Failed(message));
      case PollError(error) => progress := Stop(Failed(error));
    }

    /** Apply an answer and find the wait before the next poll. */
    method Answered(r: PollResponse, now: int) returns (round: Round)
      modifies this
      ensures Value() == AfterResponse(old(Value()), r) && round == RoundOf(old(Value()), now, r)
    {
      var progress := ApplyResponse(r);
      if progress.Stop? {
        return Ends(progress.outcome);
      }
      var wait := Wait(Value(), now);
      if wait.None? {
        return Ends(TimedOut(slowDownResponses > 0));
      }
      return Waits(wait.value);
    }
  }

  /** The run goes on after the first answer. */
  predicate GoesOn(c: Cadence, now: int, responses: seq<PollResponse>) {
    ShouldPoll(c, now) && responses != [] && RoundOf(c, now, responses[0]).Waits?
  }

  lemma RunGoesOn(c: Cadence, now: int, responses: seq<PollResponse>)
    requires GoesOn(c, now, responses)
    ensures var c' := AfterResponse(c, responses[0]);
            Run(c, now, responses)
            == Earlier([now], [c'.interval], Run(c', now + RoundOf(c, now, responses[0]).delay, responses[1..]))
  {
  }

  /** The cadence and the clock when a poll is about to be made. */
  datatype Moment = Moment(cadence: Cadence, now: int)

  /** The moments a run passes through: at each but the last a poll was made, and its answer led to
      the next moment. */
  ghost predicate PassesThrough(responses: seq<PollResponse>, trace: seq<Moment>) {
    && 0 < |trace| <= |responses| + 1
    && forall i | 0 <= i < |trace| - 1 :: Follows(trace[i], responses[i], trace[i + 1])
  }

  predicate Follows(m: Moment, r: PollResponse, next: Moment) {
    && ShouldPoll(m.cadence, m.now)
    && next.cadence == AfterResponse(m.cadence, r)
    && next.now >= m.now && RoundOf(m.cadence, m.now, r) == Waits(next.now - m.now)
  }

  function Polls(trace: seq<Moment>): (times: seq<int>)
    requires trace != []
    ensures |times| == |trace| - 1
  {
    seq(|trace| - 1, i requires 0 <= i < |trace| - 1 => trace[i].now)
  }

  /** A run is its first moments followed by the run from the last of them. */
  lemma {:induction false} RunFromTrace(responses: seq<PollResponse>, trace: seq<Moment>)
    requires PassesThrough(responses, trace)
    ensures var last := trace[|trace| - 1];
            var run := Run(trace[0].cadence, trace[0].now, responses);
            var rest := Run(last.cadence, last.now, responses[|trace| - 1..]);
            run.times == Polls(trace) + rest.times && run.outcome == rest.outcome && run.endedAt == rest.endedAt
    decreases |trace|
  {
    if |trace| == 1 {
      assert responses[0..] == responses && Polls(trace) == [];
    } else {
      var m, next := trace[0], trace[1];
      RunFollows(m, next, responses);
      TailPasses(responses, trace);
      RunFromTrace(responses[1..], trace[1..]);
      assert responses[1..][|trace| - 2..] == responses[|trace| - 1..];
      FirstPoll(trace, Run(trace[|trace| - 1].cadence, trace[|trace| - 1].now, responses[|trace| - 1..]).times);
    }
  }

  lemma RunFollows(m: Moment, next: Moment, responses: seq<PollResponse>)
    requires responses != [] && Follows(m, responses[0], next)
    ensures var run := Run(m.cadence, m.now, responses);
            var rest := Run(next.cadence, next.now, responses[1..]);
            run.times == [m.now] + rest.times && run.outcome == rest.outcome && run.endedAt == rest.endedAt
  {
    RunGoesOn(m.cadence, m.now, responses);
  }

  lemma FirstPoll(trace: seq<Moment>, rest: seq<int>)
    requires |trace| > 1
    ensures [trace[0].now] + (Polls(trace[1..]) + rest) == Polls(trace) + rest
  {
    assert Polls(trace) == [trace[0].now] + Polls(trace[1..]);
  }

  lemma TailPasses(responses: seq<PollResponse>, trace: seq<Moment>)
    requires PassesThrough(responses, trace) && |trace| > 1
    ensures PassesThrough(responses[1..], trace[1..])
  {
    forall i | 0 <= i < |trace| - 2
      ensures Follows(trace[1..][i], responses[1..][i], trace[1..][i + 1])
    {
      assert Follows(trace[i + 1], responses[i + 1], trace[i + 2]);
    }
  }

  /** How a traced run ends where no further poll is made. */
  lemma EndsWithoutPoll(responses: seq<PollResponse>, trace: seq<Moment>)
    requires PassesThrough(responses, trace)
    requires var last := trace[|trace| - 1]; !ShouldPoll(last.cadence, last.now) || |trace| == |responses| + 1
    ensures var last := trace[|trace| - 1];
            var run := Run(trace[0].cadence, trace[0].now, responses);
            && run.times == Polls(trace) && run.endedAt == last.now
            && run.outcome == (if ShouldPoll(last.cadence, last.now) then Waiting
                               else TimedOut(last.cadence.slowDowns > 0))
  {
    RunFromTrace(responses, trace);
    assert Polls(trace) + [] == Polls(trace);
  }

  /** How it ends with one more poll. */
  lemma EndsWithPoll(responses: seq<PollResponse>, trace: seq<Moment>)
    requires PassesThrough(responses, trace) && |trace| <= |responses|
    requires var last := trace[|trace| - 1];
             ShouldPoll(last.cadence, last.now) && RoundOf(last.cadence, last.now, responses[|trace| - 1]).Ends?
    ensures var last := trace[|trace| - 1];
            var run := Run(trace[0].cadence, trace[0].now, responses);
            && run.times == Polls(trace) + [last.now] && run.endedAt == last.now
            && run.outcome == RoundOf(last.cadence, last.now, responses[|trace| - 1]).outcome
  {
    RunFromTrace(responses, trace);
    assert responses[|trace| - 1..][0] == responses[|trace| - 1];
  }

  lemma PassesOn(responses: seq<PollResponse>, trace: seq<Moment>, next: Moment)
    requires PassesThrough(responses, trace) && |trace| <= |responses|
    requires Follows(trace[|trace| - 1], responses[|trace| - 1], next)
    ensures PassesThrough(responses, trace + [next]) && Polls(trace + [next]) == Polls(trace) + [trace[|trace| - 1].now]
  {
  }

  /** The first moment of a whole run. */
  function FirstMoment(start: int, config: PollConfig): Moment {
    var c := NewCadence(start, config);
    match InitialWait(c, start)
    case None => Moment(c, start)
    case Some(delay) => Moment(c, start + delay)
  }

  lemma WholeRunFromFirst(start: int, config: PollConfig, responses: seq<PollResponse>)
    ensures WholeRun(start, config, responses)
         == Run(FirstMoment(start, config).cadence, FirstMoment(start, config).now, responses)
  {
  }

  lemma PollsMadeAreFirst(responses: seq<PollResponse>, trace: seq<Moment>)
    requires PassesThrough(responses, trace)
    ensures Polls(trace) <= Run(trace[0].cadence, trace[0].now, responses).times
  {
    RunFromTrace(responses, trace);
  }

  // ---------------------------------------------------------------------
  // What the outcome says about the answers.

  /** The answers after which a run goes on. */
  predicate AsksToWait(r: PollResponse) {
    r.Pending? || r.SlowDown?
  }

  predicate SlowDownAmong(responses: seq<PollResponse>) {
    exists i :: 0 <= i < |responses| && responses[i].SlowDown?
  }

  /** The outcome after exactly these answers: a token or a failure is what the last of them says and
      nothing else is; every answer before the last, and the last of any other run, asked to wait; a
      time-out tells whether one of them was a slow-down. */
  ghost predicate OutcomeFits(outcome: Outcome, polled: seq<PollResponse>) {
    && (forall i :: 0 <= i < |polled| - 1 ==> AsksToWait(polled[i]))
    && (forall v :: outcome == Token(v) <==> polled != [] && polled[|polled| - 1] == Completed(v))
    && (forall m :: outcome == Failed(m) <==>
          polled != [] && (polled[|polled| - 1] == Refused(m) || polled[|polled| - 1] == PollError(m)))
    && (outcome.Waiting? || outcome.Cancelled? || outcome.TimedOut? ==>
          forall i :: 0 <= i < |polled| ==> AsksToWait(polled[i]))
    && (outcome.TimedOut? ==> outcome.slowDownSeen == SlowDownAmong(polled))
  }

  /** The same for a run that begins after some slow-downs. */
  ghost predicate RunFits(slowDowns: nat, run: PollRun, responses: seq<PollResponse>) {
    && |run.times| <= |responses|
    && (run.outcome.Waiting? ==> |run.times| == |responses|)
    && !run.outcome.Cancelled?
    && OutcomeFits(if slowDowns > 0 && run.outcome.TimedOut? then TimedOut(SlowDownAmong(responses[..|run.times|]))
                   else run.outcome, responses[..|run.times|])
    && (slowDowns > 0 && run.outcome.TimedOut? ==> run.outcome.slowDownSeen)
  }

  lemma {:induction false} RunOutcomeFits(c: Cadence, now: int, responses: seq<PollResponse>)
    ensures RunFits(c.slowDowns, Run(c, now, responses), responses)
    decreases |responses|
  {
    if GoesOn(c, now, responses) {
      var c' := AfterResponse(c, responses[0]);
      var delay := RoundOf(c, now, responses[0]).delay;
      RunGoesOn(c, now, responses);
      RunOutcomeFits(c', now + delay, responses[1..]);
      var rest := Run(c', now + delay, responses[1..]);
      assert responses[..|rest.times| + 1] == [responses[0]] + responses[1..][..|rest.times|];
      FitsEarlier(c.slowDowns, responses[0], rest, responses[1..], Run(c, now, responses));
      assert [responses[0]] + responses[1..] == responses;
    } else {
      ShortRunFits(c, now, responses);
    }
  }

  lemma ShortRunFits(c: Cadence, now: int, responses: seq<PollResponse>)
    requires !GoesOn(c, now, responses)
    ensures RunFits(c.slowDowns, Run(c, now, responses), responses)
  {
    var run := Run(c, now, responses);
    assert run.times == [] ==> responses[..|run.times|] == [];
    assert run.times != [] ==> responses[..|run.times|] == [responses[0]];
  }

  lemma FitsEarlier(slowDowns: nat, first: PollResponse, rest: PollRun, responses: seq<PollResponse>, run: PollRun)
    requires AsksToWait(first)
    requires RunFits(slowDowns + if first.SlowDown? then 1 else 0, rest, responses)
    requires |run.times| == |rest.times| + 1 && run.outcome == rest.outcome
    ensures RunFits(slowDowns, run, [first] + responses)
  {
    var polled, later := ([first] + responses)[..|run.times|], responses[..|rest.times|];
    assert polled == [first] + later;
    SlowDownFirst(first, later);
    assert later != [] ==> polled[|polled| - 1] == later[|later| - 1];
  }

  lemma SlowDownFirst(first: PollResponse, later: seq<PollResponse>)
    ensures SlowDownAmong([first] + later) <==> first.SlowDown? || SlowDownAmong(later)
  {
    var all := [first] + later;
    if first.SlowDown? {
      assert all[0].SlowDown?;
    }
    if SlowDownAmong(later) {
      var i :| 0 <= i < |later| && later[i].SlowDown?;
      assert all[i + 1].SlowDown?;
    }
  }

  /** The outcome of a whole run is what the answers to its polls say. */
  lemma WholeRunOutcomeFits(start: int, config: PollConfig, responses: seq<PollResponse>)
    ensures var run := WholeRun(start, config, responses);
            && |run.times| <= |responses| && (run.outcome.Waiting? ==> |run.times| == |responses|)
            && !run.outcome.Cancelled? && OutcomeFits(run.outcome, responses[..|run.times|])
  {
    var first := FirstMoment(start, config);
    WholeRunFromFirst(start, config, responses);
    RunOutcomeFits(first.cadence, first.now, responses);
  }

  /** How often a run that nobody aborts looks at the abort flag: before every poll and every wait. */
  function RunChecks(run: PollRun): int {
    if run.outcome.Waiting? then 2 * |run.times| + 1
    else if run.outcome.TimedOut? then 2 * |run.times|
    else 2 * |run.times| - 1
  }

  /** The same for a whole run, which may begin with a wait. */
  function Checks(start: int, config: PollConfig, responses: seq<PollResponse>): int {
    ChecksBefore(start, config) + RunChecks(WholeRun(start, config, responses))
  }

  lemma ChecksAhead(c: Cadence, now: int, responses: seq<PollResponse>)
    ensures RunChecks(Run(c, now, responses)) >= if ShouldPoll(c, now) then 1 else 0
    ensures !ShouldPoll(c, now) ==> RunChecks(Run(c, now, responses)) == 0
    ensures (ShouldPoll(c, now) && (responses == [] || RoundOf(c, now, responses[0]).Ends?)) ==>
              RunChecks(Run(c, now, responses)) == 1
  {
  }

  lemma ChecksFromTrace(responses: seq<PollResponse>, trace: seq<Moment>)
    requires PassesThrough(responses, trace)
    ensures var last := trace[|trace| - 1];
            RunChecks(Run(trace[0].cadence, trace[0].now, responses))
            == 2 * (|trace| - 1) + RunChecks(Run(last.cadence, last.now, responses[|trace| - 1..]))
  {
    RunFromTrace(responses, trace);
  }

  /** The driver has passed the moments, slept up to the last of them, and looked at the flag before
      every poll and every wait so far. */
  ghost predicate Underway(start: int, config: PollConfig, responses: seq<PollResponse>, trace: seq<Moment>,
                           times: seq<int>, checks: nat)
  {
    && PassesThrough(responses, trace) && trace[0] == FirstMoment(start, config)
    && times == Polls(trace)
    && checks == ChecksBefore(start, config) + 2 * (|trace| - 1)
  }

  function ChecksBefore(start: int, config: PollConfig): nat {
    if InitialWait(NewCadence(start, config), start).Some? then 1 else 0
  }

  /** How the driver may end: as the run nobody aborts, after all its checks; or cancelled within its
      checks, with the first polls of that run made. */
  predicate EndsRun(start: int, config: PollConfig, responses: seq<PollResponse>,
                    outcome: Outcome, times: seq<int>, slept: nat, checks: nat)
  {
    var run := WholeRun(start, config, responses);
    if outcome == Cancelled then
      && times <= run.times && checks < Checks(start, config, responses) && |times| <= |responses|
      && forall i :: 0 <= i < |times| ==> AsksToWait(responses[i])
    else times == run.times && outcome == run.outcome && start + slept == run.endedAt
         && checks == Checks(start, config, responses)
  }

  lemma WholeChecks(start: int, config: PollConfig, responses: seq<PollResponse>, trace: seq<Moment>)
    requires PassesThrough(responses, trace) && trace[0] == FirstMoment(start, config)
    ensures var last := trace[|trace| - 1];
            Checks(start, config, responses)
            == ChecksBefore(start, config) + 2 * (|trace| - 1)
               + RunChecks(Run(last.cadence, last.now, responses[|trace| - 1..]))
  {
    WholeRunFromFirst(start, config, responses);
    ChecksFromTrace(responses, trace);
  }

  /** The abort is seen while the run would still go on, or before its first wait. */
  lemma CancelsAt(start: int, config: PollConfig, responses: seq<PollResponse>, trace: seq<Moment>,
                  times: seq<int>, slept: nat, checks: nat)
    requires Underway(start, config, responses, trace, times, checks + 1)
          || (Underway(start, config, responses, trace, times, checks)
              && ShouldPoll(trace[|trace| - 1].cadence, trace[|trace| - 1].now))
    ensures EndsRun(start, config, responses, Cancelled, times, slept, checks)
  {
    var last := trace[|trace| - 1];
    WholeRunFromFirst(start, config, responses);
    PollsMadeAreFirst(responses, trace);
    WholeChecks(start, config, responses, trace);
    ChecksAhead(last.cadence, last.now, responses[|trace| - 1..]);
    forall i | 0 <= i < |times|
      ensures AsksToWait(responses[i])
    {
      assert Follows(trace[i], responses[i], trace[i + 1]);
    }
  }

  lemma EndsHere(start: int, config: PollConfig, responses: seq<PollResponse>, trace: seq<Moment>,
                 times: seq<int>, checks: nat, slept: nat)
    requires Underway(start, config, responses, trace, times, checks)
    requires var last := trace[|trace| - 1];
             last.now == start + slept && (!ShouldPoll(last.cadence, last.now) || |trace| == |responses| + 1)
    ensures var c := trace[|trace| - 1].cadence;
            if ShouldPoll(c, start + slept)
            then EndsRun(start, config, responses, Waiting, times, slept, checks + 1)
            else EndsRun(start, config, responses, TimedOut(c.slowDowns > 0), times, slept, checks)
  {
    var last := trace[|trace| - 1];
    WholeRunFromFirst(start, config, responses);
    EndsWithoutPoll(responses, trace);
    WholeChecks(start, config, responses, trace);
    ChecksAhead(last.cadence, last.now, responses[|trace| - 1..]);
  }

  lemma EndsAfterPoll(start: int, config: PollConfig, responses: seq<PollResponse>, trace: seq<Moment>,
                      times: seq<int>, checks: nat, slept: nat)
    requires Underway(start, config, responses, trace, times, checks) && |trace| <= |responses|
    requires var last := trace[|trace| - 1];
             && last.now == start + slept && ShouldPoll(last.cadence, last.now)
             && RoundOf(last.cadence, last.now, responses[|trace| - 1]).Ends?
    ensures var last := trace[|trace| - 1];
            EndsRun(start, config, responses, RoundOf(last.cadence, last.now, responses[|trace| - 1]).outcome,
                    times + [last.now], slept, checks + 1)
  {
    var last := trace[|trace| - 1];
    WholeRunFromFirst(start, config, responses);
    EndsWithPoll(responses, trace);
    WholeChecks(start, config, responses, trace);
    assert responses[|trace| - 1..][0] == responses[|trace| - 1];
    ChecksAhead(last.cadence, last.now, responses[|trace| - 1..]);
  }

  lemma StillUnderway(start: int, config: PollConfig, responses: seq<PollResponse>, trace: seq<Moment>,
                      times: seq<int>, checks: nat, next: Moment)
    returns (longer: seq<Moment>)
    requires Underway(start, config, responses, trace, times, checks) && |trace| <= |responses|
    requires Follows(trace[|trace| - 1], responses[|trace| - 1], next)
    ensures |longer| == |trace| + 1 && longer[|trace|] == next
    ensures Underway(start, config, responses, longer, times + [trace[|trace| - 1].now], checks + 2)
  {
    longer := trace + [next];
    PassesOn(responses, trace, next);
  }

  /** The loop of the driver, from the first poll on. */
  method PollUntilDone(start: int, config: PollConfig, responses: seq<PollResponse>, aborted: nat -> bool,
                       state: DeviceCodePollState, slept0: nat, checks0: nat)
    returns (outcome: Outcome, times: seq<int>, slept: nat, checks: nat)
    requires Underway(start, config, responses, [Moment(state.Value(), start + slept0)], [], checks0)
    requires forall n: nat :: n < checks0 ==> !aborted(n)
    modifies state
    ensures EndsRun(start, config, responses, outcome, times, slept, checks)
    ensures forall n: nat :: n < checks ==> !aborted(n)
    ensures outcome == Cancelled ==> aborted(checks)
  {
    times, slept, checks := [], slept0, checks0;
    var now := start + slept;
    ghost var trace := [Moment(state.Value(), now)];
    var next := 0;
    while true
      invariant next <= |responses| && now == start + slept
      invariant Underway(start, config, responses, trace, times, checks)
      invariant next == |trace| - 1 && trace[next] == Moment(state.Value(), now)
      invariant forall n: nat :: n < checks ==> !aborted(n)
      decreases |responses| - next
    {
      if !ShouldPoll(state.Value(), now) {
        EndsHere(start, config, responses, trace, times, checks, slept);
        return TimedOut(state.slowDownResponses > 0), times, slept, checks;
      }
      if aborted(checks) {
        CancelsAt(start, config, responses, trace, times, slept, checks);
        return Cancelled, times, slept, checks;
      }
      checks := checks + 1;
      if next == |responses| {
        EndsHere(start, config, responses, trace, times, checks - 1, slept);
        return Waiting, times, slept, checks;
      }
      var round := state.Answered(responses[next], now);
      if round.Ends? {
        EndsAfterPoll(start, config, responses, trace, times, checks - 1, slept);
        return round.outcome, times + [now], slept, checks;
      }
      trace := StillUnderway(start, config, responses, trace, times, checks - 1,
                             Moment(state.Value(), now + round.delay));
      times := times + [now];
      next := next + 1;
      if aborted(checks) {
        CancelsAt(start, config, responses, trace, times, slept, checks);
        return Cancelled, times, slept, checks;
      }
      checks := checks + 1;
      slept := slept + round.delay;
      now := now + round.delay;
    }
  }

  /** The driver.  `aborted` says whether the abort flag is set at its n-th check; `checks` is how many
      checks found it unset.  Without an abort it is the run; with one, the polls made are the first
      polls of the run.  It is cancelled exactly when one of the checks the run makes sees the flag,
      and then by the first of them. */
  method PollDeviceCodeFlow(start: int, config: PollConfig, responses: seq<PollResponse>, aborted: nat -> bool)
    returns (outcome: Outcome, times: seq<int>, slept: nat, checks: nat)
    ensures EndsRun(start, config, responses, outcome, times, slept, checks)
    ensures forall n: nat :: n < checks ==> !aborted(n)
    ensures outcome == Cancelled ==> aborted(checks)
    ensures |times| <= |responses| && OutcomeFits(outcome, responses[..|times|])
    ensures outcome == Cancelled <==> exists n: nat :: n < Checks(start, config, responses) && aborted(n)
  {
    var state := new DeviceCodePollState(start, config);
    slept, checks := 0, 0;
    var first := InitialWait(state.Value(), start);
    if first.Some? {
      if aborted(checks) {
        CancelsAt(start, config, responses, [FirstMoment(start, config)], [], slept, checks);
        return Cancelled, [], slept, checks;
      }
      checks := checks + 1;
      slept := first.value;
    }
    outcome, times, slept, checks := PollUntilDone(start, config, responses, aborted, state, slept, checks);
    DriverOutcomeFits(start, config, responses, outcome, times, slept, checks);
  }

  lemma DriverOutcomeFits(start: int, config: PollConfig, responses: seq<PollResponse>,
                          outcome: Outcome, times: seq<int>, slept: nat, checks: nat)
    requires EndsRun(start, config, responses, outcome, times, slept, checks)
    ensures |times| <= |responses| && OutcomeFits(outcome, responses[..|times|])
  {
    WholeRunOutcomeFits(start, config, responses);
  }

  datatype GitHubResponse =
    | AuthorizationPending
    | GitHubSlowDown(intervalSeconds: Option<U64>)
    | GitHubSuccess(accessToken: string)
    | GitHubError(error: string, description: Option<string>)

  function Classify(r: GitHubResponse): PollResponse {
    match r
    case AuthorizationPending => Pending
    case GitHubSlowDown(given) => SlowDown(given)
    case GitHubSuccess(token) => Completed(token)
    case GitHubError(error, description) =>
      Refused("Device flow failed: " + error
              + if description.Some? && description.value != "" then ": " + description.value else "")
  }

  function ClassifyAll(responses: seq<GitHubResponse>): (rs: seq<PollResponse>)
    ensures |rs| == |responses|
  {
    seq(|responses|, i requires 0 <= i < |responses| => Classify(responses[i]))
  }

  function GitHubConfig(intervalSeconds: U64, expiresInSeconds: U64): PollConfig {
    PollConfig(Some(intervalSeconds), Some(expiresInSeconds), true)
  }

  /** The outcome in the words of the GitHub answers. */
  ghost predicate GitHubOutcomeFits(outcome: Outcome, polled: seq<GitHubResponse>) {
    && (forall i :: 0 <= i < |polled| - 1 ==> polled[i].AuthorizationPending? || polled[i].GitHubSlowDown?)
    && (forall token ::
          outcome == Token(token) <==> polled != [] && polled[|polled| - 1] == GitHubSuccess(token))
    && (outcome.Failed? <==> polled != [] && polled[|polled| - 1].GitHubError?)
    && (outcome.Failed? ==>
          var last := polled[|polled| - 1];
          if last.description.None? || last.description.value == ""
          then outcome.message == "Device flow failed: " + last.error
          else outcome.message == "Device flow failed: " + last.error + (": " + last.description.value))
    && (outcome.TimedOut? ==>
          (outcome.slowDownSeen <==> exists i :: 0 <= i < |polled| && polled[i].GitHubSlowDown?))
  }

  lemma GitHubOutcome(outcome: Outcome, responses: seq<GitHubResponse>, n: nat)
    requires n <= |responses| && OutcomeFits(outcome, ClassifyAll(responses)[..n])
    ensures GitHubOutcomeFits(outcome, responses[..n])
  {
    var polled, classified := responses[..n], ClassifyAll(responses)[..n];
    assert forall i :: 0 <= i < n ==> classified[i] == Classify(polled[i]);
    if polled != [] {
      GitHubLast(outcome, polled[n - 1], classified);
    }
    if outcome.TimedOut? {
      assert SlowDownAmong(classified) <==> exists i :: 0 <= i < |polled| && polled[i].GitHubSlowDown?;
    }
  }

  lemma GitHubLast(outcome: Outcome, last: GitHubResponse, classified: seq<PollResponse>)
    requires classified != [] && classified[|classified| - 1] == Classify(last) && OutcomeFits(outcome, classified)
    ensures forall token :: outcome == Token(token) <==> last == GitHubSuccess(token)
    ensures outcome.Failed? <==> last.GitHubError?
    ensures outcome.Failed? ==> outcome.message == Classify(last).message
  {
    if outcome.Failed? {
      assert outcome == Failed(outcome.message);
    }
    if last.GitHubError? {
      assert Classify(last) == Refused(Classify(last).message);
      assert outcome == Failed(Classify(last).message);
    }
  }

  /** The loop of the simulator, the first wait included. */
  method SimulatePolls(start: int, config: PollConfig, responses: seq<GitHubResponse>)
    returns (times: seq<int>, outcome: Outcome, at: int)
    ensures var run := WholeRun(start, config, ClassifyAll(responses));
            times == run.times && outcome == run.outcome && at == run.endedAt
  {
    ghost var script := ClassifyAll(responses);
    WholeRunFromFirst(start, config, script);
    var state := new DeviceCodePollState(start, config);
    var now := start;
    times := [];
    var first := InitialWait(state.Value(), now);
    if first.Some? {
      now := now + first.value;
    }
    ghost var trace := [Moment(state.Value(), now)];
    var next := 0;
    while true
      invariant next <= |responses|
      invariant PassesThrough(script, trace) && trace[0] == FirstMoment(start, config)
      invariant next == |trace| - 1 && trace[next] == Moment(state.Value(), now)
      invariant times == Polls(trace)
      decreases |responses| - next
    {
      if !ShouldPoll(state.Value(), now) {
        EndsWithoutPoll(script, trace);
        return times, TimedOut(state.slowDownResponses > 0), now;
      }
      if next == |responses| {
        EndsWithoutPoll(script, trace);
        return times, Waiting, now;
      }
      times := times + [now];
      var round := state.Answered(Classify(responses[next]), now);
      if round.Ends? {
        EndsWithPoll(script, trace);
        return times, round.outcome, now;
      }
      PassesOn(script, trace, Moment(state.Value(), now + round.delay));
      trace := trace + [Moment(state.Value(), now + round.delay)];
      next := next + 1;
      now := now + round.delay;
    }
  }

  lemma GitHubRunOutcome(start: int, config: PollConfig, responses: seq<GitHubResponse>)
    ensures var run := WholeRun(start, config, ClassifyAll(responses));
            |run.times| <= |responses| && GitHubOutcomeFits(run.outcome, responses[..|run.times|])
  {
    var run := WholeRun(start, config, ClassifyAll(responses));
    WholeRunOutcomeFits(start, config, ClassifyAll(responses));
    GitHubOutcome(run.outcome, responses, |run.times|);
  }

  /** The simulator.  It agrees with the driver: both are the run. */
  method SimulateGitHubPollTimes(start: int, intervalSeconds: U64, expiresInSeconds: U64,
                                 responses: seq<GitHubResponse>)
    returns (times: seq<int>, outcome: Outcome, at: int)
    ensures var run := WholeRun(start, GitHubConfig(intervalSeconds, expiresInSeconds), ClassifyAll(responses));
            times == run.times && outcome == run.outcome && at == run.endedAt
    ensures |times| <= |responses| && GitHubOutcomeFits(outcome, responses[..|times|])
  {
    times, outcome, at := SimulatePolls(start, GitHubConfig(intervalSeconds, expiresInSeconds), responses);
    GitHubRunOutcome(start, GitHubConfig(intervalSeconds, expiresInSeconds), responses);
  }

  // ---------------------------------------------------------------------
  // The cadence.

  /** Every poll is strictly before the deadline; each comes exactly the interval then in force after
      the one before it, although waits are cut off at the deadline; no interval is under a second. */
  predicate WellPaced(run: PollRun, deadline: Option<int>, from: int) {
    && |run.times| == |run.intervals|
    && (run.times != [] ==> run.times[0] == from)
    && (forall i :: 0 <= i < |run.times| && deadline.Some? ==> run.times[i] < deadline.value)
    && (forall i :: 0 < i < |run.times| ==> run.times[i] == run.times[i - 1] + run.intervals[i - 1])
    && (forall i :: 0 <= i < |run.intervals| ==> run.intervals[i] >= MINIMUM_INTERVAL_MS)
    && (run.outcome.TimedOut? ==> deadline.Some? && run.endedAt >= deadline.value)
  }

  lemma ShortRunIsPaced(c: Cadence, now: int, responses: seq<PollResponse>)
    requires c.interval >= MINIMUM_INTERVAL_MS && !GoesOn(c, now, responses)
    ensures WellPaced(Run(c, now, responses), c.deadline, now)
  {
    var run := Run(c, now, responses);
    assert |run.times| == |run.intervals| <= 1;
  }

  lemma {:induction false} RunIsWellPaced(c: Cadence, now: int, responses: seq<PollResponse>)
    requires c.interval >= MINIMUM_INTERVAL_MS
    ensures WellPaced(Run(c, now, responses), c.deadline, now)
    decreases |responses|
  {
    if GoesOn(c, now, responses) {
      var c' := AfterResponse(c, responses[0]);
      var delay := RoundOf(c, now, responses[0]).delay;
      RunGoesOn(c, now, responses);
      RunIsWellPaced(c', now + delay, responses[1..]);
      PacedEarlier(now, c', delay, Run(c', now + delay, responses[1..]));
    } else {
      ShortRunIsPaced(c, now, responses);
    }
  }

  lemma PacedEarlier(now: int, c: Cadence, delay: nat, rest: PollRun)
    requires ShouldPoll(c, now) && Wait(c, now) == Some(delay) && c.interval >= MINIMUM_INTERVAL_MS
    requires WellPaced(rest, c.deadline, now + delay)
    ensures WellPaced(Earlier([now], [c.interval], rest), c.deadline, now)
  {
    var run := Earlier([now], [c.interval], rest);
    forall i | 0 < i < |run.times|
      ensures run.times[i] == run.times[i - 1] + run.intervals[i - 1]
    {
      if i > 1 {
        assert rest.times[i - 1] == rest.times[i - 2] + rest.intervals[i - 2];
      }
    }
  }

  lemma EveryRunIsWellPaced(start: int, config: PollConfig, responses: seq<PollResponse>)
    ensures var c := NewCadence(start, config);
            var first := InitialWait(c, start);
            WellPaced(WholeRun(start, config, responses), c.deadline, start + if first.Some? then first.value else 0)
  {
    var c := NewCadence(start, config);
    var first := InitialWait(c, start);
    RunIsWellPaced(c, start + if first.Some? then first.value else 0, responses);
  }

  lemma {:induction false} PollsTakeSeconds(run: PollRun, deadline: Option<int>, from: int, n: nat)
    requires WellPaced(run, deadline, from) && n < |run.times|
    ensures run.times[n] >= from + 1000 * n
  {
    if n > 0 {
      PollsTakeSeconds(run, deadline, from, n - 1);
    }
  }

  /** A code that lives E seconds is polled at most E times. */
  lemma AtMostOnePollPerSecond(start: int, config: PollConfig, responses: seq<PollResponse>)
    requires config.expiresInSeconds.Some?
    ensures |WholeRun(start, config, responses).times| <= config.expiresInSeconds.value
  {
    var run := WholeRun(start, config, responses);
    var c := NewCadence(start, config);
    var first := InitialWait(c, start);
    var from := start + if first.Some? then first.value else 0;
    EveryRunIsWellPaced(start, config, responses);
    if run.times != [] {
      PollsTakeSeconds(run, c.deadline, from, |run.times| - 1);
    }
  }

  /** The interval in force after each answer: a slow-down moves it, nothing else does. */
  predicate IntervalsFit(first: U64, intervals: seq<U64>, responses: seq<PollResponse>) {
    |intervals| <= |responses| && forall i :: 0 <= i < |intervals| ==> IntervalFits(first, intervals, responses, i)
  }

  predicate IntervalFits(first: U64, intervals: seq<U64>, responses: seq<PollResponse>, i: nat)
    requires i < |intervals| <= |responses|
  {
    var before := if i == 0 then first else intervals[i - 1];
    intervals[i] == if responses[i].SlowDown? then SlowedInterval(before, responses[i].intervalSeconds) else before
  }

  lemma {:induction false} IntervalsFollowAnswers(c: Cadence, now: int, responses: seq<PollResponse>)
    ensures IntervalsFit(c.interval, Run(c, now, responses).intervals, responses)
    decreases |responses|
  {
    if GoesOn(c, now, responses) {
      var c' := AfterResponse(c, responses[0]);
      var delay := RoundOf(c, now, responses[0]).delay;
      RunGoesOn(c, now, responses);
      IntervalsFollowAnswers(c', now + delay, responses[1..]);
      IntervalsEarlier(c.interval, c'.interval, Run(c', now + delay, responses[1..]).intervals, responses);
    }
  }

  lemma IntervalsEarlier(first: U64, next: U64, later: seq<U64>, responses: seq<PollResponse>)
    requires responses != [] && IntervalsFit(next, later, responses[1..])
    requires next == if responses[0].SlowDown? then SlowedInterval(first, responses[0].intervalSeconds) else first
    ensures IntervalsFit(first, [next] + later, responses)
  {
    var all := [next] + later;
    forall i | 0 <= i < |all|
      ensures IntervalFits(first, all, responses, i)
    {
      if i > 0 {
        assert IntervalFits(next, later, responses[1..], i - 1);
      }
    }
  }

  /** The interval a run begins with: the server's, five seconds when it names none, at least one
      second, and at most what 64 bits hold; and the one a slow-down that names an interval sets. */
  lemma IntervalsInSeconds(start: int, config: PollConfig, interval: U64, given: U64)
    ensures config.intervalSeconds.None? ==> NewCadence(start, config).interval == 5000
    ensures config.intervalSeconds.Some? && 1 <= config.intervalSeconds.value <= U64_MAX / 1000 ==>
              NewCadence(start, config).interval == config.intervalSeconds.value * 1000
    ensures config.intervalSeconds == Some(0) ==> NewCadence(start, config).interval == 1000
    ensures config.intervalSeconds.Some? && config.intervalSeconds.value > U64_MAX / 1000 ==>
              NewCadence(start, config).interval == U64_MAX
    ensures 1 <= given <= U64_MAX / 1000 ==> SlowedInterval(interval, Some(given)) == given * 1000
    ensures given > U64_MAX / 1000 ==> SlowedInterval(interval, Some(given)) == U64_MAX
    ensures SlowedInterval(interval, Some(0)) == SlowedInterval(interval, None)
  {
  }

  /** When the first poll is due: at the start, or one interval later when the flow waits first; a
      shorter lifetime cuts the wait off, and a lifetime of nothing is not waited for. */
  lemma FirstPollIsDue(start: int, config: PollConfig)
    ensures var due := FirstMoment(start, config).now;
            var interval := NewCadence(start, config).interval;
            && (!config.waitBeforeFirstPoll ==> due == start)
            && (config.waitBeforeFirstPoll && config.expiresInSeconds.None? ==> due == start + interval)
            && (config.waitBeforeFirstPoll && config.expiresInSeconds.Some? ==>
                  due == start + if interval < config.expiresInSeconds.value * 1000 then interval
                                 else config.expiresInSeconds.value * 1000)
  {
  }

  function SlowDownTimes(c: Cadence, k: nat): Cadence {
    if k == 0 then c else AfterResponse(SlowDownTimes(c, k - 1), SlowDown(None))
  }

  /** Slow-downs without an interval add five seconds each, exactly as long as 64 bits can hold it. */
  lemma {:induction false} SlowDownsAddUp(c: Cadence, k: nat)
    requires c.interval >= MINIMUM_INTERVAL_MS
    ensures c.interval + 5000 * k <= U64_MAX ==> SlowDownTimes(c, k).interval == c.interval + 5000 * k
    ensures SlowDownTimes(c, k).slowDowns == c.slowDowns + k
  {
    if k > 0 {
      SlowDownsAddUp(c, k - 1);
    }
  }

  /** A slow-down does not shorten the interval exactly when the interval the server gives is not
      shorter, or, when it gives none, when five seconds more still fit in 64 bits. */
  lemma WhenSlowDownsDoNotShorten(interval: U64, given: Option<U64>)
    requires interval >= MINIMUM_INTERVAL_MS
    ensures SlowedInterval(interval, given) >= interval <==>
              if given.Some? && given.value > 0 then given.value * 1000 >= interval
              else interval + SLOW_DOWN_INTERVAL_INCREMENT_MS <= U64_MAX
  {
    if !(given.Some? && given.value > 0) && interval + SLOW_DOWN_INTERVAL_INCREMENT_MS > U64_MAX {
      assert (interval + SLOW_DOWN_INTERVAL_INCREMENT_MS) % 0x1_0000_0000_0000_0000
          == interval + SLOW_DOWN_INTERVAL_INCREMENT_MS - 0x1_0000_0000_0000_0000;
    }
  }
}
