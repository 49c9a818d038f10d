/** The ledger of a run of the agent loop: what arrived in each queue, what was injected from it and
    in which round, and what was taken from it and never injected. */
module AgentLedger {
  import opened Wrappers
  import opened Messages
  import opened AgentEvents
  import opened AgentQueue
  import opened AgentTools
  import opened AgentCourse

  /** What one poll took from its queue, and what the caller's own provider added. */
  datatype Batch = Batch(own: seq<AgentMessage>, extra: seq<AgentMessage>, fromFollowUps: bool)

  const NOTHING := Batch([], [], false)

  function All(b: Batch): seq<AgentMessage> {
    b.own + b.extra
  }

  /** What of a batch came out of the one queue or the other. */
  function OfQueue(b: Batch, followUps: bool): seq<AgentMessage> {
    if b.fromFollowUps == followUps then b.own else []
  }

  function PollBatch(script: PollScript, waiting: seq<AgentMessage>, fromFollowUps: bool): Batch {
    Batch(DrainedBy(script.mode, waiting + script.arrivals).0,
          if script.extra.Success? then script.extra.value else [], fromFollowUps)
  }

  /** One round: the batch injected before its turn, what the turn added, whether its tool results ask
      for another turn, what the steering poll after it gave, and the batch that goes on. */
  datatype RoundLog = RoundLog(
    batch: Batch, answer: seq<AgentMessage>, continues: bool, steered: seq<AgentMessage>, next: Batch)

  datatype Ledger = Ledger(rounds: seq<RoundLog>, arrived: Queues, lost: Batch)

  /** The polls after a turn: what steering gave, the batch that goes on, and what arrived. */
  datatype Polls = Polls(steered: seq<AgentMessage>, next: Batch, arrived: Queues)

  function PollsAfter(script: TurnScript, continues: bool, q: Queues): Polls {
    if script.prepareFailure.Some? || script.stop != Success(false) then Polls([], NOTHING, Queues([], []))
    else
      var steered := PollBatch(script.steering, q.steering, false);
      if script.steering.extra.Failure? || continues || All(steered) != [] then
        Polls(All(steered), steered, Queues(script.steering.arrivals, []))
      else
        Polls([], PollBatch(script.followUp, q.followUps, true),
              Queues(script.steering.arrivals, script.followUp.arrivals))
  }

  /** A round's entry, and what arrived in it. */
  function EntryFor(script: TurnScript, now: int, pending: Batch, q: Queues): (RoundLog, Queues) {
    match TurnResult(script, now)
    case Failure(_) => (RoundLog(pending, [], false, [], NOTHING), Queues([], []))
    case Success(outcome) =>
      var continues := !outcome.terminate && outcome.toolResults != [];
      if outcome.terminalAssistant then
        (RoundLog(pending, outcome.messages, continues, [], NOTHING), Queues([], []))
      else
        var polls := PollsAfter(script, continues, q);
        (RoundLog(pending, outcome.messages, continues, polls.steered, polls.next), polls.arrived)
  }

  function Joined(a: Queues, b: Queues): Queues {
    Queues(a.steering + b.steering, a.followUps + b.followUps)
  }

  function LedgerFrom(config: LoopConfig, script: nat -> TurnScript, turn: nat, pending: Batch, q: Queues): Ledger
    decreases MaxTurns(config) - turn
  {
    if turn >= MaxTurns(config) then Ledger([], Queues([], []), pending)
    else
      var r := RoundFor(script(turn), config.now, All(pending), q);
      var (log, arrived) := EntryFor(script(turn), config.now, pending, q);
      if r.round.NextRound? then
        var rest := LedgerFrom(config, script, turn + 1, log.next, r.queues);
        Ledger([log] + rest.rounds, Joined(arrived, rest.arrived), rest.lost)
      else Ledger([log], arrived, log.next)
  }

  function WholeLedger(config: LoopConfig, script: nat -> TurnScript, firstPoll: PollScript, q: Queues): Ledger {
    if config.skipInitialPoll then LedgerFrom(config, script, 0, NOTHING, q)
    else
      var first := PollBatch(firstPoll, q.steering, false);
      var arrived := Queues(firstPoll.arrivals, []);
      if firstPoll.extra.Failure? then Ledger([], arrived, first)
      else
        var rest := LedgerFrom(config, script, 0, first, q.(steering := Polled(firstPoll, q.steering).1));
        rest.(arrived := Joined(arrived, rest.arrived))
  }

  // ---------------------------------------------------------------------
  // What a ledger says.

  /** The messages of the rounds: each batch, then what its turn added. */
  function Woven(rounds: seq<RoundLog>): seq<AgentMessage> {
    if rounds == [] then [] else (All(rounds[0].batch) + rounds[0].answer) + Woven(rounds[1..])
  }

  /** What was injected from one queue, in order. */
  function Injected(rounds: seq<RoundLog>, followUps: bool): seq<AgentMessage> {
    if rounds == [] then [] else OfQueue(rounds[0].batch, followUps) + Injected(rounds[1..], followUps)
  }

  /** `a` stands within `b`, in order, perhaps with other messages in between. */
  predicate Within(a: seq<AgentMessage>, b: seq<AgentMessage>)
    decreases |b|
  {
    a == [] || (b != [] && ((a[0] == b[0] && Within(a[1..], b[1..])) || Within(a, b[1..])))
  }

  /** Each round injects what the round before it handed on; follow-ups are handed on only when
      neither the tool results nor steering ask for another turn. */
  predicate FollowUpsComeLast(rounds: seq<RoundLog>) {
    && (forall i :: 0 < i < |rounds| ==> rounds[i].batch == rounds[i - 1].next)
    && (forall i :: 0 <= i < |rounds| && rounds[i].next.fromFollowUps ==>
          !rounds[i].continues && rounds[i].steered == [])
  }

  /** First in, first out: what waited and what arrived is what was injected, what was lost and what
      is left, in this order. */
  predicate QueueBalances(waited: seq<AgentMessage>, arrived: seq<AgentMessage>, injected: seq<AgentMessage>,
                          lost: seq<AgentMessage>, left: seq<AgentMessage>)
  {
    waited + arrived == injected + (lost + left)
  }

  function Part(q: Queues, followUps: bool): seq<AgentMessage> {
    if followUps then q.followUps else q.steering
  }

  /** One queue balances, for a stretch of a run that begins with a batch in hand. */
  predicate OneBalances(followUps: bool, pending: Batch, q: Queues, l: Ledger, left: Queues) {
    QueueBalances(OfQueue(pending, followUps) + Part(q, followUps), Part(l.arrived, followUps),
                  Injected(l.rounds, followUps), OfQueue(l.lost, followUps), Part(left, followUps))
  }

  predicate BothBalance(pending: Batch, q: Queues, l: Ledger, left: Queues) {
    forall followUps :: OneBalances(followUps, pending, q, l, left)
  }

  /** What is lost is what the last poll gave, and only a turn limit or a failing provider loses it. */
  ghost predicate LossIsExact(script: nat -> TurnScript, pending: Batch, l: Ledger, ending: Ending) {
    && l.lost == (if l.rounds == [] then pending else l.rounds[|l.rounds| - 1].next)
    && (ending.CourseEnds? ==> All(l.lost) == [])
    && (ending.CourseFails? && QuietProviders(script) && l.rounds != [] ==> l.lost.own == [])
  }

  // ---------------------------------------------------------------------
  // One round.

  lemma DrainSplits(mode: QueueMode, waiting: seq<AgentMessage>)
    ensures DrainedBy(mode, waiting).0 + DrainedBy(mode, waiting).1 == waiting
  {
  }

  lemma PollSplits(script: PollScript, waiting: seq<AgentMessage>, fromFollowUps: bool)
    ensures var batch := PollBatch(script, waiting, fromFollowUps);
            var (given, left) := Polled(script, waiting);
            && waiting + script.arrivals == batch.own + left
            && (given.Success? <==> script.extra.Success?) && (given.Success? ==> given.value == All(batch))
            && (All(batch) == [] ==> batch.own == [])
  {
    DrainSplits(script.mode, waiting + script.arrivals);
    var batch := PollBatch(script, waiting, fromFollowUps);
    assert batch.own != [] ==> |All(batch)| > 0;
  }

  /** What the polls after a turn say about the queues and about how the run goes on. */
  predicate PollsFit(script: TurnScript, continues: bool, q: Queues, polls: Polls, round: Round, left: Queues) {
    && q.steering + polls.arrived.steering == OfQueue(polls.next, false) + left.steering
    && q.followUps + polls.arrived.followUps == OfQueue(polls.next, true) + left.followUps
    && (round.NextRound? ==> round.queued == All(polls.next))
    && (round.LastRound? ==> All(polls.next) == [])
    && (polls.next.fromFollowUps ==> !continues && polls.steered == [])
    && (round.RoundFailed? && script.steering.extra == script.followUp.extra == Success([]) ==>
          polls.next.own == [])
  }

  lemma PollsFitAfter(script: TurnScript, continues: bool, q: Queues)
    ensures var (round, left) := After(script, continues, q);
            PollsFit(script, continues, q, PollsAfter(script, continues, q), round, left)
  {
    PollSplits(script.steering, q.steering, false);
    PollSplits(script.followUp, q.followUps, true);
  }

  lemma EntryFits(script: TurnScript, now: int, pending: Batch, q: Queues)
    ensures var r := RoundFor(script, now, All(pending), q);
            var (log, arrived) := EntryFor(script, now, pending, q);
            && log.batch == pending && r.messages == All(pending) + log.answer
            && PollsFit(script, log.continues, q, Polls(log.steered, log.next, arrived), r.round, r.queues)
  {
    var result := TurnResult(script, now);
    if result.Success? {
      PollsFitAfter(script, !result.value.terminate && result.value.toolResults != [], q);
    } else {
      assert All(pending) + [] == All(pending);
    }
  }

  // ---------------------------------------------------------------------
  // The whole run.

  lemma Concatenate(a: seq<AgentMessage>, b: seq<AgentMessage>, c: seq<AgentMessage>)
    ensures (a + b) + c == a + (b + c)
    ensures a + [] == a && [] + a == a
  {
  }

  /** One round's part of the balance: what goes on is waiting again. */
  lemma BalanceGoesOn(held: seq<AgentMessage>, q: seq<AgentMessage>, arrived: seq<AgentMessage>,
                      next: seq<AgentMessage>, left: seq<AgentMessage>, later: seq<AgentMessage>,
                      injected: seq<AgentMessage>, lost: seq<AgentMessage>, last: seq<AgentMessage>)
    requires q + arrived == next + left
    requires QueueBalances(next + left, later, injected, lost, last)
    ensures QueueBalances(held + q, arrived + later, held + injected, lost, last)
  {
    Concatenate(q, arrived, later);
    Concatenate(held, q, arrived + later);
    Concatenate(held, injected, lost + last);
  }

  lemma BalanceEnds(held: seq<AgentMessage>, q: seq<AgentMessage>, arrived: seq<AgentMessage>,
                    next: seq<AgentMessage>, left: seq<AgentMessage>)
    requires q + arrived == next + left
    ensures QueueBalances(held + q, arrived, held + [], next, left)
  {
    Concatenate(held, q, arrived);
    Concatenate(held, [], []);
  }

  lemma OneRound(log: RoundLog)
    ensures Woven([log]) == All(log.batch) + log.answer
    ensures forall f :: Injected([log], f) == OfQueue(log.batch, f) + []
  {
    assert [log][1..] == [];
    Concatenate(All(log.batch) + log.answer, [], []);
  }

  lemma FirstRound(log: RoundLog, rest: seq<RoundLog>)
    ensures Woven([log] + rest) == (All(log.batch) + log.answer) + Woven(rest)
    ensures forall f :: Injected([log] + rest, f) == OfQueue(log.batch, f) + Injected(rest, f)
  {
    assert ([log] + rest)[1..] == rest;
  }

  /** The messages of the rest of a run are those of its rounds, and both queues balance. */
  ghost predicate Booked(config: LoopConfig, script: nat -> TurnScript, turn: nat, pending: Batch, q: Queues) {
    var l := LedgerFrom(config, script, turn, pending, q);
    var c := CourseFrom(config, script, turn, All(pending), q);
    c.messages == Woven(l.rounds) && BothBalance(pending, q, l, c.queues)
  }

  lemma LimitBalances(config: LoopConfig, script: nat -> TurnScript, turn: nat, pending: Batch, q: Queues)
    requires turn >= MaxTurns(config)
    ensures Booked(config, script, turn, pending, q)
  {
    var l := LedgerFrom(config, script, turn, pending, q);
    forall followUps
      ensures OneBalances(followUps, pending, q, l, q)
    {
      NothingDone(OfQueue(pending, followUps), Part(q, followUps));
    }
  }

  lemma NothingDone(held: seq<AgentMessage>, waiting: seq<AgentMessage>)
    ensures QueueBalances(held + waiting, [], [], held, waiting)
  {
    Concatenate(held + waiting, [], []);
  }

  lemma RoundEnds(config: LoopConfig, script: nat -> TurnScript, turn: nat, pending: Batch, q: Queues)
    requires turn < MaxTurns(config)
    requires !RoundFor(script(turn), config.now, All(pending), q).round.NextRound?
    ensures Booked(config, script, turn, pending, q)
  {
    var r := RoundFor(script(turn), config.now, All(pending), q);
    var (log, arrived) := EntryFor(script(turn), config.now, pending, q);
    EntryFits(script(turn), config.now, pending, q);
    OneRound(log);
    forall followUps
      ensures OneBalances(followUps, pending, q, Ledger([log], arrived, log.next), r.queues)
    {
      BalanceEnds(OfQueue(pending, followUps), Part(q, followUps), Part(arrived, followUps),
                  OfQueue(log.next, followUps), Part(r.queues, followUps));
    }
  }

  lemma RoundGoesOn(config: LoopConfig, script: nat -> TurnScript, turn: nat, pending: Batch, q: Queues)
    requires turn < MaxTurns(config)
    requires var r := RoundFor(script(turn), config.now, All(pending), q);
             && r.round.NextRound?
             && Booked(config, script, turn + 1, EntryFor(script(turn), config.now, pending, q).0.next, r.queues)
    ensures Booked(config, script, turn, pending, q)
  {
    var r := RoundFor(script(turn), config.now, All(pending), q);
    var (log, arrived) := EntryFor(script(turn), config.now, pending, q);
    var rest := LedgerFrom(config, script, turn + 1, log.next, r.queues);
    var c := CourseFrom(config, script, turn + 1, All(log.next), r.queues);
    EntryFits(script(turn), config.now, pending, q);
    FirstRound(log, rest.rounds);
    var l := Ledger([log] + rest.rounds, Joined(arrived, rest.arrived), rest.lost);
    forall followUps
      ensures OneBalances(followUps, pending, q, l, c.queues)
    {
      assert OneBalances(followUps, log.next, r.queues, rest, c.queues);
      BalanceGoesOn(OfQueue(pending, followUps), Part(q, followUps), Part(arrived, followUps),
                    OfQueue(log.next, followUps), Part(r.queues, followUps), Part(rest.arrived, followUps),
                    Injected(rest.rounds, followUps), OfQueue(rest.lost, followUps), Part(c.queues, followUps));
    }
    Concatenate(All(pending), log.answer, Woven(rest.rounds));
  }

  /** A ledger from the batch in hand on: its rounds follow one another, and its loss is exact. */
  ghost predicate Ordered(script: nat -> TurnScript, pending: Batch, l: Ledger, ending: Ending) {
    && FollowUpsComeLast(l.rounds) && LossIsExact(script, pending, l, ending)
    && (l.rounds != [] ==> l.rounds[0].batch == pending)
  }

  ghost predicate OrderedFrom(config: LoopConfig, script: nat -> TurnScript, turn: nat, pending: Batch, q: Queues) {
    Ordered(script, pending, LedgerFrom(config, script, turn, pending, q),
            CourseFrom(config, script, turn, All(pending), q).ending)
  }

  lemma LastRoundOrdered(config: LoopConfig, script: nat -> TurnScript, turn: nat, pending: Batch, q: Queues)
    requires turn < MaxTurns(config)
    requires !RoundFor(script(turn), config.now, All(pending), q).round.NextRound?
    ensures OrderedFrom(config, script, turn, pending, q)
  {
    var r := RoundFor(script(turn), config.now, All(pending), q);
    var (log, arrived) := EntryFor(script(turn), config.now, pending, q);
    EntryFits(script(turn), config.now, pending, q);
    OrderEnds(script, turn, log, arrived, r.round, q, r.queues);
  }

  lemma RoundContinues(config: LoopConfig, script: nat -> TurnScript, turn: nat, pending: Batch, q: Queues)
    requires turn < MaxTurns(config)
    requires var r := RoundFor(script(turn), config.now, All(pending), q);
             && r.round.NextRound?
             && OrderedFrom(config, script, turn + 1, EntryFor(script(turn), config.now, pending, q).0.next, r.queues)
    ensures OrderedFrom(config, script, turn, pending, q)
  {
    var r := RoundFor(script(turn), config.now, All(pending), q);
    var (log, arrived) := EntryFor(script(turn), config.now, pending, q);
    EntryFits(script(turn), config.now, pending, q);
    OrderContinues(script, log, arrived, LedgerFrom(config, script, turn + 1, log.next, r.queues),
                   CourseFrom(config, script, turn + 1, All(log.next), r.queues).ending);
  }

  lemma OrderEnds(script: nat -> TurnScript, turn: nat, log: RoundLog, arrived: Queues, round: Round, q: Queues,
                  left: Queues)
    requires PollsFit(script(turn), log.continues, q, Polls(log.steered, log.next, arrived), round, left)
    requires !round.NextRound?
    ensures Ordered(script, log.batch, Ledger([log], arrived, log.next),
                    if round.LastRound? then CourseEnds else CourseFails(round.error, round.between))
  {
  }

  lemma OrderContinues(script: nat -> TurnScript, log: RoundLog, arrived: Queues, rest: Ledger, ending: Ending)
    requires Ordered(script, log.next, rest, ending)
    requires log.next.fromFollowUps ==> !log.continues && log.steered == []
    requires ending.CourseFails? ==> rest.rounds != []
    ensures Ordered(script, log.batch, Ledger([log] + rest.rounds, Joined(arrived, rest.arrived), rest.lost), ending)
  {
    OrderGoesOn(log, rest.rounds);
  }

  lemma OrderGoesOn(log: RoundLog, rest: seq<RoundLog>)
    requires FollowUpsComeLast(rest) && (rest != [] ==> rest[0].batch == log.next)
    requires log.next.fromFollowUps ==> !log.continues && log.steered == []
    ensures FollowUpsComeLast([log] + rest)
    ensures var all := [log] + rest; all[|all| - 1].next == if rest == [] then log.next else rest[|rest| - 1].next
  {
    var all := [log] + rest;
    assert forall i :: 0 < i < |all| ==> all[i] == rest[i - 1];
  }

  /** The ledger from a round on is right, for either queue. */
  ghost predicate Kept(config: LoopConfig, script: nat -> TurnScript, turn: nat, pending: Batch, q: Queues) {
    forall followUps: bool :: KeptFor(followUps, config, script, turn, pending, q)
  }

  ghost predicate KeptFor(followUps: bool, config: LoopConfig, script: nat -> TurnScript, turn: nat, pending: Batch,
                          q: Queues)
  {
    Booked(config, script, turn, pending, q) && OrderedFrom(config, script, turn, pending, q)
  }

  /** One round of the argument: it is right here, or it is if it is right from the next round on. */
  lemma RoundIsKept(config: LoopConfig, script: nat -> TurnScript, turn: nat, pending: Batch, q: Queues)
    returns (goesOn: bool, next: Batch, left: Queues)
    requires turn < MaxTurns(config)
    ensures !goesOn ==> Kept(config, script, turn, pending, q)
    ensures goesOn && Kept(config, script, turn + 1, next, left) ==> Kept(config, script, turn, pending, q)
  {
    var r := RoundFor(script(turn), config.now, All(pending), q);
    goesOn, next, left := r.round.NextRound?, EntryFor(script(turn), config.now, pending, q).0.next, r.queues;
    if !goesOn {
      RoundEnds(config, script, turn, pending, q);
      LastRoundOrdered(config, script, turn, pending, q);
    } else if Kept(config, script, turn + 1, next, left) {
      assert KeptFor(false, config, script, turn + 1, next, left);
      RoundGoesOn(config, script, turn, pending, q);
      RoundContinues(config, script, turn, pending, q);
    }
  }

  lemma {:induction false} LedgerIsKept(
    config: LoopConfig, script: nat -> TurnScript, turn: nat, pending: Batch, q: Queues)
    ensures Kept(config, script, turn, pending, q)
    decreases MaxTurns(config) - turn
  {
    if turn < MaxTurns(config) {
      var goesOn, next, left := RoundIsKept(config, script, turn, pending, q);
      if goesOn {
        LedgerIsKept(config, script, turn + 1, next, left);
      }
    } else {
      LimitBalances(config, script, turn, pending, q);
    }
  }

  // ---------------------------------------------------------------------
  // Order within the messages.

  lemma {:induction false} WithinMore(a: seq<AgentMessage>, b: seq<AgentMessage>, more: seq<AgentMessage>)
    requires Within(a, b)
    ensures Within(a, more + b)
    decreases |more|
  {
    if more == [] {
      assert more + b == b;
    } else {
      WithinMore(a, b, more[1..]);
      assert (more + b)[1..] == more[1..] + b;
    }
  }

  lemma {:induction false} WithinBoth(a: seq<AgentMessage>, c: seq<AgentMessage>, d: seq<AgentMessage>)
    requires Within(c, d)
    ensures Within(a + c, a + d)
    decreases |a|
  {
    if a == [] {
      assert a + c == c && a + d == d;
    } else {
      WithinBoth(a[1..], c, d);
      assert (a + c)[1..] == a[1..] + c && (a + d)[1..] == a[1..] + d;
    }
  }

  /** What was injected from a queue stands among the messages of the rounds, in order. */
  lemma {:induction false} InjectedInOrder(rounds: seq<RoundLog>, followUps: bool)
    ensures Within(Injected(rounds, followUps), Woven(rounds))
  {
    if rounds != [] {
      var b, rest := rounds[0].batch, rounds[1..];
      InjectedInOrder(rest, followUps);
      var after := b.extra + rounds[0].answer;
      assert Woven(rounds) == b.own + (after + Woven(rest));
      WithinMore(Injected(rest, followUps), Woven(rest), after);
      if b.fromFollowUps == followUps {
        WithinBoth(b.own, Injected(rest, followUps), after + Woven(rest));
      } else {
        WithinMore(Injected(rest, followUps), after + Woven(rest), b.own);
        Concatenate(Injected(rest, followUps), [], []);
      }
    }
  }

  // ---------------------------------------------------------------------
  // The result.

  /** Nothing taken from a queue during the run was lost. */
  predicate NothingLost(l: Ledger) {
    l.lost.own == []
  }

  /** The messages of a run are those of its rounds; for each queue, what waited before the run and
      what arrived during it is what was injected from it, in order within the messages, then what was
      lost, then what is left; follow-ups come last. */
  predicate BooksBalance(q: Queues, l: Ledger, course: Course) {
    && course.messages == Woven(l.rounds)
    && FollowUpsComeLast(l.rounds)
    && forall followUps: bool ::
         && QueueBalances(Part(q, followUps), Part(l.arrived, followUps), Injected(l.rounds, followUps),
                          OfQueue(l.lost, followUps), Part(course.queues, followUps))
         && Within(Injected(l.rounds, followUps), course.messages)
  }

  /** The books of a whole run balance.  A run that goes well loses nothing.  With providers that add
      nothing and do not fail, something is lost exactly when the turn limit was hit and the last
      poll took something, and then it is what that poll took. */
  ghost predicate Balances(config: LoopConfig, script: nat -> TurnScript, firstPoll: PollScript, q: Queues,
                           course: Course)
  {
    var l := WholeLedger(config, script, firstPoll, q);
    && BooksBalance(q, l, course)
    && (course.ending.CourseEnds? ==> NothingLost(l))
    && (InternalOnly(script, firstPoll) ==> LossAtLimit(l, course))
  }

  predicate LossAtLimit(l: Ledger, course: Course) {
    && l.rounds != []
    && var last := l.rounds[|l.rounds| - 1].next;
       l.lost.own == (if course.ending.LimitHit? then last.own else [])
  }

  lemma RunBalances(config: LoopConfig, script: nat -> TurnScript, firstPoll: PollScript, q: Queues)
    ensures Balances(config, script, firstPoll, q, WholeCourse(config, script, firstPoll, q))
  {
    if config.skipInitialPoll {
      UnpolledRunBalances(config, script, q);
    } else if firstPoll.extra.Success? {
      PolledRunBalances(config, script, firstPoll, q);
    } else {
      FailedPollBalances(firstPoll, q);
    }
  }

  lemma UnpolledRunBalances(config: LoopConfig, script: nat -> TurnScript, q: Queues)
    ensures var l := LedgerFrom(config, script, 0, NOTHING, q);
            var c := CourseFrom(config, script, 0, [], q);
            && BooksBalance(q, l, c) && (c.ending.CourseEnds? ==> NothingLost(l))
            && (QuietProviders(script) ==> LossAtLimit(l, c))
  {
    var l := LedgerFrom(config, script, 0, NOTHING, q);
    var c := CourseFrom(config, script, 0, [], q);
    RunBalancesFrom(config, script, NOTHING, q);
    assert All(NOTHING) == [];
    forall followUps: bool
      ensures QueueBalances(Part(q, followUps), Part(l.arrived, followUps), Injected(l.rounds, followUps),
                            OfQueue(l.lost, followUps), Part(c.queues, followUps))
    {
      assert OneBalances(followUps, NOTHING, q, l, c.queues);
      Concatenate(Part(q, followUps), [], []);
    }
  }

  lemma FailedPollBalances(firstPoll: PollScript, q: Queues)
    requires firstPoll.extra.Failure?
    ensures var l := Ledger([], Queues(firstPoll.arrivals, []), PollBatch(firstPoll, q.steering, false));
            var left := Polled(firstPoll, q.steering).1;
            BooksBalance(q, l, Course([], CourseFails(firstPoll.extra.error, false), 1, 0, q.(steering := left)))
  {
    PollSplits(firstPoll, q.steering, false);
    Concatenate(q.followUps, [], []);
  }

  lemma PolledRunBalances(config: LoopConfig, script: nat -> TurnScript, firstPoll: PollScript, q: Queues)
    requires !config.skipInitialPoll && firstPoll.extra.Success?
    ensures Balances(config, script, firstPoll, q, WholeCourse(config, script, firstPoll, q))
  {
    var first := PollBatch(firstPoll, q.steering, false);
    var polled := q.(steering := Polled(firstPoll, q.steering).1);
    PollSplits(firstPoll, q.steering, false);
    RunBalancesFrom(config, script, first, polled);
    FirstPollCounts(firstPoll, q, LedgerFrom(config, script, 0, first, polled),
                    CourseFrom(config, script, 0, All(first), polled));
  }

  lemma FirstPollCounts(firstPoll: PollScript, q: Queues, l: Ledger, c: Course)
    requires var first := PollBatch(firstPoll, q.steering, false);
             var polled := q.(steering := Polled(firstPoll, q.steering).1);
             && c.messages == Woven(l.rounds) && FollowUpsComeLast(l.rounds)
             && BothBalance(first, polled, l, c.queues)
             && forall followUps :: Within(Injected(l.rounds, followUps), c.messages)
    ensures BooksBalance(q, l.(arrived := Joined(Queues(firstPoll.arrivals, []), l.arrived)), c)
  {
    forall followUps: bool
      ensures QueueBalances(Part(q, followUps), Part(Joined(Queues(firstPoll.arrivals, []), l.arrived), followUps),
                            Injected(l.rounds, followUps), OfQueue(l.lost, followUps), Part(c.queues, followUps))
    {
      FirstPollCountsFor(followUps, firstPoll, q, l, c.queues);
    }
  }

  lemma FirstPollCountsFor(followUps: bool, firstPoll: PollScript, q: Queues, l: Ledger, left: Queues)
    requires BothBalance(PollBatch(firstPoll, q.steering, false),
                         q.(steering := Polled(firstPoll, q.steering).1), l, left)
    ensures QueueBalances(Part(q, followUps), Part(Joined(Queues(firstPoll.arrivals, []), l.arrived), followUps),
                          Injected(l.rounds, followUps), OfQueue(l.lost, followUps), Part(left, followUps))
  {
    var first := PollBatch(firstPoll, q.steering, false);
    var polled := q.(steering := Polled(firstPoll, q.steering).1);
    assert OneBalances(followUps, first, polled, l, left);
    PollSplits(firstPoll, q.steering, false);
    Concatenate(q.followUps, [], []);
    ArrivedFirst(Part(q, followUps), if followUps then [] else firstPoll.arrivals, Part(l.arrived, followUps),
                 Injected(l.rounds, followUps), OfQueue(l.lost, followUps), Part(left, followUps),
                 OfQueue(first, followUps) + Part(polled, followUps));
  }

  lemma ArrivedFirst(waited: seq<AgentMessage>, first: seq<AgentMessage>, arrived: seq<AgentMessage>,
                     injected: seq<AgentMessage>, lost: seq<AgentMessage>, left: seq<AgentMessage>,
                     joined: seq<AgentMessage>)
    requires waited + first == joined && QueueBalances(joined, arrived, injected, lost, left)
    ensures QueueBalances(waited, first + arrived, injected, lost, left)
  {
    Concatenate(waited, first, arrived);
  }

  lemma RunBalancesFrom(config: LoopConfig, script: nat -> TurnScript, pending: Batch, q: Queues)
    ensures var l := LedgerFrom(config, script, 0, pending, q);
            var c := CourseFrom(config, script, 0, All(pending), q);
            && c.messages == Woven(l.rounds) && BothBalance(pending, q, l, c.queues)
            && (forall followUps :: Within(Injected(l.rounds, followUps), c.messages))
            && FollowUpsComeLast(l.rounds)
            && (c.ending.CourseEnds? ==> NothingLost(l))
            && (QuietProviders(script) ==> LossAtLimit(l, c))
  {
    var l := LedgerFrom(config, script, 0, pending, q);
    var c := CourseFrom(config, script, 0, All(pending), q);
    FirstRoundHappens(config, script, pending, q);
    LedgerIsKept(config, script, 0, pending, q);
    assert KeptFor(false, config, script, 0, pending, q);
    forall followUps
      ensures Within(Injected(l.rounds, followUps), c.messages)
    {
      InjectedInOrder(l.rounds, followUps);
    }
    EmptyMeansNothing(l.lost);
  }

  lemma FirstRoundHappens(config: LoopConfig, script: nat -> TurnScript, pending: Batch, q: Queues)
    ensures LedgerFrom(config, script, 0, pending, q).rounds != []
  {
  }

  lemma EmptyMeansNothing(b: Batch)
    ensures All(b) == [] ==> b.own == []
  {
    assert b.own != [] ==> |All(b)| > 0;
  }

  // ---------------------------------------------------------------------
  // Two runs that do what one would not expect.

  const ANSWER := Assistant([], "api", "provider", "model", Stop, None, 0)
  const NO_TOOL := ToolEnv(false, false, args => Success(args), args => Success(args), [], false,
                           args => Failure("no tool"), [])
  const ONE_TURN := LoopConfig("api", "provider", "model", false, 1, true, false, 0)

  function QuietPoll(arrivals: seq<AgentMessage>): PollScript {
    PollScript(DrainAll, arrivals, Success([]))
  }

  /** A turn that is a plain answer, after which messages arrive for steering, or a hook fails. */
  function AnsweringTurn(arrivals: seq<AgentMessage>, prepareFailure: Option<string>): TurnScript {
    TurnScript(None, None, [StreamEnded(ANSWER)], Failure("no result"), n => NO_TOOL, n => n, prepareFailure,
               Success(false), QuietPoll(arrivals), QuietPoll([]))
  }

  function Always(turn: TurnScript): nat -> TurnScript {
    n => turn
  }

  lemma AnsweringTurnAnswers(turn: TurnScript)
    requires turn.contextFailure.None? && turn.refusal.None? && turn.stream == [StreamEnded(ANSWER)]
    ensures TurnResult(turn, 0) == Success(TurnOutcome([AgentAssistant(ANSWER)], [], false, false))
  {
    assert FinalOf(turn.stream) == Some(ANSWER) && StreamResult(turn) == Success(ANSWER);
    var outcome := OutcomeFor(ANSWER, turn.tools, 0);
    assert outcome.toolResults == [] && ResultMessages(outcome.toolResults) == [];
    assert outcome.messages == [AgentAssistant(ANSWER)];
  }

  /** A message that arrives after the last turn the limit allows is taken from its queue and then
      neither injected nor left. */
  lemma LimitLosesTheLastBatch(m: AgentMessage)
    ensures var script := Always(AnsweringTurn([m], None));
            var course := WholeCourse(ONE_TURN, script, QuietPoll([]), Queues([], []));
            var l := WholeLedger(ONE_TURN, script, QuietPoll([]), Queues([], []));
            && InternalOnly(script, QuietPoll([])) && course.ending.LimitHit?
            && course.messages == [AgentAssistant(ANSWER)] && course.queues == Queues([], [])
            && l.arrived == Queues([m], []) && Injected(l.rounds, false) == [] && l.lost.own == [m]
  {
    var turn := AnsweringTurn([m], None);
    AnsweringTurnAnswers(turn);
    assert [] + [m] == [m] && [m] + [] == [m];
    var script := Always(turn);
    var r := RoundFor(turn, 0, [], Queues([], []));
    assert r.round == NextRound([m]) && r.queues == Queues([], []);
    assert r.messages == [AgentAssistant(ANSWER)];
    assert CourseFrom(ONE_TURN, script, 1, [m], r.queues) == Course([], LimitHit, 1, 0, r.queues);
    assert All(NOTHING) == [];
    var log := EntryFor(turn, 0, NOTHING, Queues([], [])).0;
    assert log.next == Batch([m], [], false);
    assert LedgerFrom(ONE_TURN, script, 1, log.next, r.queues) == Ledger([], Queues([], []), log.next);
    assert WholeLedger(ONE_TURN, script, QuietPoll([]), Queues([], [])).rounds == [log];
    OneRound(log);
  }

  /** A hook that fails after the first turn makes the run fail between turns, so its log has one turn
      end too many; a first turn that fails itself does not. */
  lemma FailingHookEndsTheTurnTwice()
    ensures var script := Always(AnsweringTurn([], Some("hook")));
            var course := WholeCourse(ONE_TURN, script, QuietPoll([]), Queues([], []));
            FailsBetween(course) && course.ending == CourseFails("hook", true) && course.turns == 1
    ensures var script := Always(AnsweringTurn([], None).(contextFailure := Some("context")));
            var course := WholeCourse(ONE_TURN, script, QuietPoll([]), Queues([], []));
            !FailsBetween(course) && course.ending == CourseFails("context", false) && course.turns == 1
  {
    AnsweringTurnAnswers(AnsweringTurn([], Some("hook")));
  }
}
