/** The single-flight refresh of a provider's model list, under every interleaving of its callers.

    A step is one locked section or one completion; the scheduler picks any enabled step.  A fetch
    writes the list it got before it counts as finished, and its identity is its position in the list of
    all fetches ever started.  Cancelled callers are not modelled. */
module ImagesRefresh {
  import opened Wrappers

  datatype Fetch<M> =
    | Running
    | Written(models: seq<M>)
    | Finished(models: seq<M>)
    | FetchFailed(error: string)

  predicate Unfinished<M>(f: Fetch<M>) {
    f.Running? || f.Written?
  }

  predicate Delivered<M>(f: Fetch<M>) {
    f.Written? || f.Finished?
  }

  datatype Caller = Idle | Awaiting(fetch: nat) | Returned(fetch: nat, result: Result<()>)

  datatype State<M> = State(
    models: seq<M>, inflight: Option<nat>, fetches: seq<Fetch<M>>, callers: seq<Caller>)

  datatype Action<M> =
    | Call(caller: nat)
    | Deliver(fetch: nat, models: seq<M>)
    | Fail(fetch: nat, error: string)
    | Complete(fetch: nat)
    | Return(caller: nat)

  predicate Enabled<M>(s: State<M>, a: Action<M>) {
    match a
    case Call(c) => c < |s.callers| && !s.callers[c].Awaiting?
    case Deliver(f, _) => f < |s.fetches| && s.fetches[f].Running?
    case Fail(f, _) => f < |s.fetches| && s.fetches[f].Running?
    case Complete(f) => f < |s.fetches| && s.fetches[f].Written?
    case Return(c) =>
      c < |s.callers| && s.callers[c].Awaiting? && s.callers[c].fetch < |s.fetches|
      && !Unfinished(s.fetches[s.callers[c].fetch])
  }

  function ResultOf<M>(f: Fetch<M>): Result<()> {
    if f.FetchFailed? then Failure(f.error) else Success(())
  }

  function Apply<M>(s: State<M>, a: Action<M>): State<M>
    requires Enabled(s, a)
  {
    match a
    case Call(c) =>
      (match s.inflight
       case Some(f) => s.(callers := s.callers[c := Awaiting(f)])
       case None =>
         s.(fetches := s.fetches + [Running], inflight := Some(|s.fetches|),
            callers := s.callers[c := Awaiting(|s.fetches|)]))
    case Deliver(f, models) => s.(models := models, fetches := s.fetches[f := Written(models)])
    case Fail(f, error) => s.(fetches := s.fetches[f := FetchFailed(error)])
    case Complete(f) => s.(fetches := s.fetches[f := Finished(s.fetches[f].models)])
    case Return(c) =>
      var f := s.callers[c].fetch;
      s.(inflight := if s.inflight == Some(f) then None else s.inflight,
         callers := s.callers[c := Returned(f, ResultOf(s.fetches[f]))])
  }

  function Start<M>(models: seq<M>, callers: nat): State<M> {
    State(models, None, [], seq(callers, i => Idle))
  }

  /** A schedule; steps that are not enabled when their turn comes are passed over. */
  function Run<M>(s: State<M>, schedule: seq<Action<M>>): State<M> {
    if schedule == [] then s
    else
      var before := Run(s, schedule[..|schedule| - 1]);
      var a := schedule[|schedule| - 1];
      if Enabled(before, a) then Apply(before, a) else before
  }

  // ---------------------------------------------------------------------

  /** What the last fetch that delivered gave, or the initial list. */
  function LatestModels<M>(initial: seq<M>, fetches: seq<Fetch<M>>): seq<M> {
    if fetches == [] then initial
    else
      var last := fetches[|fetches| - 1];
      if Delivered(last) then last.models else LatestModels(initial, fetches[..|fetches| - 1])
  }

  /** An unfinished fetch is the one in the slot, so there is at most one; the slot holds the newest
      fetch and always has a caller that will clear it; every caller waits for a fetch that exists and
      returns with its result. */
  ghost predicate SingleFlight<M>(s: State<M>) {
    && (forall f :: 0 <= f < |s.fetches| && Unfinished(s.fetches[f]) ==> s.inflight == Some(f))
    && (s.inflight.Some? ==> s.inflight.value == |s.fetches| - 1 && exists c :: AwaitedBy(s, s.inflight.value, c))
    && (forall c :: 0 <= c < |s.callers| && s.callers[c].Awaiting? ==> s.callers[c].fetch < |s.fetches|)
    && (forall c :: 0 <= c < |s.callers| && s.callers[c].Returned? ==>
          s.callers[c].fetch < |s.fetches| && !Unfinished(s.fetches[s.callers[c].fetch])
          && s.callers[c].result == ResultOf(s.fetches[s.callers[c].fetch]))
  }

  predicate AwaitedBy<M>(s: State<M>, f: nat, c: nat) {
    c < |s.callers| && s.callers[c] == Awaiting(f)
  }

  ghost predicate Current<M>(initial: seq<M>, s: State<M>) {
    s.models == LatestModels(initial, s.fetches)
  }

  lemma LatestOfLast<M>(initial: seq<M>, fetches: seq<Fetch<M>>, f: Fetch<M>)
    requires fetches != []
    ensures var changed := fetches[|fetches| - 1 := f];
            LatestModels(initial, changed)
            == if Delivered(f) then f.models else LatestModels(initial, fetches[..|fetches| - 1])
  {
    assert fetches[|fetches| - 1 := f][..|fetches| - 1] == fetches[..|fetches| - 1];
  }

  lemma CallKeeps<M>(initial: seq<M>, s: State<M>, a: Action<M>)
    requires SingleFlight(s) && Current(initial, s) && Enabled(s, a) && a.Call?
    ensures SingleFlight(Apply(s, a)) && Current(initial, Apply(s, a))
  {
    var s' := Apply(s, a);
    assert AwaitedBy(s', s'.inflight.value, a.caller);
    assert (s.fetches + [Running])[..|s.fetches|] == s.fetches;
  }

  lemma FetchStepKeeps<M>(initial: seq<M>, s: State<M>, a: Action<M>)
    requires SingleFlight(s) && Current(initial, s) && Enabled(s, a)
    requires a.Deliver? || a.Fail? || a.Complete?
    ensures SingleFlight(Apply(s, a)) && Current(initial, Apply(s, a))
  {
    var s' := Apply(s, a);
    assert s.inflight == Some(a.fetch);
    var c :| AwaitedBy(s, a.fetch, c);
    assert AwaitedBy(s', a.fetch, c);
    LatestOfLast(initial, s.fetches, s'.fetches[a.fetch]);
  }

  lemma ReturnKeeps<M>(initial: seq<M>, s: State<M>, a: Action<M>)
    requires SingleFlight(s) && Current(initial, s) && Enabled(s, a) && a.Return?
    ensures SingleFlight(Apply(s, a)) && Current(initial, Apply(s, a))
    ensures s.inflight.Some? && s.inflight.value != s.callers[a.caller].fetch ==>
              Apply(s, a).inflight == s.inflight && s.callers[a.caller].fetch < s.inflight.value
  {
    var s' := Apply(s, a);
    if s'.inflight.Some? {
      var c :| AwaitedBy(s, s.inflight.value, c);
      assert AwaitedBy(s', s.inflight.value, c);
    }
  }

  /** Under every interleaving there is at most one unfinished fetch, a slot is never left behind, and
      the list is the initial one or what the latest successful fetch gave. */
  lemma {:induction false} EveryInterleavingIsSingleFlight<M>(models: seq<M>, callers: nat, schedule: seq<Action<M>>)
    ensures var s := Run(Start(models, callers), schedule);
            SingleFlight(s) && Current(models, s)
  {
    if schedule != [] {
      var init := schedule[..|schedule| - 1];
      EveryInterleavingIsSingleFlight(models, callers, init);
      var before := Run(Start(models, callers), init);
      var a := schedule[|schedule| - 1];
      if Enabled(before, a) {
        match a {
          case Call(_) => CallKeeps(models, before, a);
          case Return(_) => ReturnKeeps(models, before, a);
          case _ => FetchStepKeeps(models, before, a);
        }
      }
    }
  }

  /** When no caller is waiting, the slot is free: the next call starts a new fetch. */
  lemma NoCallerLeavesTheSlotTaken<M>(models: seq<M>, callers: nat, schedule: seq<Action<M>>)
    ensures var s := Run(Start(models, callers), schedule);
            (forall c :: 0 <= c < |s.callers| ==> !s.callers[c].Awaiting?) ==>
              s.inflight.None? && forall f :: 0 <= f < |s.fetches| ==> !Unfinished(s.fetches[f])
  {
    EveryInterleavingIsSingleFlight(models, callers, schedule);
  }

  /** A late waiter, whose fetch is not the one in the slot, leaves the newer one alone. */
  lemma LateWaiterLeavesTheSlot<M>(models: seq<M>, callers: nat, schedule: seq<Action<M>>, c: nat)
    requires var s := Run(Start(models, callers), schedule);
             Enabled(s, Return(c)) && s.inflight.Some? && s.inflight.value != s.callers[c].fetch
    ensures var s := Run(Start(models, callers), schedule);
            Apply(s, Return(c)).inflight == s.inflight && s.callers[c].fetch < s.inflight.value
  {
    EveryInterleavingIsSingleFlight(models, callers, schedule);
    ReturnKeeps(models, Run(Start(models, callers), schedule), Return(c));
  }

  // ---------------------------------------------------------------------

  /** The provider's shared fields and its locked sections, each one step. */
  class PartsImagesProvider<M> {
    var models: seq<M>
    var inflight: Option<nat>
    /** The fetches started so far and the callers: what the runtime keeps. */
    var fetches: seq<Fetch<M>>
    var callers: seq<Caller>

    function Value(): State<M>
      reads this
    {
      State(models, inflight, fetches, callers)
    }

    constructor (models: seq<M>, callerCount: nat)
      ensures Value() == Start(models, callerCount)
    {
      this.models, inflight, fetches := models, None, [];
      callers := seq(callerCount, i => Idle);
    }

    /** Join the fetch in flight or start one. */
    method BeginRefresh(caller: nat)
      requires Enabled(Value(), Call(caller))
      modifies this
      ensures Value() == Apply(old(Value()), Call(caller))
    {
      var shared: nat;
      if inflight.Some? {
        shared := inflight.value;
      } else {
        shared := |fetches|;
        fetches := fetches + [Running];
        inflight := Some(shared);
      }
      callers := callers[caller := Awaiting(shared)];
    }

    /** The body of the shared future: write the list, or fail. */
    method FetchReturned(fetch: nat, outcome: Result<seq<M>>)
      requires fetch < |fetches| && fetches[fetch].Running?
      modifies this
      ensures Value() == match outcome
                         case Success(list) => Apply(old(Value()), Deliver(fetch, list))
                         case Failure(error) => Apply(old(Value()), Fail(fetch, error))
    {
      match outcome
      case Success(list) =>
        models := list;
        fetches := fetches[fetch := Written(list)];
      case Failure(error) =>
        fetches := fetches[fetch := FetchFailed(error)];
    }

    /** After the wait: only the fetch that was awaited may be cleared from the slot. */
    method EndRefresh(caller: nat) returns (r: Result<()>)
      requires Enabled(Value(), Return(caller))
      modifies this
      ensures Value() == Apply(old(Value()), Return(caller))
      ensures r == ResultOf(old(fetches[callers[caller].fetch]))
      ensures match old(fetches[callers[caller].fetch])
              case FetchFailed(error) => r == Failure(error)
              case _ => r == Success(())
    {
      var shared := callers[caller].fetch;
      r := ResultOf(fetches[shared]);
      if inflight == Some(shared) {
        inflight := None;
      }
      callers := callers[caller := Returned(shared, r)];
    }
  }
}
