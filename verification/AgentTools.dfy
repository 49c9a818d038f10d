/** Preparing, executing and ordering the tool calls of one assistant message.  Tools, hooks and
    the abort flag are oracles. */
module AgentTools {
  import opened Wrappers
  import opened Messages
  import opened AgentEvents

  // ---------------------------------------------------------------------
  // Preparation.

  datatype HookReply =
    | HookFails(error: string)
    | NoOpinion
    | Decides(input: Option<string>, block: bool, reason: Option<string>)

  /** A tool-call hook: its reply to the current arguments, and whether the run has been aborted
      by the time it replies. */
  datatype Hook = Hook(reply: string -> HookReply, aborted: bool)

  datatype Replacement = Replacement(
    output: Option<ToolOutput>, content: Option<seq<Part>>, terminate: Option<bool>, isError: Option<bool>)

  /** A tool-result hook: its reply to the current output and error flag. */
  datatype ResultHook = ResultHook(reply: (ToolOutput, bool) -> Result<Option<Replacement>>)

  /** Everything outside the loop that decides the fate of one call. */
  datatype ToolEnv = ToolEnv(
    found: bool,
    sequential: bool,
    prepareArguments: string -> Result<string>,
    validate: string -> Result<string>,
    hooks: seq<Hook>,
    aborted: bool,
    execute: string -> Result<ToolOutput>,
    resultHooks: seq<ResultHook>)

  datatype ToolOutcome = ToolOutcome(index: nat, id: string, name: string, output: ToolOutput, isError: bool)

  datatype PreparedCall = PreparedCall(index: nat, call: ToolCall, args: string, env: ToolEnv)

  datatype Preparation = Prepared(call: PreparedCall) | Immediate(outcome: ToolOutcome)

  function ErrorOutput(error: string): ToolOutput {
    ToolOutput([TextPart(error)], None, false)
  }

  function ErrorOutcome(index: nat, call: ToolCall, error: string): ToolOutcome {
    ToolOutcome(index, call.id, call.name, ErrorOutput(error), true)
  }

  /** What one hook makes of the arguments: new arguments, or the reason to stop. */
  function HookVerdict(hook: Hook, args: string): Result<string> {
    match hook.reply(args)
    case HookFails(error) => Failure(error)
    case NoOpinion => if hook.aborted then Failure("Operation aborted") else Success(args)
    case Decides(input, block, reason) =>
      if hook.aborted then Failure("Operation aborted")
      else if block then Failure(if reason.Some? then reason.value else "Tool execution was blocked")
      else Success(if input.Some? then input.value else args)
  }

  function HooksVerdict(hooks: seq<Hook>, args: string): Result<string> {
    if hooks == [] then Success(args)
    else
      match HookVerdict(hooks[0], args)
      case Failure(error) => Failure(error)
      case Success(args') => HooksVerdict(hooks[1..], args')
  }

  /** The arguments a call would run with, or why it does not run. */
  function PreparedArguments(call: ToolCall, env: ToolEnv): Result<string> {
    if !env.found then Failure("Tool " + call.name + " not found")
    else
      match env.prepareArguments(call.arguments)
      case Failure(error) => Failure(error)
      case Success(prepared) =>
        match env.validate(prepared)
        case Failure(error) => Failure(error)
        case Success(validated) =>
          match HooksVerdict(env.hooks, validated)
          case Failure(error) => Failure(error)
          case Success(args) => if env.aborted then Failure("Operation aborted") else Success(args)
  }

  function Prepare(index: nat, call: ToolCall, env: ToolEnv): Preparation {
    match PreparedArguments(call, env)
    case Failure(error) => Immediate(ErrorOutcome(index, call, error))
    case Success(args) => Prepared(PreparedCall(index, call, args, env))
  }

  method RunHooks(hooks: seq<Hook>, args: string) returns (verdict: Result<string>)
    ensures verdict == HooksVerdict(hooks, args)
  {
    var args' := args;
    for i := 0 to |hooks|
      invariant HooksVerdict(hooks[i..], args') == HooksVerdict(hooks, args)
    {
      assert hooks[i..][1..] == hooks[i + 1..];
      var reply := hooks[i].reply(args');
      if !reply.HookFails? && hooks[i].aborted {
        return Failure("Operation aborted");
      }
      match reply {
        case HookFails(error) =>
          return Failure(error);
        case NoOpinion =>
        case Decides(input, block, reason) =>
          if block {
            return Failure(if reason.Some? then reason.value else "Tool execution was blocked");
          }
          if input.Some? {
            args' := input.value;
          }
      }
    }
    return Success(args');
  }

  /** The arguments hook `i` sees. */
  function ArgumentsAt(hooks: seq<Hook>, args: string, i: nat): Option<string>
    requires i <= |hooks|
  {
    if i == 0 then Some(args)
    else
      match ArgumentsAt(hooks, args, i - 1)
      case None => None
      case Some(before) =>
        match HookVerdict(hooks[i - 1], before)
        case Failure(_) => None
        case Success(after) => Some(after)
  }

  lemma {:induction false} HooksVerdictIsLastArguments(hooks: seq<Hook>, args: string, i: nat)
    requires i <= |hooks|
    ensures match ArgumentsAt(hooks, args, i)
            case None => HooksVerdict(hooks, args).Failure?
            case Some(at) => HooksVerdict(hooks, args) == HooksVerdict(hooks[i..], at)
  {
    if i == 0 {
      assert hooks[0..] == hooks;
    } else {
      HooksVerdictIsLastArguments(hooks, args, i - 1);
      assert hooks[i - 1..][1..] == hooks[i..];
    }
  }

  /** A call runs exactly when its tool exists, preparation and validation accept its arguments,
      every hook in turn neither fails nor blocks nor finds the run aborted, and the run is not
      aborted in the end; it runs with the arguments the last hook left. */
  lemma CallRunsExactlyWhenNothingStopsIt(index: nat, call: ToolCall, env: ToolEnv)
    ensures Prepare(index, call, env).Prepared? <==>
      && env.found && !env.aborted
      && env.prepareArguments(call.arguments).Success?
      && var validated := env.validate(env.prepareArguments(call.arguments).value);
         && validated.Success?
         && ArgumentsAt(env.hooks, validated.value, |env.hooks|).Some?
    ensures Prepare(index, call, env).Prepared? ==>
      var validated := env.validate(env.prepareArguments(call.arguments).value).value;
      Prepare(index, call, env).call
        == PreparedCall(index, call, ArgumentsAt(env.hooks, validated, |env.hooks|).value, env)
  {
    if env.prepareArguments(call.arguments).Success? {
      var validated := env.validate(env.prepareArguments(call.arguments).value);
      if validated.Success? {
        HooksVerdictIsLastArguments(env.hooks, validated.value, |env.hooks|);
        assert env.hooks[|env.hooks|..] == [];
      }
    }
  }

  // ---------------------------------------------------------------------
  // Execution.

  function Replaced(output: ToolOutput, r: Replacement): ToolOutput {
    var base := if r.output.Some? then r.output.value else output;
    base.(content := if r.content.Some? then r.content.value else base.content,
          terminate := if r.terminate.Some? then r.terminate.value else base.terminate)
  }

  function ResultHooksApplied(hooks: seq<ResultHook>, output: ToolOutput, isError: bool): (ToolOutput, bool) {
    if hooks == [] then (output, isError)
    else
      match hooks[0].reply(output, isError)
      case Failure(error) => (ErrorOutput(error), true)
      case Success(None) => ResultHooksApplied(hooks[1..], output, isError)
      case Success(Some(r)) =>
        ResultHooksApplied(hooks[1..], Replaced(output, r), if r.isError.Some? then r.isError.value else isError)
  }

  function Executed(p: PreparedCall): ToolOutcome {
    var raw := p.env.execute(p.args);
    var (output, isError) :=
      ResultHooksApplied(p.env.resultHooks,
                         if raw.Success? then raw.value else ErrorOutput(raw.error), raw.Failure?);
    ToolOutcome(p.index, p.call.id, p.call.name, output, isError)
  }

  method ExecutePreparedToolCall(p: PreparedCall) returns (outcome: ToolOutcome)
    ensures outcome == Executed(p)
  {
    var raw := p.env.execute(p.args);
    var isError := raw.Failure?;
    var output := if raw.Success? then raw.value else ErrorOutput(raw.error);
    var hooks := p.env.resultHooks;
    ghost var final := ResultHooksApplied(hooks, output, isError);
    for i := 0 to |hooks|
      invariant ResultHooksApplied(hooks[i..], output, isError) == final
    {
      assert hooks[i..][1..] == hooks[i + 1..];
      var reply := hooks[i].reply(output, isError);
      match reply {
        case Failure(error) =>
          return ToolOutcome(p.index, p.call.id, p.call.name, ErrorOutput(error), true);
        case Success(None) =>
        case Success(Some(r)) =>
          output := Replaced(output, r);
          if r.isError.Some? {
            isError := r.isError.value;
          }
      }
    }
    return ToolOutcome(p.index, p.call.id, p.call.name, output, isError);
  }

  // ---------------------------------------------------------------------
  // What becomes of one call, read off what its tool and its hooks do.

  /** When a hook stops a call, and what it otherwise leaves as arguments. */
  lemma HookStopsExactlyWhen(hook: Hook, args: string)
    ensures var reply := hook.reply(args);
            && (HookVerdict(hook, args).Failure? <==>
                  reply.HookFails? || hook.aborted || (reply.Decides? && reply.block))
            && (HookVerdict(hook, args).Success? ==>
                  HookVerdict(hook, args).value
                  == if reply.Decides? && reply.input.Some? then reply.input.value else args)
            && (reply.HookFails? ==> HookVerdict(hook, args) == Failure(reply.error))
  {
  }

  /** Something keeps the call from running. */
  predicate IsStopped(call: ToolCall, env: ToolEnv) {
    || !env.found || env.aborted
    || env.prepareArguments(call.arguments).Failure?
    || var validated := env.validate(env.prepareArguments(call.arguments).value);
       validated.Failure? || ArgumentsAt(env.hooks, validated.value, |env.hooks|).None?
  }

  /** The arguments a call that is not stopped runs with. */
  function FinalArguments(call: ToolCall, env: ToolEnv): string
    requires !IsStopped(call, env)
  {
    ArgumentsAt(env.hooks, env.validate(env.prepareArguments(call.arguments).value).value, |env.hooks|).value
  }

  /** An output on its way through the result hooks; `failed` once one of them failed. */
  datatype Passage = Passage(output: ToolOutput, isError: bool, failed: bool)

  /** The output and the error flag after the first `i` result hooks. */
  function PassageAt(hooks: seq<ResultHook>, raw: Result<ToolOutput>, i: nat): Passage
    requires i <= |hooks|
  {
    if i == 0 then
      match raw
      case Success(output) => Passage(output, false, false)
      case Failure(error) => Passage(ToolOutput([TextPart(error)], None, false), true, false)
    else
      var before := PassageAt(hooks, raw, i - 1);
      if before.failed then before
      else
        match hooks[i - 1].reply(before.output, before.isError)
        case Failure(error) => Passage(ToolOutput([TextPart(error)], None, false), true, true)
        case Success(None) => before
        case Success(Some(r)) =>
          Passage(Replaced(before.output, r), if r.isError.Some? then r.isError.value else before.isError, false)
  }

  lemma {:induction false} AppliedIsPassage(hooks: seq<ResultHook>, raw: Result<ToolOutput>, i: nat)
    requires i <= |hooks|
    ensures var at := PassageAt(hooks, raw, i);
            ResultHooksApplied(hooks, PassageAt(hooks, raw, 0).output, PassageAt(hooks, raw, 0).isError)
            == if at.failed then (at.output, at.isError)
               else ResultHooksApplied(hooks[i..], at.output, at.isError)
  {
    if i == 0 {
      assert hooks[0..] == hooks;
    } else {
      AppliedIsPassage(hooks, raw, i - 1);
      assert hooks[i - 1..][1..] == hooks[i..];
    }
  }

  /** A replacement changes what it names and nothing else; its content and terminate flag count over
      those of the output it brings. */
  lemma ReplacementChangesWhatItNames(output: ToolOutput, r: Replacement)
    ensures var after := Replaced(output, r);
            && (r.content.Some? ==> after.content == r.content.value)
            && (r.terminate.Some? ==> after.terminate == r.terminate.value)
            && after.addedToolNames == (if r.output.Some? then r.output.value.addedToolNames
                                        else output.addedToolNames)
            && (r.output.None? && r.content.None? ==> after.content == output.content)
            && (r.output.None? && r.terminate.None? ==> after.terminate == output.terminate)
            && (r.output.Some? && r.content.None? && r.terminate.None? ==> after == r.output.value)
  {
  }

  /** Why a hook stops a call. */
  predicate Objects(hook: Hook, args: string, error: string) {
    match hook.reply(args)
    case HookFails(failure) => error == failure
    case NoOpinion => hook.aborted && error == "Operation aborted"
    case Decides(_, block, reason) =>
      if hook.aborted then error == "Operation aborted"
      else block && error == if reason.None? then "Tool execution was blocked" else reason.value
  }

  /** Why a call does not run: the first thing that stopped it. */
  predicate StoppedFor(call: ToolCall, env: ToolEnv, error: string) {
    var prepared := env.prepareArguments(call.arguments);
    if !env.found then error == "Tool " + call.name + " not found"
    else if prepared.Failure? then error == prepared.error
    else if env.validate(prepared.value).Failure? then error == env.validate(prepared.value).error
    else
      var args := env.validate(prepared.value).value;
      || (exists i :: 0 <= i < |env.hooks| && ObjectsAt(env.hooks, args, i, error))
      || (ArgumentsAt(env.hooks, args, |env.hooks|).Some? && env.aborted && error == "Operation aborted")
  }

  predicate ObjectsAt(hooks: seq<Hook>, args: string, i: nat, error: string)
    requires i < |hooks|
  {
    ArgumentsAt(hooks, args, i).Some? && Objects(hooks[i], ArgumentsAt(hooks, args, i).value, error)
  }

  lemma {:induction false} FirstObjection(hooks: seq<Hook>, args: string, n: nat) returns (i: nat)
    requires n <= |hooks| && ArgumentsAt(hooks, args, n).None?
    ensures i < n && HooksVerdict(hooks, args).Failure? && ObjectsAt(hooks, args, i, HooksVerdict(hooks, args).error)
  {
    if ArgumentsAt(hooks, args, n - 1).None? {
      i := FirstObjection(hooks, args, n - 1);
    } else {
      i := n - 1;
      HooksVerdictIsLastArguments(hooks, args, i);
      assert hooks[i..][0] == hooks[i];
    }
  }

  lemma StoppedSaysWhy(call: ToolCall, env: ToolEnv)
    requires IsStopped(call, env)
    ensures PreparedArguments(call, env).Failure? && StoppedFor(call, env, PreparedArguments(call, env).error)
  {
    if env.found && env.prepareArguments(call.arguments).Success? {
      var validated := env.validate(env.prepareArguments(call.arguments).value);
      if validated.Success? {
        if ArgumentsAt(env.hooks, validated.value, |env.hooks|).None? {
          var i := FirstObjection(env.hooks, validated.value, |env.hooks|);
        } else {
          HooksVerdictIsLastArguments(env.hooks, validated.value, |env.hooks|);
          assert env.hooks[|env.hooks|..] == [];
        }
      }
    }
  }

  /** The result of a call: its id and name; an error saying why when something stopped it; else what
      the tool returned on its final arguments, as the result hooks left it, an error exactly when the
      tool or a hook failed or a hook says so. */
  predicate CallResultFits(call: ToolCall, env: ToolEnv, output: ToolOutput, isError: bool) {
    if IsStopped(call, env) then
      && isError && !output.terminate && output.addedToolNames.None?
      && |output.content| == 1 && output.content[0].TextPart? && StoppedFor(call, env, output.content[0].text)
    else
      var end := PassageAt(env.resultHooks, env.execute(FinalArguments(call, env)), |env.resultHooks|);
      output == end.output && isError == end.isError
  }

  lemma OutcomeFits(index: nat, call: ToolCall, env: ToolEnv)
    ensures var o := OutcomeOf(index, call, env);
            CallResultFits(call, env, o.output, o.isError)
  {
    CallRunsExactlyWhenNothingStopsIt(index, call, env);
    if !IsStopped(call, env) {
      var raw := env.execute(FinalArguments(call, env));
      AppliedIsPassage(env.resultHooks, raw, |env.resultHooks|);
      assert env.resultHooks[|env.resultHooks|..] == [];
    } else {
      StoppedSaysWhy(call, env);
    }
  }

  /** A call whose tool is found, whose arguments are accepted and which has no hooks carries exactly
      what the tool returned, and is an error exactly when the tool failed. */
  lemma PlainCallCarriesItsOutput(index: nat, call: ToolCall, env: ToolEnv)
    requires env.found && !env.aborted && env.hooks == [] && env.resultHooks == []
    requires env.prepareArguments(call.arguments).Success?
    requires env.validate(env.prepareArguments(call.arguments).value).Success?
    ensures var raw := env.execute(env.validate(env.prepareArguments(call.arguments).value).value);
            var o := OutcomeOf(index, call, env);
            && o.isError == raw.Failure?
            && (raw.Success? ==> o.output == raw.value)
            && (raw.Failure? ==> o.output.content == [TextPart(raw.error)] && !o.output.terminate)
  {
    OutcomeFits(index, call, env);
  }

  // ---------------------------------------------------------------------
  // The outcomes of a batch, in source order.

  function OutcomeOf(index: nat, call: ToolCall, env: ToolEnv): (o: ToolOutcome)
    ensures o.index == index && o.id == call.id && o.name == call.name
  {
    match Prepare(index, call, env)
    case Immediate(outcome) => outcome
    case Prepared(p) => Executed(p)
  }

  function Outcomes(calls: seq<ToolCall>, envs: seq<ToolEnv>): (os: seq<ToolOutcome>)
    requires |calls| == |envs|
    ensures |os| == |calls|
    ensures forall i :: 0 <= i < |os| ==> os[i] == OutcomeOf(i, calls[i], envs[i])
    ensures forall i :: 0 <= i < |os| ==> os[i].index == i && os[i].id == calls[i].id && os[i].name == calls[i].name
  {
    seq(|calls|, i requires 0 <= i < |calls| => OutcomeOf(i, calls[i], envs[i]))
  }

  predicate AllTerminate(outcomes: seq<ToolOutcome>) {
    outcomes != [] && forall i :: 0 <= i < |outcomes| ==> outcomes[i].output.terminate
  }

  function ResultOf(o: ToolOutcome, now: int): ToolResult {
    ToolResult(o.id, o.name, o.output.content, o.isError,
               if o.output.addedToolNames == Some([]) then None else o.output.addedToolNames, now)
  }

  function ResultsOf(outcomes: seq<ToolOutcome>, now: int): (rs: seq<ToolResult>)
    ensures |rs| == |outcomes|
    ensures forall i :: 0 <= i < |rs| ==> rs[i] == ResultOf(outcomes[i], now)
  {
    seq(|outcomes|, i requires 0 <= i < |outcomes| => ResultOf(outcomes[i], now))
  }

  /** `outcomes` holds outcomes of the batch only, and all of them, in some order. */
  predicate Covers(outcomes: seq<ToolOutcome>, batch: seq<ToolOutcome>) {
    && (forall i :: 0 <= i < |outcomes| ==> outcomes[i].index < |batch| && outcomes[i] == batch[outcomes[i].index])
    && (forall k :: 0 <= k < |batch| ==> batch[k] in outcomes)
  }

  lemma CoveringBatchesTerminateAlike(outcomes: seq<ToolOutcome>, batch: seq<ToolOutcome>)
    requires Covers(outcomes, batch)
    ensures AllTerminate(outcomes) <==> AllTerminate(batch)
  {
    if outcomes != [] {
      assert outcomes[0] == batch[outcomes[0].index];
    }
    if batch != [] {
      assert batch[0] in outcomes;
    }
    if AllTerminate(outcomes) {
      forall k | 0 <= k < |batch|
        ensures batch[k].output.terminate
      {
        assert batch[k] in outcomes;
      }
    }
  }

  /** `execute_tool_calls_in_source_order`: slots by index; every covered slot is filled. */
  method OrderBySource(outcomes: seq<ToolOutcome>) returns (ordered: seq<Option<ToolOutcome>>)
    ensures forall o :: o in outcomes ==> o.index < |ordered| && ordered[o.index].Some?
    ensures |ordered| > 0 ==> exists o :: o in outcomes && o.index == |ordered| - 1
    ensures forall k :: 0 <= k < |ordered| && ordered[k].Some? ==>
              ordered[k].value in outcomes && ordered[k].value.index == k
  {
    var len: nat := 0;
    for i := 0 to |outcomes|
      invariant forall j :: 0 <= j < i ==> outcomes[j].index < len
      invariant len > 0 ==> exists j :: 0 <= j < i && outcomes[j].index == len - 1
    {
      if len <= outcomes[i].index {
        len := outcomes[i].index + 1;
      }
    }
    ordered := seq(len, _ => None);
    for i := 0 to |outcomes|
      invariant |ordered| == len
      invariant forall j :: 0 <= j < i ==> ordered[outcomes[j].index].Some?
      invariant forall k :: 0 <= k < len && ordered[k].Some? ==>
                  ordered[k].value in outcomes && ordered[k].value.index == k
    {
      ordered := ordered[outcomes[i].index := Some(outcomes[i])];
    }
    if len > 0 {
      var j :| 0 <= j < |outcomes| && outcomes[j].index == len - 1;
      assert outcomes[j] in outcomes;
    }
  }

  /** Filling the slots of a covering collection restores the batch, whatever order it came in. */
  lemma SlotsRestoreSourceOrder(
    outcomes: seq<ToolOutcome>, batch: seq<ToolOutcome>, ordered: seq<Option<ToolOutcome>>)
    requires Covers(outcomes, batch)
    requires forall i :: 0 <= i < |batch| ==> batch[i].index == i
    requires forall o :: o in outcomes ==> o.index < |ordered| && ordered[o.index].Some?
    requires |ordered| > 0 ==> exists o :: o in outcomes && o.index == |ordered| - 1
    requires forall k :: 0 <= k < |ordered| && ordered[k].Some? ==>
               ordered[k].value in outcomes && ordered[k].value.index == k
    ensures |ordered| == |batch|
    ensures forall k :: 0 <= k < |batch| ==> ordered[k] == Some(batch[k])
  {
    if |ordered| > 0 {
      var o :| o in outcomes && o.index == |ordered| - 1;
      assert o.index < |batch|;
    }
    if |batch| > 0 {
      assert batch[|batch| - 1] in outcomes;
    }
    forall k | 0 <= k < |batch|
      ensures k < |ordered| && ordered[k] == Some(batch[k])
    {
      assert batch[k] in outcomes;
      assert ordered[k].value in outcomes;
    }
  }

  // ---------------------------------------------------------------------
  // Parallel execution.

  function ExecutedAll(ps: seq<PreparedCall>): (os: seq<ToolOutcome>)
    ensures |os| == |ps|
    ensures forall i :: 0 <= i < |os| ==> os[i] == Executed(ps[i])
  {
    seq(|ps|, i requires 0 <= i < |ps| => Executed(ps[i]))
  }

  /** The prepared calls run together; `next(k)` decides which of the unfinished ones completes
      as the k-th. */
  method ExecuteToolCalls(prepared: seq<PreparedCall>, next: nat -> nat) returns (outcomes: seq<ToolOutcome>)
    ensures multiset(outcomes) == multiset(ExecutedAll(prepared))
  {
    var pending := prepared;
    outcomes := [];
    while pending != []
      invariant multiset(outcomes) + multiset(ExecutedAll(pending)) == multiset(ExecutedAll(prepared))
      decreases |pending|
    {
      var at := next(|outcomes|) % |pending|;
      var outcome := ExecutePreparedToolCall(pending[at]);
      RemoveOne(ExecutedAll(pending), at);
      assert ExecutedAll(pending[..at] + pending[at + 1..])
          == ExecutedAll(pending)[..at] + ExecutedAll(pending)[at + 1..];
      outcomes := outcomes + [outcome];
      pending := pending[..at] + pending[at + 1..];
    }
  }

  lemma RemoveOne(os: seq<ToolOutcome>, at: nat)
    requires at < |os|
    ensures multiset(os) == multiset{os[at]} + multiset(os[..at] + os[at + 1..])
  {
    assert os == os[..at] + ([os[at]] + os[at + 1..]);
  }
}
