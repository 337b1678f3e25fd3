/**
  Approvals, the fail-stop sequence runner and the executor: executor/approvals.py,
  executor/sandbox_runner.py and executor/executor.py.
 */
module Executor {
  import opened Wrappers
  import opened AgentData
  import opened RunLimits
  import Planning

  // ---- executor/approvals.py ----

  // The digest is injective over the whole proposal, so an approval record is
  // kept as the proposal it stands for.
  type Approvals = map<string, Action>

  function RecordApproval(approvals: Approvals, a: Action, v: Validation): Option<Approvals> {
    if !v.approved || v.actionId != a.id then None else Some(approvals[a.id := a])
  }

  predicate IsApproved(approvals: Approvals, a: Action) {
    a.id in approvals && approvals[a.id] == a
  }

  // ---- the world an action runs in ----

  datatype SandboxKind = ProcessSandbox | DockerSandbox | SequenceRuntime

  // What one call of `sandbox.run` came to.
  datatype SandboxOutcome =
    | Ran(exitCode: int, timedOut: bool, launchFailed: bool, boundary: bool, payload: Option<Verdict>, surface: bool)
    | Broke
    | Cancelled

  // Everything outside the executor that one attempt meets: whether the
  // sequence deadline has passed, whether the limiter grants it a run, what
  // the sandbox does, and whether the evidence, the audit line and the
  // evidence rewritten after a failed audit can be stored.
  datatype Attempt = Attempt(
    runId: nat,
    late: bool,
    granted: bool,
    outcome: SandboxOutcome,
    evidenceKept: bool,
    auditKept: bool,
    rewriteKept: bool)

  // `targets` gives each registered target its environment; `addressed` are
  // the targets with a base URL.
  datatype Setting = Setting(
    approvals: Approvals,
    targets: map<string, string>,
    addressed: set<string>,
    environments: set<string>,
    sandbox: SandboxKind,
    active: Option<RuntimeServices>)

  // The outcome of one attempt: the result handed back (none when the run was
  // cancelled under it), what was stored, and whether the sandbox was entered.
  datatype Trial = Trial(result: Option<Execution>, record: Option<Record>, entered: bool)

  // ---- executor/executor.py ----

  // What an attempt comes to before its traces are stored.
  datatype Report = Report(
    status: ExecutionStatus,
    exitCode: int,
    timedOut: bool,
    error: Option<ErrorCode>,
    boundary: bool,
    payload: Option<Verdict>,
    surface: bool)

  function Denial(exitCode: int, boundary: bool): Report {
    Report(Denied, exitCode, false, None, boundary, None, false)
  }

  function Failure(exitCode: int, error: ErrorCode): Report {
    Report(Failed, exitCode, false, Some(error), false, None, false)
  }

  const LATE := Report(Failed, 124, true, None, false, None, false)

  // The error a failed report carries even if none was named.
  function Cause(r: Report): Option<ErrorCode> {
    if r.status == Failed && r.error.None? then Some(if r.timedOut then Timeout else ExecutionFailed) else r.error
  }

  // `_finish`: a result whose traces cannot be stored is a failure.
  function Finish(a: Action, at: Attempt, r: Report, entered: bool): Trial {
    var stored := at.evidenceKept && at.auditKept;
    Trial(
      Some(if stored then Execution(at.runId, a.id, r.status, r.exitCode, r.timedOut, Cause(r), r.boundary)
           else Execution(at.runId, a.id, Failed, 1, r.timedOut, Some(PersistenceError), r.boundary)),
      if stored then Some(Record(at.runId, a.id, r.status, r.exitCode, r.payload, r.surface))
      else if !at.auditKept && at.rewriteKept then Some(Record(at.runId, a.id, Failed, 1, r.payload, r.surface))
      else None,
      entered)
  }

  // What the capability handlers accept.
  predicate AcceptsParameters(tool: Tool, p: Parameters) {
    match tool
    case SafeNoop =>
      && p.Keys <= {Message, TestOutcome}
      && (TestOutcome in p ==> p[TestOutcome] in {Text("confirmed"), Text("rejected"), Text("inconclusive")})
    case SandboxCommand => Planning.CommandBounded(p)
    case ObserveHttpSurface => p == map[]
    case InspectDockerfileUser => p.Keys == {ArtifactId}
    case InspectPythonPassword => p.Keys == {ArtifactId}
    case InspectReactHtmlFlow =>
      p.Keys == {FrontendArtifactId, ModelArtifactId, SerializerArtifactId, ViewArtifactId, Field}
    case Unregistered(_) => false
  }

  // Whether `_execute_one` gets as far as asking the limiter.
  predicate Admitted(env: Setting, a: Action) {
    && IsApproved(env.approvals, a)
    && a.target in env.targets && env.targets[a.target] in env.environments
    && !a.tool.Unregistered?
    && (a.tool == SandboxCommand ==> env.sandbox == DockerSandbox)
    && AcceptsParameters(a.tool, a.parameters)
  }

  // The checks before the limiter, in their order.
  function Refusal(env: Setting, a: Action): (r: Option<Report>)
    ensures r.None? <==> Admitted(env, a)
  {
    if !IsApproved(env.approvals, a) then Some(Denial(126, false))
    else if a.target !in env.targets then Some(Denial(126, false))
    else if env.targets[a.target] !in env.environments then Some(Denial(126, false))
    else if a.tool.Unregistered? then Some(Denial(126, false))
    else if a.tool == SandboxCommand && env.sandbox != DockerSandbox then Some(Denial(126, true))
    else if !AcceptsParameters(a.tool, a.parameters) then Some(Failure(2, ValidationError))
    else None
  }

  // The addresses the request needs can be found.
  predicate Addressable(env: Setting, a: Action) {
    && (a.tool == ObserveHttpSurface ==> a.target in env.addressed)
    && (env.active.Some? && a.service.Some? ==> a.service.value in env.active.value.services)
  }

  // How a sandbox call that was not cancelled is reported.
  function OutcomeReport(outcome: SandboxOutcome): Report
    requires !outcome.Cancelled?
  {
    match outcome
    case Broke => Failure(127, ExecutionFailed)
    case Ran(exitCode, timedOut, launchFailed, boundary, payload, surface) =>
      Report(if exitCode == 0 then Completed else Failed, exitCode, timedOut,
             if launchFailed then Some(IsolationBlocked) else None, boundary, payload, surface)
  }

  // The call of `sandbox.run` and what becomes of it.
  function Launch(env: Setting, a: Action, at: Attempt): Trial {
    if !Addressable(env, a) then Finish(a, at, Failure(127, ExecutionFailed), false)
    else if at.outcome.Cancelled? then Trial(None, None, true)
    else Finish(a, at, OutcomeReport(at.outcome), true)
  }

  // `_execute_one`
  function ExecuteOne(env: Setting, a: Action, at: Attempt): Trial {
    var refusal := Refusal(env, a);
    if refusal.Some? then Finish(a, at, refusal.value, false)
    else if !at.granted then Finish(a, at, Denial(75, false), false)
    else Launch(env, a, at)
  }

  // ---- executor/sandbox_runner.py ----

  // `_validate`: the runner has something against the action. No registered
  // tool carries a contracted endpoint.
  predicate RunnerObjects(env: Setting, services: Option<RuntimeServices>, a: Action) {
    || !IsApproved(env.approvals, a)
    || a.tool.Unregistered?
    || (a.tool == SandboxCommand && (a.service.Some? || a.endpoint.Some?))
    || (a.tool == ObserveHttpSurface && (services.None? || a.service.None? || a.endpoint.None?))
    || ((a.endpoint.Some? || a.service.Some?) && !ServiceUsable(services, a))
  }

  predicate ServiceUsable(services: Option<RuntimeServices>, a: Action) {
    && services.Some? && a.service.Some? && a.service.value in services.value.services
    && var service := services.value.services[a.service.value];
    && a.endpoint.Some? && a.endpoint.value in service.endpoints && service.sandboxAddress
  }

  // One turn of the runner's loop; `_denied` goes through `_runner_denied`.
  function Turn(env: Setting, services: Option<RuntimeServices>, a: Action, at: Attempt): Trial {
    if at.late then Finish(a, at, LATE, false)
    else if RunnerObjects(env, services, a) then Finish(a, at, Denial(126, false), false)
    else ExecuteOne(env, a, at)
  }

  predicate Done(t: Trial) {
    t.result.Some? && t.result.value.status == Completed
  }

  // The turns the loop would take if it never stopped.
  function Turns(env: Setting, services: Option<RuntimeServices>, actions: seq<Action>, attempts: seq<Attempt>):
      seq<Trial>
    requires |attempts| == |actions|
  {
    seq(|actions|, i requires 0 <= i < |actions| => Turn(env, services, actions[i], attempts[i]))
  }

  // The loop goes on only after a completed action.
  function UntilFailure(turns: seq<Trial>, i: nat): seq<Trial>
    requires i <= |turns|
    decreases |turns| - i
  {
    if i == |turns| then []
    else if Done(turns[i]) then [turns[i]] + UntilFailure(turns, i + 1)
    else [turns[i]]
  }

  const MAX_ACTIONS: nat := 8

  // `SandboxRunner.run`
  function RunSequence(env: Setting, services: Option<RuntimeServices>, actions: seq<Action>, attempts: seq<Attempt>):
      seq<Trial>
    requires |attempts| == |actions|
  {
    if |actions| > MAX_ACTIONS then [Finish(actions[0], attempts[0], Denial(126, false), false)]
    else UntilFailure(Turns(env, services, actions, attempts), 0)
  }

  function OverallStatus(trials: seq<Trial>): ExecutionStatus {
    if trials != [] && trials[0].result.Some? && trials[0].result.value.status == Denied then Denied
    else if trials != [] && forall i :: 0 <= i < |trials| ==> Done(trials[i]) then Completed
    else Failed
  }

  // ---- what the pieces promise ----

  // Nothing enters a sandbox unless exactly that proposal was approved.
  lemma EnteredOnlyIfApproved(env: Setting, a: Action, at: Attempt)
    ensures ExecuteOne(env, a, at).entered <==> Admitted(env, a) && at.granted && Addressable(env, a)
  {
  }

  // An approval is for one proposal: any other with the same identifier is refused.
  lemma ApprovalIsExact(approvals: Approvals, a: Action, v: Validation, b: Action)
    requires RecordApproval(approvals, a, v).Some?
    ensures v.approved && v.actionId == a.id
    ensures var next := RecordApproval(approvals, a, v).value;
      IsApproved(next, b) <==> b == a || (b.id != a.id && IsApproved(approvals, b))
  {
  }

  // A completed result ran with exit code zero, and its stored record says so.
  lemma CompletedMeansClean(env: Setting, services: Option<RuntimeServices>, a: Action, at: Attempt)
    requires Done(Turn(env, services, a, at))
    ensures var t := Turn(env, services, a, at);
      && t.entered && t.result.value.exitCode == 0 && t.result.value.actionId == a.id
      && at.outcome.Ran? && at.outcome.exitCode == 0
      && t.record == Some(Record(at.runId, a.id, Completed, 0, at.outcome.payload, at.outcome.surface))
  {
  }

  // The only completed records are those of clean runs.
  lemma RecordsNeverFlatter(env: Setting, services: Option<RuntimeServices>, a: Action, at: Attempt)
    ensures var t := Turn(env, services, a, at);
      t.record.Some? && t.record.value.status == Completed ==>
        t.entered && at.outcome.Ran? && at.outcome.exitCode == 0 && Done(t)
  {
  }

  predicate AllButLastDone(trials: seq<Trial>) {
    forall k :: 0 <= k < |trials| - 1 ==> Done(trials[k])
  }

  // The loop has come this far, and is still running or not.
  predicate Progress(trials: seq<Trial>, running: bool) {
    AllButLastDone(trials) && running == (trials == [] || Done(trials[|trials| - 1]))
  }

  lemma ProgressGrows(trials: seq<Trial>, trial: Trial)
    requires Progress(trials, true)
    ensures Progress(trials + [trial], Done(trial))
  {
  }

  // The trials taken are a prefix of the turns, all but the last are done, and
  // only a trial that is not done cuts the prefix short.
  predicate FailStop(turns: seq<Trial>, trials: seq<Trial>) {
    && trials <= turns
    && AllButLastDone(trials)
    && (|trials| < |turns| ==> trials != [] && !Done(trials[|trials| - 1]))
  }

  lemma {:induction false} StopsAtFailure(turns: seq<Trial>, i: nat)
    requires i <= |turns|
    ensures FailStop(turns[i..], UntilFailure(turns, i))
    decreases |turns| - i
  {
    if i < |turns| && Done(turns[i]) {
      StopsAtFailure(turns, i + 1);
      var rest := UntilFailure(turns, i + 1);
      assert turns[i..] == [turns[i]] + turns[i + 1..];
      assert turns[i + 1..][..|rest|] == rest;
    }
  }

  // Fail-stop determines the trials.
  lemma FailStopIsUnique(turns: seq<Trial>, a: seq<Trial>, b: seq<Trial>)
    requires FailStop(turns, a) && FailStop(turns, b)
    ensures a == b
  {
    assert a == turns[..|a|] && b == turns[..|b|];
    assert !(|a| < |b|) by {
      assert forall k :: 0 <= k < |a| && k < |b| ==> a[k] == b[k];
    }
  }

  // The runner is fail-stop: its results follow a prefix of the actions, all
  // but the last completed, and it stops early only after one that did not.
  lemma SequenceFailStops(env: Setting, services: Option<RuntimeServices>, actions: seq<Action>,
                          attempts: seq<Attempt>)
    requires |attempts| == |actions| <= MAX_ACTIONS
    ensures FailStop(Turns(env, services, actions, attempts), RunSequence(env, services, actions, attempts))
  {
    var turns := Turns(env, services, actions, attempts);
    StopsAtFailure(turns, 0);
    assert turns[0..] == turns;
  }

  // The trials are the turns of the first actions.
  predicate Taken(env: Setting, services: Option<RuntimeServices>, actions: seq<Action>, attempts: seq<Attempt>,
                  trials: seq<Trial>) {
    && |trials| <= |actions| == |attempts|
    && forall k :: 0 <= k < |trials| ==> trials[k] == Turn(env, services, actions[k], attempts[k])
  }

  lemma OneMoreTaken(env: Setting, services: Option<RuntimeServices>, actions: seq<Action>, attempts: seq<Attempt>,
                     trials: seq<Trial>, at: Attempt, trial: Trial)
    requires Taken(env, services, actions, attempts, trials) && |trials| < |actions|
    requires trial == Turn(env, services, actions[|trials|], at)
    ensures Taken(env, services, actions, attempts[|trials| := at], trials + [trial])
  {
  }

  lemma TakenIsTheSequence(env: Setting, services: Option<RuntimeServices>, actions: seq<Action>,
                           attempts: seq<Attempt>, trials: seq<Trial>, running: bool)
    requires Taken(env, services, actions, attempts, trials) && |actions| <= MAX_ACTIONS
    requires Progress(trials, running) && (running ==> |trials| == |actions|)
    ensures trials == RunSequence(env, services, actions, attempts)
  {
    var turns := Turns(env, services, actions, attempts);
    assert FailStop(turns, trials);
    SequenceFailStops(env, services, actions, attempts);
    FailStopIsUnique(turns, trials, RunSequence(env, services, actions, attempts));
  }

  // The whole is completed exactly when there were actions and every one of
  // them completed; it is denied exactly when the first one was.
  lemma StatusTellsAll(env: Setting, services: Option<RuntimeServices>, actions: seq<Action>, attempts: seq<Attempt>)
    requires |attempts| == |actions|
    ensures var trials := RunSequence(env, services, actions, attempts);
      && (OverallStatus(trials) == Completed <==>
            0 < |actions| == |trials| && forall k :: 0 <= k < |trials| ==> Done(trials[k]))
      && (OverallStatus(trials) == Denied <==>
            trials != [] && trials[0].result.Some? && trials[0].result.value.status == Denied)
  {
    if |actions| <= MAX_ACTIONS {
      SequenceFailStops(env, services, actions, attempts);
    } else {
      FirstIsDenied(actions[0], attempts[0]);
    }
  }

  lemma FirstIsDenied(a: Action, at: Attempt)
    ensures !Done(Finish(a, at, Denial(126, false), false))
  {
  }

  // The service and endpoint the action names are in the service map, allowed
  // and reachable inside the sandbox.
  predicate OnUsableService(services: Option<RuntimeServices>, a: Action) {
    && services.Some? && a.service.Some? && a.endpoint.Some?
    && a.service.value in services.value.services
    && var found := services.value.services[a.service.value];
       found.sandboxAddress && a.endpoint.value in found.endpoints
  }

  // What a capability needs beside its approval: its own parameters, and where it
  // may act.
  ghost predicate CapabilityFits(env: Setting, services: Option<RuntimeServices>, a: Action) {
    match a.tool
    case SafeNoop =>
      && (forall name :: name in a.parameters ==> name == Message || name == TestOutcome)
      && (TestOutcome in a.parameters ==>
            || a.parameters[TestOutcome] == Text("confirmed") || a.parameters[TestOutcome] == Text("rejected")
            || a.parameters[TestOutcome] == Text("inconclusive"))
    case SandboxCommand =>
      a.service.None? && a.endpoint.None? && env.sandbox == DockerSandbox && Planning.CommandBounded(a.parameters)
    case ObserveHttpSurface => OnUsableService(services, a) && a.target in env.addressed && a.parameters.Keys == {}
    case InspectReactHtmlFlow =>
      forall name :: name in a.parameters <==>
        name in {FrontendArtifactId, ModelArtifactId, SerializerArtifactId, ViewArtifactId, Field}
    case Unregistered(_) => false
    case _ => forall name :: name in a.parameters <==> name == ArtifactId
  }

  // All that has to hold for the sandbox to be entered: time and a permit are left,
  // the approval is for this very proposal, its target is registered in an allowed
  // environment, its capability fits, and its service, if it names one, is usable
  // and among the active ones.
  ghost predicate Enters(env: Setting, services: Option<RuntimeServices>, a: Action, at: Attempt) {
    && !at.late && at.granted
    && a.id in env.approvals && env.approvals[a.id] == a
    && a.target in env.targets && env.targets[a.target] in env.environments
    && CapabilityFits(env, services, a)
    && ((a.service.None? && a.endpoint.None?) || OnUsableService(services, a))
    && (env.active.Some? && a.service.Some? ==> a.service.value in env.active.value.services)
  }

  lemma FitsMeans(env: Setting, services: Option<RuntimeServices>, a: Action)
    ensures CapabilityFits(env, services, a) <==>
      && AcceptsParameters(a.tool, a.parameters)
      && (a.tool == SandboxCommand ==> a.service.None? && a.endpoint.None? && env.sandbox == DockerSandbox)
      && (a.tool == ObserveHttpSurface ==> OnUsableService(services, a) && a.target in env.addressed)
  {
    match a.tool {
      case ObserveHttpSurface => assert a.parameters.Keys == {} <==> a.parameters == map[];
      case _ =>
    }
  }

  lemma TurnEntersExactly(env: Setting, services: Option<RuntimeServices>, a: Action, at: Attempt)
    ensures Turn(env, services, a, at).entered <==> Enters(env, services, a, at)
  {
    FitsMeans(env, services, a);
  }

  // Which turns of a sequence enter a sandbox: those taken whose action may, in a
  // sequence of eight at most.
  lemma SequenceEntersExactly(env: Setting, services: Option<RuntimeServices>, actions: seq<Action>,
                              attempts: seq<Attempt>, k: nat)
    requires |attempts| == |actions|
    requires k < |RunSequence(env, services, actions, attempts)|
    ensures k < |actions|
    ensures RunSequence(env, services, actions, attempts)[k].entered <==>
      |actions| <= 8 && Enters(env, services, actions[k], attempts[k])
  {
    if |actions| <= MAX_ACTIONS {
      SequenceFailStops(env, services, actions, attempts);
      TurnEntersExactly(env, services, actions[k], attempts[k]);
    }
  }

  // A sequence of more than eight actions is denied as a whole.
  lemma LongSequenceIsDenied(env: Setting, services: Option<RuntimeServices>, actions: seq<Action>,
                             attempts: seq<Attempt>)
    requires |attempts| == |actions| > 8
    ensures var trials := RunSequence(env, services, actions, attempts);
      && |trials| == 1 && !trials[0].entered
      && Tells(trials[0], actions[0], attempts[0], Report(Denied, 126, false, None, false, None, false))
  {
  }

  // The trial hands the report back and stores it, with a cause for a failure
  // that names none; what cannot be stored is handed back as a failure with exit
  // code one, and stored as that if only the audit line was lost.
  predicate Tells(t: Trial, a: Action, at: Attempt, r: Report) {
    && t.result.Some?
    && var e := t.result.value;
    && e.runId == at.runId && e.actionId == a.id && e.timedOut == r.timedOut && e.boundary == r.boundary
    && if at.evidenceKept && at.auditKept then
         && e.status == r.status && e.exitCode == r.exitCode
         && e.error == (if r.status != Failed || r.error.Some? then r.error
                        else if r.timedOut then Some(Timeout) else Some(ExecutionFailed))
         && t.record == Some(Record(at.runId, a.id, r.status, r.exitCode, r.payload, r.surface))
       else
         && e.status == Failed && e.exitCode == 1 && e.error == Some(PersistenceError)
         && t.record == if at.auditKept || !at.rewriteKept then None
                        else Some(Record(at.runId, a.id, Failed, 1, r.payload, r.surface))
  }

  // What a turn that enters the sandbox comes to.
  lemma EntryTells(env: Setting, services: Option<RuntimeServices>, a: Action, at: Attempt)
    requires Enters(env, services, a, at)
    ensures var t := Turn(env, services, a, at);
      match at.outcome
      case Cancelled => t == Trial(None, None, true)
      case Broke => Tells(t, a, at, Report(Failed, 127, false, Some(ExecutionFailed), false, None, false))
      case Ran(exitCode, timedOut, launchFailed, boundary, payload, surface) =>
        Tells(t, a, at, Report(if exitCode != 0 then Failed else Completed, exitCode, timedOut,
                               if launchFailed then Some(IsolationBlocked) else None, boundary, payload, surface))
  {
    TurnEntersExactly(env, services, a, at);
  }

  // The runner finds nothing against an approved and registered action that names
  // no service, or a usable one; a command names none and an observation one.
  predicate RunnerAgrees(env: Setting, services: Option<RuntimeServices>, a: Action) {
    && a.id in env.approvals && env.approvals[a.id] == a && !a.tool.Unregistered?
    && match (a.service.None? && a.endpoint.None?, OnUsableService(services, a))
       case (true, _) => a.tool != ObserveHttpSurface
       case (false, usable) => usable && a.tool != SandboxCommand
  }

  lemma RunnerAgreesMeans(env: Setting, services: Option<RuntimeServices>, a: Action)
    ensures RunnerAgrees(env, services, a) <==> !RunnerObjects(env, services, a)
  {
  }

  // A turn that is late, or that the runner objects to.
  lemma ObjectionTells(env: Setting, services: Option<RuntimeServices>, a: Action, at: Attempt)
    requires at.late || !RunnerAgrees(env, services, a)
    ensures Tells(Turn(env, services, a, at), a, at,
      if at.late then Report(Failed, 124, true, None, false, None, false)
      else Report(Denied, 126, false, None, false, None, false))
  {
    RunnerAgreesMeans(env, services, a);
  }

  // A turn the runner passes on but the executor does not let into the sandbox, by
  // the first thing in its way.
  lemma RefusalTells(env: Setting, services: Option<RuntimeServices>, a: Action, at: Attempt)
    requires !at.late && RunnerAgrees(env, services, a) && !Enters(env, services, a, at)
    ensures Tells(Turn(env, services, a, at), a, at,
      if a.target !in env.targets || env.targets[a.target] !in env.environments
      then Report(Denied, 126, false, None, false, None, false)
      else if a.tool == SandboxCommand && env.sandbox != DockerSandbox
      then Report(Denied, 126, false, None, true, None, false)
      else if !CapabilityFits(env.(addressed := {a.target}), services, a)
      then Report(Failed, 2, false, Some(ValidationError), false, None, false)
      else if !at.granted then Report(Denied, 75, false, None, false, None, false)
      else Report(Failed, 127, false, Some(ExecutionFailed), false, None, false))
  {
    RunnerAgreesMeans(env, services, a);
    FitsMeans(env, services, a);
    FitsMeans(env.(addressed := {a.target}), services, a);
  }

  // ---- which sandbox a sequence runs in ----

  datatype Place = Place(sandbox: SandboxKind, active: Option<RuntimeServices>, runner: Option<RuntimeServices>)

  predicate NeedsTargetNetwork(actions: seq<Action>) {
    exists i :: 0 <= i < |actions| && actions[i].tool == ObserveHttpSurface
  }

  predicate HasCommand(actions: seq<Action>) {
    exists i :: 0 <= i < |actions| && actions[i].tool == SandboxCommand
  }

  // `execute_sequence`: the sandbox and the services in force while the runner
  // works; nothing when the call raises before it. `opens` says that a sequence
  // runtime can be opened.
  function Placed(own: SandboxKind, lab: bool, services: Option<RuntimeServices>, actions: seq<Action>,
                  knownTarget: bool, opens: bool): Option<Place> {
    if lab then
      if services.None? then None else Some(Place(SequenceRuntime, services, services))
    else if HasCommand(actions) && own != DockerSandbox then Some(Place(own, None, services))
    else if NeedsTargetNetwork(actions) && own != DockerSandbox then Some(Place(own, None, None))
    else if services.None? || own != DockerSandbox || !NeedsTargetNetwork(actions) then
      Some(Place(own, services, services))
    else if !services.value.hasNetwork || !knownTarget || !opens then None
    else Some(Place(SequenceRuntime, services, services))
  }

  // The sequence of one action: its only trial.
  function RunOne(env: Setting, place: Place, a: Action, at: Attempt): Trial {
    Turn(env.(sandbox := place.sandbox, active := place.active), place.runner, a, at)
  }

  // `execute` and `execute_runtime_observation`, and `execute_sequence` for one
  // action while a session is running. `session` is the sandbox session an
  // observation opens for itself, or why it could not. Nothing is returned
  // when the call raises.
  function Perform(env: Setting, lab: bool, services: Option<RuntimeServices>, a: Action, at: Attempt, opens: bool,
                   session: Result<RuntimeServices, ErrorCode>): Option<Trial> {
    var known := a.target in env.targets;
    if services.Some? || a.tool != ObserveHttpSurface then
      var place := Placed(env.sandbox, lab, services, [a], known, opens);
      if place.Some? then Some(RunOne(env, place.value, a, at)) else None
    else if env.sandbox != DockerSandbox then
      Some(Finish(a, at, Denial(126, false).(error := Some(IsolationBlocked)), false))
    else if a.service.None? || a.endpoint.None? || !IsApproved(env.approvals, a) || !known then
      Some(Finish(a, at, Denial(126, false), false))
    else if session.Err? then Some(Finish(a, at, Failure(127, session.error), false))
    else
      var place := Placed(env.sandbox, lab, Some(session.value), [a], known, opens);
      if place.Some? then Some(RunOne(env, place.value, a, at))
      else Some(Finish(a, at, Failure(127, ExecutionFailed), false))
  }

  // Where a sequence runs: a lab's runtime, or the executor's own sandbox with the
  // session's services in force; a sequence with commands or observations gets no
  // services outside Docker, and in Docker an observation needs a runtime of its
  // own on the target's network.
  lemma PlacesAre(own: SandboxKind, lab: bool, services: Option<RuntimeServices>, actions: seq<Action>,
                  knownTarget: bool, opens: bool)
    ensures var place := Placed(own, lab, services, actions, knownTarget, opens);
      var commands := exists a :: a in actions && a.tool == SandboxCommand;
      var observes := exists a :: a in actions && a.tool == ObserveHttpSurface;
      && (lab ==> place == if services.Some? then Some(Place(SequenceRuntime, services, services)) else None)
      && (!lab && own != DockerSandbox ==>
            place == Some(Place(own, if commands || observes then None else services,
                                if observes && !commands then None else services)))
      && (!lab && own == DockerSandbox && !(observes && services.Some?) ==>
            place == Some(Place(DockerSandbox, services, services)))
      && (!lab && own == DockerSandbox && observes && services.Some? ==>
            place == if services.value.hasNetwork && knownTarget && opens
                     then Some(Place(SequenceRuntime, services, services)) else None)
  {
    if exists a :: a in actions && a.tool == SandboxCommand {
      assert HasCommand(actions);
    }
    if exists a :: a in actions && a.tool == ObserveHttpSurface {
      assert NeedsTargetNetwork(actions);
    }
  }

  // An action on its own, where a session is running or none is needed.
  lemma ActionIsPlaced(env: Setting, lab: bool, services: Option<RuntimeServices>, a: Action, at: Attempt, opens: bool,
                       session: Result<RuntimeServices, ErrorCode>)
    requires services.Some? || a.tool != ObserveHttpSurface
    ensures var network := services.Some? && services.value.hasNetwork && a.target in env.targets && opens;
      var docker := env.sandbox == DockerSandbox;
      var placed := (kind: SandboxKind, active: Option<RuntimeServices>, runner: Option<RuntimeServices>) =>
        Some(Turn(env.(sandbox := kind, active := active), runner, a, at));
      Perform(env, lab, services, a, at, opens, session) ==
        if lab then if services.Some? then placed(SequenceRuntime, services, services) else None
        else if a.tool == ObserveHttpSurface then
          if !docker then placed(env.sandbox, None, None)
          else if network then placed(SequenceRuntime, services, services) else None
        else if a.tool == SandboxCommand && !docker then placed(env.sandbox, None, services)
        else placed(env.sandbox, services, services)
  {
    PlacesAre(env.sandbox, lab, services, [a], a.target in env.targets, opens);
    assert a in [a];
  }

  // An observation without a running session: it needs Docker, a service and an
  // endpoint, its approval and a known target, then a session of its own with a
  // runtime on its network.
  lemma ObservationOpensASession(env: Setting, lab: bool, a: Action, at: Attempt, opens: bool,
                                 session: Result<RuntimeServices, ErrorCode>)
    requires a.tool == ObserveHttpSurface
    ensures var t := Perform(env, lab, None, a, at, opens, session);
      && t.Some?
      && if env.sandbox != DockerSandbox then
           && !t.value.entered
           && Tells(t.value, a, at, Report(Denied, 126, false, Some(IsolationBlocked), false, None, false))
         else if !(a.service.Some? && a.endpoint.Some? && a.id in env.approvals && env.approvals[a.id] == a
                   && a.target in env.targets) then
           && !t.value.entered
           && Tells(t.value, a, at, Report(Denied, 126, false, None, false, None, false))
         else if session.Err? then
           && !t.value.entered
           && Tells(t.value, a, at, Report(Failed, 127, false, Some(session.error), false, None, false))
         else if lab || (session.value.hasNetwork && opens) then
           t.value == Turn(env.(sandbox := SequenceRuntime, active := Some(session.value)), Some(session.value), a, at)
         else
           && !t.value.entered
           && Tells(t.value, a, at, Report(Failed, 127, false, Some(ExecutionFailed), false, None, false))
  {
    if session.Ok? {
      PlacesAre(env.sandbox, lab, Some(session.value), [a], a.target in env.targets, opens);
      assert a in [a];
    }
  }

  // The sandbox was entered only for a proposal approved exactly as it stands,
  // a completed result is a clean run of it, and a record that says completed
  // holds what that run printed.
  predicate Guarded(approvals: Approvals, a: Action, at: Attempt, t: Trial) {
    && (t.entered ==> IsApproved(approvals, a))
    && (t.result.Some? ==> t.result.value.actionId == a.id)
    && (Done(t) ==> t.entered && t.result.value.exitCode == 0)
    && (t.record.Some? && t.record.value.status == Completed ==> t.entered && Printed(at.outcome, t.record.value))
  }

  // The record holds what a clean run printed.
  predicate Printed(outcome: SandboxOutcome, r: Record) {
    outcome.Ran? && outcome.exitCode == 0 && r.payload == outcome.payload
  }

  lemma OneIsGuarded(env: Setting, place: Place, a: Action, at: Attempt)
    ensures Guarded(env.approvals, a, at, RunOne(env, place, a, at))
  {
  }

  // However an action is performed, it is guarded.
  lemma PerformIsGuarded(env: Setting, lab: bool, services: Option<RuntimeServices>, a: Action, at: Attempt,
                         opens: bool, session: Result<RuntimeServices, ErrorCode>)
    requires Perform(env, lab, services, a, at, opens, session).Some?
    ensures Guarded(env.approvals, a, at, Perform(env, lab, services, a, at, opens, session).value)
  {
    forall place: Place
      ensures Guarded(env.approvals, a, at, RunOne(env, place, a, at))
    {
      OneIsGuarded(env, place, a, at);
    }
  }

  // In a managed lab the sandbox is a sequence runtime, so a raw command is
  // denied there and never runs, approved or not.
  lemma LabDeniesCommands(env: Setting, services: Option<RuntimeServices>, own: SandboxKind, a: Action, at: Attempt,
                          knownTarget: bool, opens: bool)
    requires a.tool == SandboxCommand
    requires Placed(own, true, services, [a], knownTarget, opens).Some?
    requires env.sandbox == Placed(own, true, services, [a], knownTarget, opens).value.sandbox
    ensures !Turn(env, services, a, at).entered && !Done(Turn(env, services, a, at))
  {
  }

  // Wherever it is placed, a raw command runs exactly in a Docker sandbox of the
  // executor's own, outside a lab, once every check on the way lets it through.
  lemma CommandsNeedDocker(env: Setting, own: SandboxKind, lab: bool, services: Option<RuntimeServices>, a: Action,
                           at: Attempt, knownTarget: bool, opens: bool)
    requires a.tool == SandboxCommand
    requires Placed(own, lab, services, [a], knownTarget, opens).Some?
    requires env.sandbox == Placed(own, lab, services, [a], knownTarget, opens).value.sandbox
    ensures Turn(env, services, a, at).entered <==>
      && !lab && own == DockerSandbox
      && !at.late && at.granted
      && a.id in env.approvals && env.approvals[a.id] == a
      && a.target in env.targets && env.targets[a.target] in env.environments
      && a.service.None? && a.endpoint.None? && Planning.CommandBounded(a.parameters)
  {
    TurnEntersExactly(env, services, a, at);
    assert [a][0].tool == SandboxCommand;
  }

  // ---- the managed lab and the sandbox it replaces ----

  datatype Lab = Lab(sandbox: SandboxKind, open: bool, before: Option<SandboxKind>)

  datatype LabCall = OpenCall(hasNetwork: bool, hasRepository: bool, opens: bool) | CloseCall

  // What a call leaves behind; whether it also raised makes no difference.
  function AfterLabCall(s: Lab, call: LabCall): Lab {
    match call
    case OpenCall(hasNetwork, hasRepository, opens) =>
      if s.open then s
      else
        Lab(DockerSandbox, hasNetwork && hasRepository && opens,
            if s.sandbox != DockerSandbox then Some(s.sandbox) else s.before)
    case CloseCall =>
      if !s.open then s else Lab(if s.before.Some? then s.before.value else s.sandbox, false, None)
  }

  function AfterLabCalls(own: SandboxKind, calls: seq<LabCall>): Lab {
    if calls == [] then Lab(own, false, None)
    else AfterLabCall(AfterLabCalls(own, calls[..|calls| - 1]), calls[|calls| - 1])
  }

  lemma OneMoreCall(own: SandboxKind, calls: seq<LabCall>, call: LabCall)
    ensures AfterLabCalls(own, calls + [call]) == AfterLabCall(AfterLabCalls(own, calls), call)
  {
    assert (calls + [call])[..|calls|] == calls;
  }

  // Whatever is called, the executor has its own sandbox, or a Docker one and
  // its own saved beside it.
  lemma {:induction false} SandboxIsNeverLost(own: SandboxKind, calls: seq<LabCall>)
    ensures var s := AfterLabCalls(own, calls);
      if own == DockerSandbox then s.sandbox == own && s.before.None?
      else (s.sandbox == own && s.before.None? && !s.open) || (s.sandbox == DockerSandbox && s.before == Some(own))
  {
    if calls != [] {
      SandboxIsNeverLost(own, calls[..|calls| - 1]);
    }
  }

  // After any calls, opening and then closing brings the executor's own sandbox
  // back exactly when it is a Docker one, a lab was open already, or the lab
  // could be made: a failed opening is never undone by closing.
  lemma OpenThenCloseRestores(own: SandboxKind, calls: seq<LabCall>, open: LabCall)
    requires open.OpenCall?
    ensures AfterLabCalls(own, calls + [open] + [CloseCall]).sandbox == own <==>
      || own == DockerSandbox
      || AfterLabCalls(own, calls).open
      || (open.hasNetwork && open.hasRepository && open.opens)
  {
    SandboxIsNeverLost(own, calls);
    OneMoreCall(own, calls, open);
    OneMoreCall(own, calls + [open], CloseCall);
  }

  // An opening without a network leaves a Docker sandbox in place for good; the
  // next lab that can be made and is closed brings the own one back.
  lemma FailedOpeningKeepsDocker()
    ensures var failed: seq<LabCall> := [OpenCall(false, true, true), CloseCall];
      && AfterLabCalls(ProcessSandbox, failed) == Lab(DockerSandbox, false, Some(ProcessSandbox))
      && AfterLabCalls(ProcessSandbox, failed + [OpenCall(true, true, true)] + [CloseCall])
           == Lab(ProcessSandbox, false, None)
  {
    var first := OpenCall(false, true, true);
    OneMoreCall(ProcessSandbox, [], first);
    OneMoreCall(ProcessSandbox, [first], CloseCall);
    assert [] + [first] == [first] && [first] + [CloseCall] == [first, CloseCall];
    var made := OpenCall(true, true, true);
    OneMoreCall(ProcessSandbox, [first, CloseCall], made);
    OneMoreCall(ProcessSandbox, [first, CloseCall] + [made], CloseCall);
  }

  // ---- the executor as an object ----

  class SafeExecutor {
    const targets: map<string, string>
    const addressed: set<string>
    const environments: set<string>
    const limiter: RunLimiter
    var approvals: Approvals
    var sandbox: SandboxKind
    var active: Option<RuntimeServices>
    var lab: bool
    var beforeLab: Option<SandboxKind>
    var entered: seq<Action>     // the proposals `sandbox.run` was called for

    constructor (targets: map<string, string>, addressed: set<string>, environments: set<string>, limiter: RunLimiter,
                 sandbox: SandboxKind)
      ensures this.targets == targets && this.addressed == addressed && this.environments == environments
      ensures this.limiter == limiter && this.sandbox == sandbox
      ensures approvals == map[] && active.None? && !lab && beforeLab.None? && entered == []
    {
      this.targets, this.addressed, this.environments := targets, addressed, environments;
      this.limiter, this.sandbox := limiter, sandbox;
      approvals, active, lab, beforeLab, entered := map[], None, false, None, [];
    }

    function Env(): Setting
      reads this
    {
      Setting(approvals, targets, addressed, environments, sandbox, active)
    }

    // Every proposal the sandbox was entered for since `before` is approved.
    predicate EntriesSince(before: seq<Action>)
      reads this
    {
      before <= entered && forall i :: |before| <= i < |entered| ==> IsApproved(approvals, entered[i])
    }

    // `record_approval`; a refused validation raises and records nothing.
    method Approve(a: Action, v: Validation) returns (ok: bool)
      modifies this`approvals
      ensures ok <==> v.approved && v.actionId == a.id
      ensures ok ==> forall b ::
        IsApproved(approvals, b) <==> b == a || (b.id != a.id && IsApproved(old(approvals), b))
      ensures !ok ==> approvals == old(approvals)
      ensures ok == RecordApproval(old(approvals), a, v).Some?
      ensures approvals == if ok then RecordApproval(old(approvals), a, v).value else old(approvals)
    {
      if !v.approved || v.actionId != a.id {
        return false;
      }
      approvals := approvals[a.id := a];
      ok := true;
    }

    function LabState(): Lab
      reads this
    {
      Lab(sandbox, lab, beforeLab)
    }

    // `open_managed_lab`: a second call changes nothing. When the lab cannot
    // be opened the sandbox has already been exchanged for a Docker one; only
    // a lab that is made but does not start is kept.
    method OpenLab(hasNetwork: bool, hasRepository: bool, opens: bool, starts: bool) returns (ok: bool)
      modifies this`sandbox, this`lab, this`beforeLab
      ensures old(lab) ==> ok && lab && sandbox == old(sandbox) && beforeLab == old(beforeLab)
      ensures !old(lab) ==>
        && ok == (hasNetwork && hasRepository && opens && starts)
        && lab == (hasNetwork && hasRepository && opens)
        && sandbox == DockerSandbox
        && beforeLab == if old(sandbox) != DockerSandbox then Some(old(sandbox)) else old(beforeLab)
      ensures LabState() == AfterLabCall(old(LabState()), OpenCall(hasNetwork, hasRepository, opens))
    {
      if lab {
        return true;
      }
      if sandbox != DockerSandbox {
        beforeLab := Some(sandbox);
        sandbox := DockerSandbox;
      }
      if !hasNetwork || !hasRepository || !opens {
        return false;
      }
      lab := true;
      ok := starts;
    }

    // `close_managed_lab`: the sandbox from before the lab comes back.
    method CloseLab()
      modifies this`sandbox, this`lab, this`beforeLab
      ensures !lab
      ensures old(lab) ==>
        && beforeLab.None?
        && sandbox == if old(beforeLab).Some? then old(beforeLab).value else old(sandbox)
      ensures !old(lab) ==> sandbox == old(sandbox) && beforeLab == old(beforeLab)
      ensures LabState() == AfterLabCall(old(LabState()), CloseCall)
    {
      if lab {
        lab := false;
        if beforeLab.Some? {
          sandbox := beforeLab.value;
          beforeLab := None;
        }
      }
    }

    // `_execute_one`: the limiter decides whether the attempt is granted, and
    // its permit is back on every path out, cancellation included.
    method Execute(a: Action, at: Attempt) returns (trial: Trial, granted: bool)
      requires limiter.Valid()
      modifies this`entered, limiter
      ensures limiter.Valid() && limiter.free == old(limiter.free)
      ensures granted == (Admitted(Env(), a) && old(limiter.CanGrant(a.id)))
      ensures Env() == old(Env()) && trial == ExecuteOne(old(Env()), a, at.(granted := granted))
      ensures entered == old(entered) + if trial.entered then [a] else []
      ensures forall id ::
        Count(limiter.counts, id) == old(Count(limiter.counts, id)) + (if granted && id == a.id then 1 else 0)
    {
      var refusal := Refuse(a);
      if refusal.Some? {
        return Finish(a, at, refusal.value, false), false;
      }
      granted := limiter.Acquire(a.id);
      if granted {
        trial := Enter(a, at);
        limiter.Release();
      } else {
        trial := Finish(a, at, Denial(75, false), false);
      }
    }

    // The checks before the limiter.
    method Refuse(a: Action) returns (refusal: Option<Report>)
      ensures refusal == Refusal(Env(), a)
    {
      if a.id !in approvals || approvals[a.id] != a {
        return Some(Denial(126, false));
      }
      if a.target !in targets || targets[a.target] !in environments || a.tool.Unregistered? {
        return Some(Denial(126, false));
      }
      if a.tool == SandboxCommand && sandbox != DockerSandbox {
        return Some(Denial(126, true));
      }
      if !AcceptsParameters(a.tool, a.parameters) {
        return Some(Failure(2, ValidationError));
      }
      refusal := None;
    }

    // The guarded part, between acquiring and releasing.
    method Enter(a: Action, at: Attempt) returns (trial: Trial)
      modifies this`entered
      ensures Env() == old(Env()) && trial == Launch(old(Env()), a, at)
      ensures entered == old(entered) + if trial.entered then [a] else []
    {
      if (a.tool == ObserveHttpSurface && a.target !in addressed)
         || (active.Some? && a.service.Some? && a.service.value !in active.value.services) {
        return Finish(a, at, Failure(127, ExecutionFailed), false);
      }
      entered := entered + [a];
      if at.outcome.Cancelled? {
        return Trial(None, None, true);
      }
      trial := Finish(a, at, OutcomeReport(at.outcome), true);
    }

    // One turn of the runner's loop.
    method TakeTurn(services: Option<RuntimeServices>, a: Action, at: Attempt) returns (trial: Trial, granted: bool)
      requires limiter.Valid()
      modifies this`entered, limiter
      ensures limiter.Valid() && limiter.free == old(limiter.free)
      ensures Env() == old(Env()) && trial == Turn(old(Env()), services, a, at.(granted := granted))
      ensures entered == old(entered) || (entered == old(entered) + [a] && IsApproved(approvals, a))
    {
      if at.late {
        return Finish(a, at, LATE, false), at.granted;
      }
      if RunnerObjects(Env(), services, a) {
        return Finish(a, at, Denial(126, false), false), at.granted;
      }
      trial, granted := Execute(a, at);
    }

    // `SandboxRunner.run`; `met` are the attempts with the limiter's answers.
    method RunActions(services: Option<RuntimeServices>, actions: seq<Action>, attempts: seq<Attempt>)
        returns (trials: seq<Trial>, met: seq<Attempt>)
      requires limiter.Valid() && |attempts| == |actions|
      modifies this`entered, limiter
      ensures limiter.Valid() && limiter.free == old(limiter.free)
      ensures |met| == |attempts|
      ensures forall i :: 0 <= i < |met| ==> met[i] == attempts[i].(granted := met[i].granted)
      ensures Env() == old(Env()) && trials == RunSequence(old(Env()), services, actions, met)
      ensures EntriesSince(old(entered))
    {
      met := attempts;
      ghost var env := Env();
      if |actions| > MAX_ACTIONS {
        return [Finish(actions[0], attempts[0], Denial(126, false), false)], met;
      }
      trials := [];
      var i := 0;
      var running := true;
      while running && i < |actions|
        invariant 0 <= i <= |actions|
        invariant limiter.Valid() && limiter.free == old(limiter.free) && Env() == env
        invariant |met| == |attempts|
        invariant forall k :: 0 <= k < |met| ==> met[k] == attempts[k].(granted := met[k].granted)
        invariant |trials| == i && Taken(env, services, actions, met, trials)
        invariant Progress(trials, running)
        invariant EntriesSince(old(entered))
        decreases |actions| - i
      {
        var trial, granted := TakeTurn(services, actions[i], attempts[i]);
        OneMoreTaken(env, services, actions, met, trials, attempts[i].(granted := granted), trial);
        ProgressGrows(trials, trial);
        met := met[i := attempts[i].(granted := granted)];
        trials := trials + [trial];
        running := trial.result.Some? && trial.result.value.status == Completed;
        i := i + 1;
      }
      TakenIsTheSequence(env, services, actions, met, trials, running);
    }

    // `execute_sequence`: whatever happens inside, the sandbox is put back and
    // no services stay active.
    method ExecuteSequence(services: Option<RuntimeServices>, actions: seq<Action>, attempts: seq<Attempt>, opens: bool)
        returns (trials: Option<seq<Trial>>, met: seq<Attempt>)
      requires limiter.Valid() && |attempts| == |actions| && active.None?
      modifies this`entered, this`sandbox, this`active, limiter
      ensures limiter.Valid() && limiter.free == old(limiter.free)
      ensures sandbox == old(sandbox) && active.None?
      ensures |met| == |attempts| && forall i :: 0 <= i < |met| ==> met[i] == attempts[i].(granted := met[i].granted)
      ensures var known := actions == [] || actions[0].target in targets;
        var place := Placed(sandbox, lab, services, actions, known, opens);
        if place.None? then trials.None? && entered == old(entered)
        else trials == Some(RunSequence(Env().(sandbox := place.value.sandbox, active := place.value.active),
                                        place.value.runner, actions, met))
      ensures EntriesSince(old(entered))
    {
      met := attempts;
      var results;
      if lab {
        if services.None? {
          return None, met;
        }
        var original := sandbox;
        active, sandbox := services, SequenceRuntime;
        results, met := RunActions(services, actions, attempts);
        sandbox, active := original, None;
        return Some(results), met;
      }
      if HasCommand(actions) && sandbox != DockerSandbox {
        results, met := RunActions(services, actions, attempts);
        return Some(results), met;
      }
      if NeedsTargetNetwork(actions) && sandbox != DockerSandbox {
        results, met := RunActions(None, actions, attempts);
        return Some(results), met;
      }
      if services.None? || sandbox != DockerSandbox || !NeedsTargetNetwork(actions) {
        active := services;
        results, met := RunActions(services, actions, attempts);
        active := None;
        return Some(results), met;
      }
      if !services.value.hasNetwork || !(actions == [] || actions[0].target in targets) || !opens {
        return None, met;
      }
      var original := sandbox;
      sandbox, active := SequenceRuntime, services;
      results, met := RunActions(services, actions, attempts);
      sandbox, active := original, None;
      trials := Some(results);
    }
  }
}
