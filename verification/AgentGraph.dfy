/**
  The agent's state graph: the nodes of agent/nodes.py, the edges and routers of
  agent/graph.py, the evidence of evidence/interpreter.py and the report of
  reporting/builder.py. One step is one super-step of the graph.
 */
module AgentGraph {
  import opened Wrappers
  import opened AgentData
  import opened EvidenceGuard
  import opened Planning
  import opened Executor
  import opened PolicyGate

  datatype Node =
    | LoadContext
    | ScoreFinding
    | GuardBudget
    | Analyse
    | FormHypothesis
    | ProposeAction
    | ValidateAction
    | ExecuteAction
    | CollectEvidence
    | Reevaluate
    | BuildReport
    | End
    | Raised

  // `managed` says that the run has an executor of its own for all its actions.
  datatype Settings = Settings(
    mode: Mode,
    maxIterations: int,
    wallClockSeconds: real,
    profile: Profile,
    policy: Policy,
    hasBaseUrl: bool,
    backend: SandboxKind,
    managed: bool)

  // What one super-step meets outside the graph. `fault` stands for
  // cancellation and for any exception a node's surroundings raise; the rest
  // are the clock, the language model's replies, the profile's artifact
  // lookups, the executor's surroundings and the evidence file read back.
  datatype World = World(
    fault: bool,
    now: real,
    later: real,
    hypothesis: Hypothesis,
    choice: Option<PlanChoice>,
    candidates: map<string, Planning.Capability>,
    located: Option<Parameters>,
    answer: Option<EvidenceGuard.Outcome>,
    labStarts: bool,
    attempt: Attempt,
    opens: bool,
    session: Result<RuntimeServices, ErrorCode>,
    read: Option<Record>)

  datatype Basis = AgentBudget | CapabilityEvidence | ValidatorPolicy | IterationLimit | WorkflowState

  datatype FinalReport = FinalReport(status: Status, basis: Basis, iterations: int, stopReason: Option<StopReason>)

  // What the sandbox did last, and what the executor stored of it.
  datatype Trace = Trace(outcome: SandboxOutcome, entered: bool, stored: Option<Record>)

  // `approvals` and `lab` belong to a managed executor. The last four fields
  // only record what happened: the proposals handed to the executor, those the
  // sandbox was entered for, the last performance, and the evidence file the
  // last action's evidence was built from.
  datatype Site = Site(
    node: Node,
    state: AgentState,
    approvals: Approvals,
    lab: bool,
    report: Option<FinalReport>,
    performed: seq<Action>,
    entered: seq<Action>,
    last: Option<Trace>,
    read: Option<Record>)

  function Start(s: AgentState): Site {
    Site(LoadContext, s, map[], false, None, [], [], None, None)
  }

  // ---- the nodes ----

  function Clamped(steps: int): int {
    if steps < 1 then 1 else if steps > 8 then 8 else steps
  }

  function Loaded(c: Settings, w: World, s: AgentState): AgentState {
    var iterations := if s.maxIterations.Some? then s.maxIterations.value else c.maxIterations;
    s.(profile := Some(if s.profile.Some? then s.profile.value else c.profile),
       maxIterations := Some(iterations),
       maxSteps := Some(Clamped(if s.maxSteps.Some? then s.maxSteps.value else iterations)),
       startedAt := Some(if s.startedAt.Some? then s.startedAt.value else w.now),
       wallClockBudget :=
         Some(if s.wallClockBudget.Some? then s.wallClockBudget.value else c.wallClockSeconds),
       status := ContextLoaded)
  }

  function BudgetGuarded(w: World, s: AgentState): AgentState {
    var reason := BudgetStopReason(s, w.now);
    if reason.None? then s.(status := BudgetOk)
    else s.(status := Status.Verdict(Inconclusive), stopReason := reason,
            decisions := s.decisions + [Decision(s.iterationCount, false, reason)])
  }

  // `propose_action`; absent when no plan can be built.
  function Proposed(c: Settings, w: World, s: AgentState): Option<AgentState>
    requires s.profile.Some? && s.hypothesis.Some?
  {
    var plan := PlanFor(c.mode, s, w.choice, w.candidates, w.located);
    if plan.None? || plan.value.steps == [] then None
    else
      var action := plan.value.steps[0].action;
      Some(s.(plan := plan, planHistory := s.planHistory + [plan.value],
              planApproved := Some(InScope(plan.value, s)), action := Some(action),
              iterationCount := action.iteration, status := ActionProposed))
  }

  function Blocked(s: AgentState, v: Validation, reason: StopReason): AgentState
    requires s.action.Some?
  {
    var record := ActionRecord(s.action.value.iteration, s.action.value, v, None);
    s.(validation := Some(v), actionHistory := s.actionHistory + [record],
       stopReason := Some(reason), status := PolicyBlocked)
  }

  function Checked(c: Settings, s: AgentState): AgentState
    requires s.profile.Some? && s.action.Some?
  {
    if s.planApproved == Some(false) then Blocked(s, Validation(false, s.action.value.id), PlanRejected)
    else
      var v := Validated(c.policy, TrustIn(s.profile.value), s.action.value);
      if v.approved then s.(validation := Some(v), status := Approved) else Blocked(s, v, PolicyBlock)
  }

  function EnvOf(c: Settings, profile: Profile, approvals: Approvals, sandbox: SandboxKind): Setting {
    Setting(approvals, map[profile.id := profile.environment], if c.hasBaseUrl then {profile.id} else {},
            c.policy.environments, sandbox, None)
  }

  // What the executor's trial, if the call returned at all, does to the site.
  function AfterTrial(at: Site, a: Action, outcome: SandboxOutcome, trial: Option<Trial>): Site {
    var next := at.(performed := at.performed + [a],
                    entered := if trial.Some? && trial.value.entered then at.entered + [a] else at.entered,
                    last := if trial.None? then None
                            else Some(Trace(outcome, trial.value.entered, trial.value.record)));
    if trial.None? || trial.value.result.None? then next.(node := Raised)
    else
      var execution := trial.value.result.value;
      next.(node := CollectEvidence,
            state := at.state.(execution := Some(execution),
                               status := if execution.status == Completed then Executed
                                         else ExecutionStopped(execution.status)))
  }

  // The managed executor opens its lab for the first raw command.
  predicate OpensLab(c: Settings, s: AgentState)
    requires s.action.Some?
  {
    c.managed && s.action.value.tool == SandboxCommand && s.runtime.Some?
  }

  // `execute_action`: a fresh executor per action, or the managed one.
  function Acted(c: Settings, w: World, at: Site): Site
    requires at.state.profile.Some? && at.state.action.Some? && at.state.validation.Some?
  {
    var s := at.state;
    var a := s.action.value;
    var approvals := RecordApproval(if c.managed then at.approvals else map[], a, s.validation.value);
    if approvals.None? then at.(node := Raised)
    else if OpensLab(c, s) && !at.lab && !(s.runtime.value.hasNetwork && w.labStarts) then at.(node := Raised)
    else
      var lab := at.lab || OpensLab(c, s);
      var sandbox := if lab || (!c.managed && a.tool == SandboxCommand) then DockerSandbox else c.backend;
      var env := EnvOf(c, s.profile.value, approvals.value, sandbox);
      AfterTrial(at.(approvals := if c.managed then approvals.value else at.approvals, lab := lab), a,
                 w.attempt.outcome, Perform(env, lab, s.runtime, a, w.attempt, w.opens, w.session))
  }

  // ---- evidence/interpreter.py and evidence/runtime.py ----

  // The record read back is that of this very execution.
  predicate Belongs(read: Option<Record>, a: Action, e: Execution) {
    read.Some? && read.value.runId == e.runId && read.value.actionId == a.id
  }

  predicate Clean(r: Record) {
    r.status == Completed && r.exitCode == 0
  }

  predicate Inspects(tool: Tool) {
    tool in {InspectDockerfileUser, InspectPythonPassword, InspectReactHtmlFlow}
  }

  // `build_evidence`
  function BuildEvidence(a: Action, e: Execution, read: Option<Record>): Evidence {
    var loaded := Belongs(read, a, e);
    if a.tool == SandboxCommand then
      Evidence(a.id, CommandObservation, if loaded then High else Low, None)
    else if Inspects(a.tool) && loaded && Clean(read.value) then
      if read.value.payload.None? then Evidence(a.id, EvidenceKind.Capability(a.tool), Low, Some(Inconclusive))
      else Evidence(a.id, EvidenceKind.Capability(a.tool), High, read.value.payload)
    else
      Evidence(a.id, TestResult, if loaded && read.value.status == Completed then High else Low, None)
  }

  // The items `collect_evidence` adds.
  function Collected(a: Action, e: Execution, read: Option<Record>): seq<Evidence> {
    if a.tool == ObserveHttpSurface && Belongs(read, a, e) && read.value.surface
    then seq(7, i requires 0 <= i < 7 => Evidence(a.id, HttpSurface(i), High, None))
    else [BuildEvidence(a, e, read)]
  }

  function WithEvidence(w: World, s: AgentState): AgentState
    requires s.action.Some? && s.execution.Some? && s.validation.Some?
  {
    var a, e := s.action.value, s.execution.value;
    var known := exists i :: 0 <= i < |s.actionHistory| && s.actionHistory[i].action.id == a.id;
    s.(evidence := s.evidence + Collected(a, e, w.read),
       actionHistory :=
         if known then s.actionHistory
         else s.actionHistory + [ActionRecord(a.iteration, a, s.validation.value, Some(e))],
       status := EvidenceCollected)
  }

  function Reevaluated(c: Settings, w: World, s: AgentState): AgentState
    requires s.action.Some? && s.execution.Some?
  {
    var ruling := Rule(c.mode, s, w.answer, w.now, w.later);
    s.(decisions := s.decisions + [Decision(s.iterationCount, ruling.outcome == GoOn, ruling.stopReason)],
       stopReason := ruling.stopReason,
       status := if ruling.outcome == GoOn then Continue else Status.Verdict(ruling.outcome.verdict))
  }

  // ---- reporting/builder.py ----

  function ReportedStatus(status: Status): Status {
    if status.Verdict? || status == PolicyBlocked then status else Status.Verdict(Inconclusive)
  }

  predicate Stated(evidence: seq<Evidence>, v: Verdict) {
    exists item :: item in evidence && item.verdict == Some(v)
  }

  function BasisOf(s: AgentState, status: Status): Basis {
    if s.stopReason in {Some(StepBudgetExhausted), Some(WallClockBudgetExhausted)} then AgentBudget
    else if status == PolicyBlocked then ValidatorPolicy
    else if status.Verdict? && status.verdict != Inconclusive && Stated(s.evidence, status.verdict)
    then CapabilityEvidence
    else if status == Status.Verdict(Inconclusive) && s.iterationCount >= RawLimit(s) then IterationLimit
    else WorkflowState
  }

  function ReportOf(s: AgentState): FinalReport {
    var status := ReportedStatus(s.status);
    FinalReport(status, BasisOf(s, status), s.iterationCount, s.stopReason)
  }

  // ---- the graph ----

  // Which fields a node finds filled in because the nodes before it ran.
  predicate Ready(at: Site) {
    var s := at.state;
    match at.node
    case LoadContext | End | Raised => true
    case ScoreFinding | GuardBudget | Analyse | FormHypothesis | BuildReport => s.profile.Some?
    case ProposeAction => s.profile.Some? && s.hypothesis.Some?
    case ValidateAction => s.profile.Some? && s.action.Some?
    case ExecuteAction => s.profile.Some? && s.action.Some? && s.validation.Some?
    case CollectEvidence | Reevaluate =>
      s.profile.Some? && s.action.Some? && s.validation.Some? && s.execution.Some?
  }

  predicate Ended(at: Site) {
    at.node == End || at.node == Raised
  }

  // One super-step: the current node's update, then the edge or router.
  function Step(c: Settings, w: World, at: Site): Site
    requires Ready(at)
  {
    var s := at.state;
    if Ended(at) then at
    else if w.fault then at.(node := Raised)
    else
      match at.node
      case LoadContext => at.(node := ScoreFinding, state := Loaded(c, w, s))
      case ScoreFinding => at.(node := GuardBudget, state := s.(status := Scored))
      case GuardBudget =>
        var next := BudgetGuarded(w, s);
        at.(node := if next.status == BudgetOk then Analyse else BuildReport, state := next)
      case Analyse => at.(node := FormHypothesis, state := s.(status := Analysed))
      case FormHypothesis =>
        at.(node := ProposeAction, state := s.(hypothesis := Some(w.hypothesis), status := HypothesisReady))
      case ProposeAction =>
        var next := Proposed(c, w, s);
        if next.None? then at.(node := Raised) else at.(node := ValidateAction, state := next.value)
      case ValidateAction =>
        var next := Checked(c, s);
        at.(node := if next.validation.value.approved then ExecuteAction else BuildReport, state := next)
      case ExecuteAction => Acted(c, w, at)
      case CollectEvidence => at.(node := Reevaluate, state := WithEvidence(w, s), read := w.read)
      case Reevaluate =>
        var next := Reevaluated(c, w, s);
        at.(node := if next.status == Continue then GuardBudget else BuildReport, state := next)
      case BuildReport =>
        at.(node := End, state := s.(status := ReportOf(s).status), report := Some(ReportOf(s)))
      case End | Raised => at
  }

  // ---- what each step changes, node by node ----

  // The parts of a site that only the execute and collect nodes touch.
  predicate SameHands(at: Site, next: Site) {
    && next.approvals == at.approvals && next.lab == at.lab && next.performed == at.performed
    && next.entered == at.entered && next.last == at.last && next.read == at.read
  }

  // What was stored as completed is what a clean run printed.
  predicate Faithful(last: Option<Trace>) {
    && last.Some?
    && (last.value.stored.Some? && last.value.stored.value.status == Completed ==>
          last.value.entered && Printed(last.value.outcome, last.value.stored.value))
  }

  // The step is a plain update: from its node to another, changing no more
  // than the fields `to` differs in.
  predicate Plainly(at: Site, next: Site, node: Node, to: AgentState) {
    SameHands(at, next) && next.report == at.report && next.node == node && next.state == to
  }

  ghost predicate Moves(c: Settings, w: World, at: Site, next: Site)
    requires Ready(at)
  {
    var s, t := at.state, next.state;
    if Ended(at) then next == at
    else if next.node == Raised then
      && next.state == s && next.report == at.report && next.read == at.read
      && (at.node == ExecuteAction || SameHands(at, next))
      && (at.node == ExecuteAction ==> Performs(at, next))
    else
      match at.node
      case LoadContext =>
        && Plainly(at, next, ScoreFinding, t)
        && t.maxSteps.Some? && 1 <= t.maxSteps.value <= 8 && t.profile.Some?
        && t == s.(profile := t.profile, maxIterations := t.maxIterations, maxSteps := t.maxSteps,
                   startedAt := t.startedAt, wallClockBudget := t.wallClockBudget, status := ContextLoaded)
      case ScoreFinding => Plainly(at, next, GuardBudget, s.(status := Scored))
      case GuardBudget =>
        && (next.node == Analyse <==> s.iterationCount < StepLimit(s) && InTime(s, w.now))
        && if next.node == Analyse then Plainly(at, next, Analyse, s.(status := BudgetOk))
           else Plainly(at, next, BuildReport, s.(status := Status.Verdict(Inconclusive), stopReason := t.stopReason,
                                                  decisions := t.decisions))
                && t.stopReason == Some(if s.iterationCount < StepLimit(s) then WallClockBudgetExhausted
                                        else StepBudgetExhausted)
                && t.decisions == s.decisions + [Decision(s.iterationCount, false, t.stopReason)]
      case Analyse => Plainly(at, next, FormHypothesis, s.(status := Analysed))
      case FormHypothesis =>
        Plainly(at, next, ProposeAction, s.(hypothesis := Some(w.hypothesis), status := HypothesisReady))
      case ProposeAction =>
        && Plainly(at, next, ValidateAction,
                   s.(plan := t.plan, planHistory := t.planHistory, planApproved := t.planApproved,
                      action := t.action, iterationCount := t.iterationCount, status := ActionProposed))
        && ProposesNext(c, s, t)
      case ValidateAction =>
        && t.validation.Some?
        && Plainly(at, next, if t.validation.value.approved then ExecuteAction else BuildReport,
                   s.(validation := t.validation, actionHistory := t.actionHistory, stopReason := t.stopReason,
                      status := t.status))
        && Vets(c, s, t)
      case ExecuteAction =>
        && next.node == CollectEvidence && next.report == at.report && next.read == at.read
        && t == s.(execution := t.execution, status := t.status) && t.execution.Some?
        && t.execution.value.actionId == s.action.value.id
        && Performs(at, next) && next.performed != at.performed && Faithful(next.last)
      case CollectEvidence =>
        && next.node == Reevaluate && next.report == at.report && next.read == w.read
        && SameHands(at, next.(read := at.read))
        && t == WithEvidence(w, s)
      case Reevaluate =>
        && Plainly(at, next, if t.status == Continue then GuardBudget else BuildReport,
                   s.(decisions := t.decisions, stopReason := t.stopReason, status := t.status))
        && Rules(c, s, t)
      case BuildReport =>
        && SameHands(at, next) && next.node == End
        && t == s.(status := ReportedStatus(s.status)) && next.report == Some(ReportOf(s))
      case End | Raised => true
  }

  // The execute node performs the vetted action once, or nothing at all.
  predicate Performs(at: Site, next: Site) {
    || (next.performed == at.performed && next.entered == at.entered)
    || (&& at.state.action.Some? && at.state.validation.Some?
        && at.state.validation.value == Validation(true, at.state.action.value.id)
        && next.performed == at.performed + [at.state.action.value]
        && next.entered in {at.entered, at.entered + [at.state.action.value]})
  }

  // The proposal is the first step of a plan for the next iteration.
  ghost predicate ProposesNext(c: Settings, s: AgentState, t: AgentState)
    requires s.profile.Some?
  {
    && s.iterationCount >= 0 && t.iterationCount == s.iterationCount + 1
    && t.plan.Some? && t.planHistory == s.planHistory + [t.plan.value]
    && t.planApproved.Some? && t.action.Some?
    && t.action.value.iteration == t.iterationCount
    && t.action.value.id == ActionIds.BuildActionId(s.finding.id, t.iterationCount)
    && (t.planApproved.value ==>
          StepInScope(s, s.profile.value, PlannedAction(1, t.action.value), t.iterationCount))
    && (c.mode == Stub ==>
          && CallsFor(s.finding, t.action.value.tool) && t.planApproved.value == (s.iterationCount < RawLimit(s))
          && (t.action.value.tool == SafeNoop ==> StubOutcome(t.action.value) == RequestedOutcome(s.finding)))
  }

  // Both validators approve, or the run is blocked and the refusal recorded.
  predicate Vets(c: Settings, s: AgentState, t: AgentState)
    requires s.profile.Some? && s.action.Some?
  {
    && t.validation.Some?
    && (t.validation.value.approved <==>
          s.planApproved != Some(false) && Permitted(c.policy, TrustIn(s.profile.value), s.action.value))
    && t.validation.value.actionId == s.action.value.id
    && if t.validation.value.approved
       then t.status == Approved && t.actionHistory == s.actionHistory && t.stopReason == s.stopReason
       else && t.status == PolicyBlocked && t.stopReason in {Some(PolicyBlock), Some(PlanRejected)}
            && t.actionHistory == s.actionHistory +
                 [ActionRecord(s.action.value.iteration, s.action.value, t.validation.value, None)]
  }

  // The loop goes on only below the limit, and a terminal verdict is justified.
  ghost predicate Rules(c: Settings, s: AgentState, t: AgentState)
    requires s.action.Some? && s.execution.Some?
  {
    && (t.status == Continue || t.status.Verdict?)
    && (t.status == Continue ==> !StepLimitReached(s))
    && forall v :: v in {Confirmed, Rejected} && t.status == Status.Verdict(v) ==>
         Justified(c.mode, s, v) && t.stopReason == Some(TerminalEvidence)
  }
}
