/**
  The records an agent run passes between its nodes: schemas/action.py,
  schemas/plan.py, schemas/execution.py, schemas/evidence.py,
  schemas/agent_loop.py and schemas/state.py.
 */
module AgentData {
  import opened Wrappers

  datatype Tool =
    | SafeNoop
    | SandboxCommand
    | ObserveHttpSurface
    | InspectDockerfileUser
    | InspectPythonPassword
    | InspectReactHtmlFlow
    | Unregistered(name: string)

  // A JSON parameter value, as far as the validators tell values apart.
  datatype Value = Text(text: string) | TextList(items: seq<string>) | OtherValue(code: int)

  // The parameter names the capabilities know, and any other name.
  datatype Name =
    | Argv
    | Cwd
    | Message
    | TestOutcome
    | ArtifactId
    | FrontendArtifactId
    | ModelArtifactId
    | SerializerArtifactId
    | ViewArtifactId
    | Field
    | Other(name: string)

  type Parameters = map<Name, Value>

  datatype Action = Action(
    id: string,
    tool: Tool,
    target: string,
    environment: string,
    iteration: int,
    parameters: Parameters,
    purpose: string,
    expectedEvidence: string,
    service: Option<string>,
    endpoint: Option<string>)

  datatype Hypothesis = Hypothesis(id: string, expectedEvidence: string)

  datatype PlannedAction = PlannedAction(index: int, action: Action)

  datatype Plan = Plan(
    target: string,
    environment: string,
    hypothesis: string,
    maxSteps: int,
    session: Option<string>,
    steps: seq<PlannedAction>)

  datatype RuntimeService = RuntimeService(ready: bool, endpoints: set<string>, sandboxAddress: bool)

  // The running target: its session, its services by id, and whether a
  // sandbox network is known.
  datatype RuntimeServices = RuntimeServices(
    session: string,
    services: map<string, RuntimeService>,
    hasNetwork: bool)

  datatype Profile = Profile(
    id: string,
    environment: string,
    services: set<string>,
    artifacts: set<string>)

  datatype Finding = Finding(id: string, ruleId: string, severity: Option<string>, service: Option<string>)

  datatype Validation = Validation(approved: bool, actionId: string)

  datatype ExecutionStatus = Completed | Failed | Denied

  datatype ErrorCode =
    | ValidationError
    | Timeout
    | BuildFailed
    | UnsupportedRuntime
    | IsolationBlocked
    | PersistenceError
    | ExecutionFailed

  // `boundary` says that the lower-cased diagnostics mention a security
  // boundary, isolation or a policy block.
  datatype Execution = Execution(
    runId: nat,
    actionId: string,
    status: ExecutionStatus,
    exitCode: int,
    timedOut: bool,
    error: Option<ErrorCode>,
    boundary: bool)

  datatype Verdict = Confirmed | Rejected | Inconclusive

  // The stored outcome of one execution; `payload` is the verdict its output
  // states under the capability's schema, absent when the output does not
  // fit that schema; `surface` says that it fits the HTTP observation schema.
  datatype Record = Record(
    runId: nat,
    actionId: string,
    status: ExecutionStatus,
    exitCode: int,
    payload: Option<Verdict>,
    surface: bool)

  datatype Reliability = High | Medium | Low | Unknown

  datatype EvidenceKind = TestResult | CommandObservation | HttpSurface(check: nat) | Capability(tool: Tool)

  datatype Evidence = Evidence(
    actionId: string,
    kind: EvidenceKind,
    reliability: Reliability,
    verdict: Option<Verdict>)

  datatype StopReason =
    | TerminalEvidence
    | PolicyBlock
    | PlanRejected
    | StepBudgetExhausted
    | WallClockBudgetExhausted
    | ExecutionTimeout
    | BuildFailure
    | RuntimeUnsupported
    | IsolationOrPolicyBlocked
    | ExecutionDidFail
    | InsufficientEvidence

  datatype ActionRecord = ActionRecord(
    step: int,
    action: Action,
    validation: Validation,
    execution: Option<Execution>)

  datatype Decision = Decision(step: int, continues: bool, stopReason: Option<StopReason>)

  datatype Status =
    | Unset
    | ContextLoaded
    | Scored
    | BudgetOk
    | Analysed
    | HypothesisReady
    | ActionProposed
    | PolicyBlocked
    | Approved
    | Executed
    | ExecutionStopped(execution: ExecutionStatus)
    | EvidenceCollected
    | Continue
    | Verdict(verdict: Verdict)

  // A missing count reads as zero and a missing list as empty; the other
  // fields the nodes look up with a default are options.
  datatype AgentState = AgentState(
    finding: Finding,
    profile: Option<Profile>,
    runtime: Option<RuntimeServices>,
    hypothesis: Option<Hypothesis>,
    plan: Option<Plan>,
    planHistory: seq<Plan>,
    planApproved: Option<bool>,
    action: Option<Action>,
    validation: Option<Validation>,
    execution: Option<Execution>,
    evidence: seq<Evidence>,
    actionHistory: seq<ActionRecord>,
    decisions: seq<Decision>,
    status: Status,
    stopReason: Option<StopReason>,
    iterationCount: int,
    maxIterations: Option<int>,
    maxSteps: Option<int>,
    startedAt: Option<real>,
    wallClockBudget: Option<real>)

  // `state.get("max_steps", state.get("max_iterations", 2))`
  function RawLimit(s: AgentState): int {
    match s.maxSteps
    case Some(n) => n
    case None => if s.maxIterations.Some? then s.maxIterations.value else 2
  }

  // `current_step_limit`: the loaded limit, the configured one, or two, and one
  // at least.
  function StepLimit(s: AgentState): (n: int)
    ensures s.maxSteps.Some? ==> n == if s.maxSteps.value < 1 then 1 else s.maxSteps.value
    ensures s.maxSteps.None? && s.maxIterations.Some? ==>
      n == if s.maxIterations.value < 1 then 1 else s.maxIterations.value
    ensures s.maxSteps.None? && s.maxIterations.None? ==> n == 2
  {
    if RawLimit(s) < 1 then 1 else RawLimit(s)
  }
}
