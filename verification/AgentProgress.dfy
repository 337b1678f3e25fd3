/**
  What an agent run does when nothing outside stops it: below its limit and in
  time it acts, a synthetic finding gets the verdict its severity asks for, and
  an inspection gets the verdict it printed.
 */
module AgentProgress {
  import opened Wrappers
  import opened AgentData
  import opened ActionIds
  import opened EvidenceGuard
  import opened Planning
  import opened Executor
  import opened PolicyGate
  import opened AgentGraph
  import opened AgentRuns
  import opened AgentVerdicts
  import Text

  // Nothing raises from super-step `from` up to, but without, `to`.
  predicate Calm(worlds: nat -> World, from: nat, to: nat) {
    forall k: nat :: from <= k < to ==> !worlds(k).fault
  }

  // ---- the context and the budget ----

  // The fields a run starts with stay; the others come from the settings and
  // the clock, and the limit is brought between one and eight.
  lemma ContextIsLoaded(c: Settings, w: World, at: Site)
    requires at.node == LoadContext && !w.fault
    ensures var s, next := at.state, Step(c, w, at);
      var t := next.state;
      && next == at.(node := ScoreFinding, state := t)
      && t == s.(profile := t.profile, maxIterations := t.maxIterations, maxSteps := t.maxSteps,
                 startedAt := t.startedAt, wallClockBudget := t.wallClockBudget, status := ContextLoaded)
      && t.profile == (if s.profile.None? then Some(c.profile) else s.profile)
      && t.maxIterations == (if s.maxIterations.None? then Some(c.maxIterations) else s.maxIterations)
      && t.startedAt == (if s.startedAt.None? then Some(w.now) else s.startedAt)
      && t.wallClockBudget == (if s.wallClockBudget.None? then Some(c.wallClockSeconds) else s.wallClockBudget)
      && t.maxSteps.Some? && 1 <= t.maxSteps.value <= 8
      && var asked := if s.maxSteps.Some? then s.maxSteps.value else t.maxIterations.value;
         (asked <= t.maxSteps.value || t.maxSteps.value == 8) && (t.maxSteps.value <= asked || t.maxSteps.value == 1)
  {
  }

  // The guard lets a run go on exactly below its limit and within its time;
  // otherwise the run is inconclusive for the budget that is used up.
  lemma BudgetDecides(c: Settings, w: World, at: Site)
    requires Ready(at) && at.node == GuardBudget && !w.fault
    ensures var s, next := at.state, Step(c, w, at);
      var stored := if s.maxSteps.Some? then s.maxSteps else s.maxIterations;
      var limit := if stored.None? then 2 else if stored.value < 1 then 1 else stored.value;
      var budget := if s.wallClockBudget.None? then 120.0 else s.wallClockBudget.value;
      var inTime := s.startedAt.None? || (0.0 < budget && w.now - s.startedAt.value < budget);
      && (next.node == Analyse <==> s.iterationCount < limit && inTime)
      && (next.node == Analyse ==> next == at.(node := Analyse, state := s.(status := BudgetOk)))
      && (next.node != Analyse ==>
            var reason := Some(if s.iterationCount < limit then WallClockBudgetExhausted else StepBudgetExhausted);
            next == at.(node := BuildReport,
                        state := s.(status := Status.Verdict(Inconclusive), stopReason := reason,
                                    decisions := s.decisions + [Decision(s.iterationCount, false, reason)])))
  {
  }

  // Below the limit and in time, the loop comes to its next proposal.
  lemma LoopComesToProposing(c: Settings, initial: AgentState, worlds: nat -> World, k: nat)
    requires Run(c, initial, worlds, k).node == GuardBudget && Calm(worlds, k, k + 3)
    requires Run(c, initial, worlds, k + 1).node == Analyse
    ensures var at := Run(c, initial, worlds, k);
      Run(c, initial, worlds, k + 3) ==
        at.(node := ProposeAction,
            state := at.state.(hypothesis := Some(worlds(k + 2).hypothesis), status := HypothesisReady))
  {
    BudgetDecides(c, worlds(k), Run(c, initial, worlds, k));
    assert !worlds(k).fault && !worlds(k + 1).fault && !worlds(k + 2).fault;
    var second := Run(c, initial, worlds, k + 1);
    assert Run(c, initial, worlds, k + 2) ==
      second.(node := FormHypothesis, state := second.state.(status := Analysed));
  }

  // The first two steps load the context and score the finding.
  lemma RunComesToTheGuard(c: Settings, initial: AgentState, worlds: nat -> World)
    requires Calm(worlds, 0, 2)
    ensures var at := Run(c, initial, worlds, 2);
      var asked := if initial.maxSteps.Some? then initial.maxSteps.value
                   else if initial.maxIterations.Some? then initial.maxIterations.value else c.maxIterations;
      && at == Start(initial).(node := GuardBudget, state := at.state)
      && at.state.iterationCount == initial.iterationCount && at.state.finding == initial.finding
      && at.state.profile == Some(if initial.profile.Some? then initial.profile.value else c.profile)
      && at.state.runtime == initial.runtime && at.state.evidence == initial.evidence
      && at.state.maxSteps == Some(if asked < 1 then 1 else if asked > 8 then 8 else asked)
      && at.state.startedAt == Some(if initial.startedAt.Some? then initial.startedAt.value else worlds(0).now)
      && at.state.wallClockBudget ==
           Some(if initial.wallClockBudget.Some? then initial.wallClockBudget.value else c.wallClockSeconds)
  {
    assert !worlds(0).fault && !worlds(1).fault;
    assert Run(c, initial, worlds, 0) == Start(initial);
    ContextIsLoaded(c, worlds(0), Start(initial));
  }

  // A run whose budget is used up at the guard reports so.
  lemma BudgetIsReported(c: Settings, initial: AgentState, worlds: nat -> World, k: nat)
    requires Run(c, initial, worlds, k).node == GuardBudget && Calm(worlds, k, k + 2)
    requires Run(c, initial, worlds, k + 1).node != Analyse
    ensures var s := Run(c, initial, worlds, k).state;
      var reason := Run(c, initial, worlds, k + 1).state.stopReason;
      && reason in {Some(StepBudgetExhausted), Some(WallClockBudgetExhausted)}
      && Run(c, initial, worlds, k + 2).node == End
      && Run(c, initial, worlds, k + 2).report ==
           Some(FinalReport(Status.Verdict(Inconclusive), AgentBudget, s.iterationCount, reason))
  {
    assert !worlds(k).fault && !worlds(k + 1).fault;
    BudgetDecides(c, worlds(k), Run(c, initial, worlds, k));
  }

  // Every run that nothing disturbs proposes an action exactly if its first
  // iteration is below the limit, which is brought between one and eight, and the
  // clock is in time; any other reports that its budget is used up.
  lemma RunProposesWithinItsBudget(c: Settings, initial: AgentState, worlds: nat -> World)
    requires Calm(worlds, 0, 5)
    ensures var asked := if initial.maxSteps.Some? then initial.maxSteps.value
                         else if initial.maxIterations.Some? then initial.maxIterations.value else c.maxIterations;
      var limit := if asked < 1 then 1 else if asked > 8 then 8 else asked;
      var budget := if initial.wallClockBudget.Some? then initial.wallClockBudget.value else c.wallClockSeconds;
      var begun := if initial.startedAt.Some? then initial.startedAt.value else worlds(0).now;
      var starts := initial.iterationCount < limit && 0.0 < budget && worlds(2).now < begun + budget;
      && (starts ==>
            var guarded := Run(c, initial, worlds, 2);
            Run(c, initial, worlds, 5) ==
              guarded.(node := ProposeAction,
                       state := guarded.state.(hypothesis := Some(worlds(4).hypothesis), status := HypothesisReady)))
      && (!starts ==>
            var reason := if initial.iterationCount < limit then WallClockBudgetExhausted else StepBudgetExhausted;
            && Run(c, initial, worlds, 4).node == End
            && Run(c, initial, worlds, 4).report ==
                 Some(FinalReport(Status.Verdict(Inconclusive), AgentBudget, initial.iterationCount, Some(reason))))
  {
    RunComesToTheGuard(c, initial, worlds);
    assert !worlds(2).fault;
    BudgetDecides(c, worlds(2), Run(c, initial, worlds, 2));
    if Run(c, initial, worlds, 3).node == Analyse {
      LoopComesToProposing(c, initial, worlds, 2);
    } else {
      BudgetIsReported(c, initial, worlds, 2);
    }
  }

  // ---- the other nodes ----

  // The run proposes the first step of its plan, as the next iteration, with the
  // scope validator's answer; it raises only if no plan can be made.
  lemma ProposalIsFirstStep(c: Settings, w: World, at: Site)
    requires Ready(at) && at.node == ProposeAction && !w.fault
    ensures var s, next := at.state, Step(c, w, at);
      var plan := PlanFor(c.mode, s, w.choice, w.candidates, w.located);
      if plan.None? then next == at.(node := Raised)
      else
        && |plan.value.steps| > 0
        && next == at.(node := ValidateAction,
                       state := s.(plan := plan, planHistory := s.planHistory + [plan.value],
                                   planApproved := Some(InScope(plan.value, s)),
                                   action := Some(plan.value.steps[0].action),
                                   iterationCount := s.iterationCount + 1, status := ActionProposed))
  {
    if PlanFor(c.mode, at.state, w.choice, w.candidates, w.located).Some? {
      PlanStartsNext(c.mode, at.state, w.choice, w.candidates, w.located);
    }
  }

  // The action goes on to the executor exactly if the scope validator and the
  // policy approve; otherwise the run is blocked, for the one that refused.
  lemma ValidationDecides(c: Settings, w: World, at: Site)
    requires Ready(at) && at.node == ValidateAction && !w.fault
    ensures var s, next := at.state, Step(c, w, at);
      var a, profile := s.action.value, s.profile.value;
      var trust := Trust(map[profile.id := profile.environment], map[profile.id := profile.artifacts]);
      if s.planApproved != Some(false) && Permitted(c.policy, trust, a) then
        next == at.(node := ExecuteAction, state := s.(validation := Some(Validation(true, a.id)), status := Approved))
      else
        var refusal := Validation(false, a.id);
        next == at.(node := BuildReport,
                    state := s.(validation := Some(refusal),
                                actionHistory := s.actionHistory + [ActionRecord(a.iteration, a, refusal, None)],
                                stopReason := Some(if s.planApproved == Some(false) then PlanRejected else PolicyBlock),
                                status := PolicyBlocked))
  {
  }

  // Where the executor of this action works.
  function Where(c: Settings, profile: Profile, approvals: Approvals, sandbox: SandboxKind): Setting {
    Setting(approvals, map[profile.id := profile.environment], if c.hasBaseUrl then {profile.id} else {},
            c.policy.environments, sandbox, None)
  }

  // The approval is recorded for this very action, the lab is opened for the first
  // command of a managed run, and the action is performed once.
  lemma ActionIsPerformed(c: Settings, w: World, at: Site)
    requires Ready(at) && at.node == ExecuteAction && !w.fault
    ensures var s, next := at.state, Step(c, w, at);
      var a, v := s.action.value, s.validation.value;
      var known := (if c.managed then at.approvals else map[])[a.id := a];
      var needsLab := c.managed && a.tool == SandboxCommand && s.runtime.Some?;
      var lab := at.lab || needsLab;
      var sandbox := if lab || (!c.managed && a.tool == SandboxCommand) then DockerSandbox else c.backend;
      if !v.approved || v.actionId != a.id || (needsLab && !at.lab && !(s.runtime.value.hasNetwork && w.labStarts))
      then next == at.(node := Raised)
      else
        next == AfterTrial(
          at.(approvals := if c.managed then known else at.approvals, lab := lab), a, w.attempt.outcome,
          Perform(Where(c, s.profile.value, known, sandbox), lab, s.runtime, a, w.attempt, w.opens, w.session))
  {
  }

  // What a trial leaves: the action performed, entered if it was, its traces, and
  // its result; a trial without one raises.
  lemma TrialIsKept(at: Site, a: Action, outcome: SandboxOutcome, trial: Option<Trial>)
    ensures var next := AfterTrial(at, a, outcome, trial);
      var t := at.(performed := at.performed + [a],
                   entered := if trial.Some? && trial.value.entered then at.entered + [a] else at.entered,
                   last := if trial.None? then None
                           else Some(Trace(outcome, trial.value.entered, trial.value.record)));
      if trial.None? || trial.value.result.None? then next == t.(node := Raised)
      else
        var e := trial.value.result.value;
        next == t.(node := CollectEvidence,
                   state := at.state.(execution := Some(e),
                                      status := if e.status == Completed then Executed else ExecutionStopped(e.status)))
  {
  }

  // What is noted of an execution: of an inspection that came to a clean end its
  // verdict, of anything else that it was run.
  lemma EvidenceIs(a: Action, e: Execution, read: Option<Record>)
    ensures var item := BuildEvidence(a, e, read);
      var own := read.Some? && read.value.runId == e.runId && read.value.actionId == a.id;
      && item.actionId == a.id
      && (a.tool == SandboxCommand ==>
            item.kind == CommandObservation && item.reliability == (if own then High else Low) && item.verdict.None?)
      && (a.tool != SandboxCommand ==>
            if a.tool in {InspectDockerfileUser, InspectPythonPassword, InspectReactHtmlFlow}
               && own && read.value.status == Completed && read.value.exitCode == 0
            then && item.kind == EvidenceKind.Capability(a.tool)
                 && (read.value.payload.Some? ==> item.reliability == High && item.verdict == read.value.payload)
                 && (read.value.payload.None? ==> item.reliability == Low && item.verdict == Some(Inconclusive))
            else && item.kind == TestResult && item.verdict.None?
                 && item.reliability == if own && read.value.status == Completed then High else Low)
  {
  }

  // Seven checks of an HTTP observation that fits its schema, else the one note.
  lemma CollectedAre(a: Action, e: Execution, read: Option<Record>)
    ensures var items := Collected(a, e, read);
      var observed := && a.tool == ObserveHttpSurface && read.Some? && read.value.surface
                      && read.value.runId == e.runId && read.value.actionId == a.id;
      && (!observed ==> items == [BuildEvidence(a, e, read)])
      && (observed ==> |items| == 7 && forall i :: 0 <= i < 7 ==> items[i] == Evidence(a.id, HttpSurface(i), High, None))
  {
    if a.tool == ObserveHttpSurface && Belongs(read, a, e) && read.value.surface {
      assert |Collected(a, e, read)| == 7;
    } else {
      assert Collected(a, e, read) == [BuildEvidence(a, e, read)];
    }
  }

  // The evidence is added, and the action is recorded unless its identifier is.
  lemma EvidenceIsCollected(c: Settings, w: World, at: Site)
    requires Ready(at) && at.node == CollectEvidence && !w.fault
    ensures var s, next := at.state, Step(c, w, at);
      var a, e := s.action.value, s.execution.value;
      var added := [ActionRecord(a.iteration, a, s.validation.value, Some(e))];
      next == at.(node := Reevaluate, read := w.read,
                  state := s.(evidence := s.evidence + Collected(a, e, w.read), status := EvidenceCollected,
                              actionHistory := s.actionHistory +
                                if forall record :: record in s.actionHistory ==> record.action.id != a.id
                                then added else []))
  {
    var s := at.state;
    if forall record :: record in s.actionHistory ==> record.action.id != s.action.value.id {
      assert forall i :: 0 <= i < |s.actionHistory| ==> s.actionHistory[i] in s.actionHistory;
    } else {
      assert s.actionHistory + [] == s.actionHistory;
    }
  }

  // The ruling is carried out: the loop goes on, or the run reports the verdict.
  lemma RulingIsCarriedOut(c: Settings, w: World, at: Site)
    requires Ready(at) && at.node == Reevaluate && !w.fault
    ensures var s, next := at.state, Step(c, w, at);
      var ruling := Rule(c.mode, s, w.answer, w.now, w.later);
      match ruling.outcome
      case GoOn =>
        next == at.(node := GuardBudget,
                    state := s.(decisions := s.decisions + [Decision(s.iterationCount, true, ruling.stopReason)],
                                stopReason := ruling.stopReason, status := Continue))
      case Final(v) =>
        next == at.(node := BuildReport,
                    state := s.(decisions := s.decisions + [Decision(s.iterationCount, false, ruling.stopReason)],
                                stopReason := ruling.stopReason, status := Status.Verdict(v)))
  {
  }

  // The basis of a report is the first that applies.
  lemma BasisIs(s: AgentState, status: Status)
    ensures var stored := if s.maxSteps.Some? then s.maxSteps else s.maxIterations;
      var stated := status.Verdict? && status.verdict != Inconclusive
                    && exists item :: item in s.evidence && item.verdict == Some(status.verdict);
      BasisOf(s, status) ==
        if s.stopReason == Some(StepBudgetExhausted) || s.stopReason == Some(WallClockBudgetExhausted) then AgentBudget
        else if status == PolicyBlocked then ValidatorPolicy
        else if stated then CapabilityEvidence
        else if status == Status.Verdict(Inconclusive)
                && (if stored.Some? then stored.value else 2) <= s.iterationCount then IterationLimit
        else WorkflowState
  {
  }

  lemma ReportedIs(status: Status)
    ensures ReportedStatus(status) ==
      if status == PolicyBlocked || status == Status.Verdict(Confirmed) || status == Status.Verdict(Rejected)
      then status else Status.Verdict(Inconclusive)
  {
    match status {
      case Verdict(v) =>
        match v {
          case Inconclusive => assert status == Status.Verdict(Inconclusive);
          case _ =>
        }
      case _ =>
    }
  }

  // A status that is none of the four terminal ones is reported as inconclusive.
  lemma ReportIs(c: Settings, w: World, at: Site)
    requires Ready(at) && at.node == BuildReport && !w.fault
    ensures var s, next := at.state, Step(c, w, at);
      var terminal := s.status == PolicyBlocked || s.status == Status.Verdict(Confirmed)
                      || s.status == Status.Verdict(Rejected);
      var status := if terminal then s.status else Status.Verdict(Inconclusive);
      next == at.(node := End, state := s.(status := status),
                  report := Some(FinalReport(status, BasisOf(s, status), s.iterationCount, s.stopReason)))
  {
    ReportedIs(at.state.status);
  }

  // ---- the synthetic findings ----

  // A stand-in is ruled and reported for the verdict its finding's severity asks
  // for, once it has succeeded in time: the other half of what makes a reported
  // verdict sound.
  lemma SyntheticVerdictIsReported(c: Settings, initial: AgentState, worlds: nat -> World, k: nat, v: Verdict)
    requires Run(c, initial, worlds, k).node == Reevaluate && Calm(worlds, k, k + 2)
    requires AskedFor(c, Run(c, initial, worlds, k).state, v)
    requires var e := Run(c, initial, worlds, k).state.execution.value; e.status == Completed && e.exitCode == 0
    requires InTime(Run(c, initial, worlds, k).state, worlds(k).now)
    ensures var at, last := Run(c, initial, worlds, k), Run(c, initial, worlds, k + 2);
      && last.node == End && last.report.Some?
      && last.report.value.status == Status.Verdict(v)
      && last.report.value.stopReason == Some(TerminalEvidence)
      && last.report.value.iterations == at.state.iterationCount
      && last.performed == at.performed && last.entered == at.entered
  {
    var at := Run(c, initial, worlds, k);
    var sites := Sites(c, initial, worlds);
    RunFollows(c, initial, worlds);
    SitesAreSound(c, initial, worlds, sites, k);
    assert sites(k) == at && !worlds(k).fault && !worlds(k + 1).fault;
    AsksMeans(at.state.action.value);
    StandInIsRuled(at.state, worlds(k).answer, worlds(k).now, worlds(k).later);
    RulingIsCarriedOut(c, worlds(k), at);
    ReportIs(c, worlds(k + 1), Run(c, initial, worlds, k + 1));
  }

  // The stand-in of the next iteration.
  function StandInFor(s: AgentState): Action
    requires s.profile.Some? && s.hypothesis.Some? && s.iterationCount >= 0
  {
    var n := s.iterationCount + 1;
    var severity := if s.finding.severity.Some? then Text.Upper(s.finding.severity.value) else "";
    var outcome := if severity == "TEST_CONFIRMED" then "confirmed"
                   else if severity == "TEST_REJECTED" then "rejected" else "inconclusive";
    Action(BuildActionId(s.finding.id, n), SafeNoop, s.profile.value.id, s.profile.value.environment, n,
           map[Message := Text("verify:" + s.finding.id + ":iteration:" + Text.Digits(n)),
               TestOutcome := Text(outcome)],
           "Controlled verification.", s.hypothesis.value.expectedEvidence, None, None)
  }

  // A stub run stands before a proposal for a finding no capability is made for,
  // with an iteration left, outside a lab, and the policy permits its stand-in.
  ghost predicate BeforeStandIn(c: Settings, at: Site) {
    && c.mode == Stub && at.node == ProposeAction && Ready(at) && !at.lab
    && CallsFor(at.state.finding, SafeNoop)
    && 0 <= at.state.iterationCount < RawLimit(at.state)
    && var profile := at.state.profile.value;
       Permitted(c.policy, Trust(map[profile.id := profile.environment], map[profile.id := profile.artifacts]),
                 StandInFor(at.state))
  }

  lemma StandInIsProposed(c: Settings, w: World, at: Site)
    requires BeforeStandIn(c, at) && !w.fault
    ensures var s, next := at.state, Step(c, w, at);
      && next.node == ValidateAction && next.state.action == Some(StandInFor(s))
      && next.state.planApproved == Some(true)
      && next == at.(node := ValidateAction,
                     state := s.(plan := next.state.plan, planHistory := next.state.planHistory,
                                 planApproved := Some(true), action := Some(StandInFor(s)),
                                 iterationCount := s.iterationCount + 1, status := ActionProposed))
  {
    ProposalIsFirstStep(c, w, at);
    DeterministicPlanIs(at.state, w.located, SafeNoop);
    DeterministicPlanInScope(at.state, w.located);
  }

  // What the sandbox and the stores do when all goes well.
  predicate GoesWell(attempt: Attempt) {
    && !attempt.late && attempt.granted && attempt.evidenceKept && attempt.auditKept
    && attempt.outcome.Ran? && attempt.outcome.exitCode == 0
  }

  // The stand-in as the executor gets it, approved and on a registered target.
  predicate StandInAtHand(c: Settings, s: AgentState) {
    && s.action.Some? && s.validation.Some? && s.profile.Some?
    && var a := s.action.value;
    && a.tool == SafeNoop && a.service.None? && a.endpoint.None?
    && s.validation.value == Validation(true, a.id)
    && a.target == s.profile.value.id && s.profile.value.environment in c.policy.environments
    && a.parameters.Keys <= {Message, TestOutcome}
    && (TestOutcome in a.parameters ==>
          a.parameters[TestOutcome] in {Text("confirmed"), Text("rejected"), Text("inconclusive")})
  }

  lemma StandInEnters(c: Settings, w: World, s: AgentState, known: Approvals)
    requires StandInAtHand(c, s) && GoesWell(w.attempt) && IsApproved(known, s.action.value)
    ensures var t := Perform(Where(c, s.profile.value, known, c.backend), false, s.runtime, s.action.value, w.attempt,
                             w.opens, w.session);
      && t.Some? && t.value.entered && t.value.result.Some?
      && t.value.result.value.status == Completed && t.value.result.value.exitCode == 0
  {
    var a := s.action.value;
    var env := Where(c, s.profile.value, known, c.backend);
    ActionIsPlaced(env, false, s.runtime, a, w.attempt, w.opens, w.session);
    var placed := env.(sandbox := c.backend, active := s.runtime);
    assert Enters(placed, s.runtime, a, w.attempt);
    TurnEntersExactly(placed, s.runtime, a, w.attempt);
    EntryTells(placed, s.runtime, a, w.attempt);
  }

  // An approved stand-in enters the sandbox of the run and comes back completed.
  lemma StandInIsPerformed(c: Settings, w: World, at: Site)
    requires Ready(at) && at.node == ExecuteAction && !w.fault && !at.lab && GoesWell(w.attempt)
    requires StandInAtHand(c, at.state)
    ensures var a, next := at.state.action.value, Step(c, w, at);
      && next.node == CollectEvidence && next.state.execution.Some?
      && next.state == at.state.(execution := next.state.execution, status := Executed)
      && next.state.execution.value.status == Completed && next.state.execution.value.exitCode == 0
      && next.performed == at.performed + [a] && next.entered == at.entered + [a]
  {
    var a := at.state.action.value;
    StandInEnters(c, w, at.state, (if c.managed then at.approvals else map[])[a.id := a]);
    ActionIsPerformed(c, w, at);
  }

  lemma EnvironmentIsAllowed(c: Settings, at: Site)
    requires BeforeStandIn(c, at)
    ensures at.state.profile.value.environment in c.policy.environments
  {
    var profile := at.state.profile.value;
    assert Passes(c.policy, Trust(map[profile.id := profile.environment], map[profile.id := profile.artifacts]),
                  StandInFor(at.state), EnvironmentAllowed);
  }

  // The stand-in is proposed and approved.
  lemma StandInIsApproved(c: Settings, initial: AgentState, worlds: nat -> World, k: nat)
    requires BeforeStandIn(c, Run(c, initial, worlds, k)) && Calm(worlds, k, k + 2)
    ensures var at, next := Run(c, initial, worlds, k), Run(c, initial, worlds, k + 2);
      && next.node == ExecuteAction && !next.lab && StandInAtHand(c, next.state)
      && next.state.action == Some(StandInFor(at.state)) && SameCase(at.state, next.state)
      && next.state.iterationCount == at.state.iterationCount + 1
      && next.performed == at.performed && next.entered == at.entered
  {
    var at := Run(c, initial, worlds, k);
    assert !worlds(k).fault && !worlds(k + 1).fault;
    StandInIsProposed(c, worlds(k), at);
    ValidationDecides(c, worlds(k + 1), Run(c, initial, worlds, k + 1));
    EnvironmentIsAllowed(c, at);
  }

  // The finding and the clock's budget are the same.
  predicate SameCase(s: AgentState, t: AgentState) {
    t.finding == s.finding && t.startedAt == s.startedAt && t.wallClockBudget == s.wallClockBudget
  }

  // The approved stand-in is run once in the sandbox and its evidence collected.
  lemma StandInIsCollected(c: Settings, initial: AgentState, worlds: nat -> World, k: nat)
    requires Run(c, initial, worlds, k).node == ExecuteAction && !Run(c, initial, worlds, k).lab
    requires StandInAtHand(c, Run(c, initial, worlds, k).state)
    requires Calm(worlds, k, k + 2) && GoesWell(worlds(k).attempt)
    ensures var at, next := Run(c, initial, worlds, k), Run(c, initial, worlds, k + 2);
      && next.node == Reevaluate && next.state.action == at.state.action && SameCase(at.state, next.state)
      && next.state.iterationCount == at.state.iterationCount
      && next.state.execution.value.status == Completed && next.state.execution.value.exitCode == 0
      && next.performed == at.performed + [at.state.action.value]
      && next.entered == at.entered + [at.state.action.value]
  {
    assert !worlds(k).fault && !worlds(k + 1).fault;
    StandInIsPerformed(c, worlds(k), Run(c, initial, worlds, k));
    EvidenceIsCollected(c, worlds(k + 1), Run(c, initial, worlds, k + 1));
  }

  // From its proposal to its judgement.
  lemma StandInIsJudged(c: Settings, initial: AgentState, worlds: nat -> World, k: nat, at: Site, next: Site)
    requires at == Run(c, initial, worlds, k) && next == Run(c, initial, worlds, k + 4)
    requires BeforeStandIn(c, at) && Calm(worlds, k, k + 4) && GoesWell(worlds(k + 2).attempt)
    ensures JudgedStandIn(at, next)
  {
    var approved := Run(c, initial, worlds, k + 2);
    StandInIsApproved(c, initial, worlds, k);
    StandInIsCollected(c, initial, worlds, k + 2);
    assert next == Run(c, initial, worlds, k + 2 + 2);
  }

  // The stand-in of this proposal has been run once and completed.
  predicate JudgedStandIn(at: Site, next: Site) {
    && Ready(at) && at.node == ProposeAction && at.state.iterationCount >= 0
    && next.node == Reevaluate && Ready(next) && next.state.action.value.tool == SafeNoop
    && SameCase(at.state, next.state) && next.state.iterationCount == at.state.iterationCount + 1
    && next.state.execution.value.status == Completed && next.state.execution.value.exitCode == 0
    && next.performed == at.performed + [StandInFor(at.state)]
    && next.entered == at.entered + [StandInFor(at.state)]
  }

  // From its judgement to its report.
  lemma JudgedIsReported(c: Settings, initial: AgentState, worlds: nat -> World, k: nat, at: Site, next: Site, v: Verdict)
    requires next == Run(c, initial, worlds, k) && JudgedStandIn(at, next)
    requires c.mode == Stub && v in {Confirmed, Rejected} && Severe(at.state.finding, v)
    requires Calm(worlds, k, k + 2) && InTime(at.state, worlds(k).now)
    ensures var last := Run(c, initial, worlds, k + 2);
      && last.node == End && last.report.Some?
      && last.report.value.status == Status.Verdict(v)
      && last.report.value.stopReason == Some(TerminalEvidence)
      && last.report.value.iterations == at.state.iterationCount + 1
      && last.performed == at.performed + [StandInFor(at.state)]
      && last.entered == at.entered + [StandInFor(at.state)]
  {
    SyntheticVerdictIsReported(c, initial, worlds, k, v);
  }

  // From its proposal to its report: the stand-in of a synthetic finding is run
  // once, in the run's sandbox, and the verdict asked for is reported.
  lemma StandInIsReported(c: Settings, initial: AgentState, worlds: nat -> World, k: nat, at: Site, v: Verdict)
    requires at == Run(c, initial, worlds, k)
    requires BeforeStandIn(c, at) && v in {Confirmed, Rejected} && Severe(at.state.finding, v)
    requires Calm(worlds, k, k + 6) && GoesWell(worlds(k + 2).attempt) && InTime(at.state, worlds(k + 4).now)
    ensures var last := Run(c, initial, worlds, k + 6);
      && last.node == End && last.report.Some?
      && last.report.value.status == Status.Verdict(v)
      && last.report.value.stopReason == Some(TerminalEvidence)
      && last.report.value.iterations == at.state.iterationCount + 1
      && last.performed == at.performed + [StandInFor(at.state)]
      && last.entered == at.entered + [StandInFor(at.state)]
  {
    var next := Run(c, initial, worlds, k + 4);
    StandInIsJudged(c, initial, worlds, k, at, next);
    JudgedIsReported(c, initial, worlds, k + 4, at, next, v);
    assert k + 4 + 2 == k + 6;
  }

  predicate Severe(finding: Finding, v: Verdict) {
    && finding.severity.Some?
    && Text.Upper(finding.severity.value) == if v == Confirmed then "TEST_CONFIRMED" else "TEST_REJECTED"
  }

  // The first stand-in of a run: on the run's own target, under the hypothesis
  // formed for it, and the policy permits it.
  ghost predicate FirstStandIn(c: Settings, initial: AgentState, hypothesis: Hypothesis, a: Action) {
    var profile := if initial.profile.Some? then initial.profile.value else c.profile;
    && c.mode == Stub && CallsFor(initial.finding, SafeNoop) && initial.iterationCount >= 0
    && a == StandInFor(initial.(profile := Some(profile), hypothesis := Some(hypothesis)))
    && Permitted(c.policy, Trust(map[profile.id := profile.environment], map[profile.id := profile.artifacts]), a)
  }

  // The run's first iteration is below its limit, and its clock in time at both.
  predicate InBudget(c: Settings, initial: AgentState, start: real, first: real, second: real) {
    var asked := if initial.maxSteps.Some? then initial.maxSteps.value
                 else if initial.maxIterations.Some? then initial.maxIterations.value else c.maxIterations;
    var budget := if initial.wallClockBudget.Some? then initial.wallClockBudget.value else c.wallClockSeconds;
    var begun := if initial.startedAt.Some? then initial.startedAt.value else start;
    && initial.iterationCount < (if asked < 1 then 1 else if asked > 8 then 8 else asked)
    && 0.0 < budget && first < begun + budget && second < begun + budget
  }

  lemma StandsBefore(c: Settings, initial: AgentState, hypothesis: Hypothesis, a: Action, at: Site)
    requires FirstStandIn(c, initial, hypothesis, a) && at.node == ProposeAction && !at.lab
    requires at.state.profile == Some(if initial.profile.Some? then initial.profile.value else c.profile)
    requires at.state.hypothesis == Some(hypothesis) && at.state.finding == initial.finding
    requires at.state.iterationCount == initial.iterationCount < RawLimit(at.state)
    ensures BeforeStandIn(c, at) && StandInFor(at.state) == a
  {
    assert StandInFor(at.state) == a;
  }

  lemma StandInComesFirst(c: Settings, initial: AgentState, worlds: nat -> World, a: Action, later: real)
    requires Calm(worlds, 0, 5) && FirstStandIn(c, initial, worlds(4).hypothesis, a)
    requires InBudget(c, initial, worlds(0).now, worlds(2).now, later)
    ensures var at := Run(c, initial, worlds, 5);
      && BeforeStandIn(c, at) && StandInFor(at.state) == a && at.performed == [] && at.entered == []
      && at.state.finding == initial.finding && at.state.iterationCount == initial.iterationCount
      && InTime(at.state, later)
  {
    RunComesToTheGuard(c, initial, worlds);
    RunProposesWithinItsBudget(c, initial, worlds);
    StandsBefore(c, initial, worlds(4).hypothesis, a, Run(c, initial, worlds, 5));
  }

  // A whole run over a synthetic finding: whatever the case of its severity's
  // letters, when all goes well in time, one action is performed, in the run's
  // sandbox, and after eleven steps the report is the verdict asked for.
  lemma SyntheticRunReports(c: Settings, initial: AgentState, worlds: nat -> World, a: Action, v: Verdict)
    requires Calm(worlds, 0, 11) && GoesWell(worlds(7).attempt)
    requires FirstStandIn(c, initial, worlds(4).hypothesis, a)
    requires Severe(initial.finding, v) && v in {Confirmed, Rejected}
    requires InBudget(c, initial, worlds(0).now, worlds(2).now, worlds(9).now)
    ensures var last := Run(c, initial, worlds, 11);
      && last.node == End && last.report.Some?
      && last.report.value.status == Status.Verdict(v)
      && last.report.value.stopReason == Some(TerminalEvidence)
      && last.report.value.iterations == initial.iterationCount + 1
      && last.performed == [a] && last.entered == [a]
  {
    StandInComesFirst(c, initial, worlds, a, worlds(9).now);
    StandInIsReported(c, initial, worlds, 5, Run(c, initial, worlds, 5), v);
  }

  // ---- the inspections ----

  // The action's own clean record is all the evidence there is under its name.
  lemma PayloadIsSupported(s: AgentState, a: Action, e: Execution, read: Option<Record>, v: Verdict)
    requires a.tool in {InspectDockerfileUser, InspectPythonPassword, InspectReactHtmlFlow} && v in {Confirmed, Rejected}
    requires read.Some? && read == Some(Record(e.runId, a.id, Completed, 0, Some(v), read.value.surface))
    requires forall i :: 0 <= i < |s.evidence| && s.evidence[i].actionId == a.id ==>
      s.evidence[i] in Collected(a, e, read)
    requires forall item :: item in Collected(a, e, read) ==> item in s.evidence
    ensures Supports(s.evidence, a.id, v) && Stated(s.evidence, v)
  {
    var item := BuildEvidence(a, e, read);
    EvidenceIs(a, e, read);
    CollectedAre(a, e, read);
    assert item in Collected(a, e, read) && item in s.evidence;
    forall other | other in s.evidence && Weighs(other, a.id)
      ensures other.verdict == Some(v)
    {
      var i :| 0 <= i < |s.evidence| && s.evidence[i] == other;
      assert other in Collected(a, e, read);
    }
  }

  // An inspection that came to a clean end and whose record is read back is
  // reported for the verdict it printed, whatever the clock and the model say.
  lemma InspectedVerdictIsReported(c: Settings, initial: AgentState, worlds: nat -> World, k: nat, a: Action,
                                   e: Execution, v: Verdict)
    requires Unused(initial) && Run(c, initial, worlds, k).node == Reevaluate && Calm(worlds, k, k + 2)
    requires Run(c, initial, worlds, k).state.action == Some(a) && Run(c, initial, worlds, k).state.execution == Some(e)
    requires a.tool in {InspectDockerfileUser, InspectPythonPassword, InspectReactHtmlFlow} && v in {Confirmed, Rejected}
    requires e.status == Completed && e.exitCode == 0
    requires var read := Run(c, initial, worlds, k).read;
      read.Some? && read == Some(Record(e.runId, a.id, Completed, 0, Some(v), read.value.surface))
    ensures var last := Run(c, initial, worlds, k + 2);
      && last.node == End
      && last.report == Some(FinalReport(Status.Verdict(v), CapabilityEvidence,
                                         Run(c, initial, worlds, k).state.iterationCount, Some(TerminalEvidence)))
  {
    var at := Run(c, initial, worlds, k);
    var s := at.state;
    RunFollows(c, initial, worlds);
    SitesKeepOrigin(c, initial, worlds, Sites(c, initial, worlds), k);
    assert Sites(c, initial, worlds)(k) == at && !worlds(k).fault && !worlds(k + 1).fault;
    PayloadIsSupported(s, a, e, at.read, v);
    VerdictExactlyWhenJustified(c.mode, s, worlds(k).answer, worlds(k).now, worlds(k).later, v);
    RulingIsCarriedOut(c, worlds(k), at);
    var judged := Run(c, initial, worlds, k + 1);
    ReportIs(c, worlds(k + 1), judged);
    BasisIs(judged.state, Status.Verdict(v));
  }
}
