/**
  How every run of the agent graph proceeds, whatever the language model, the
  executor and the clock do: it ends, it stays within its budget, its histories
  are complete, and it performs only what both validators approved.
 */
module AgentRuns {
  import opened Wrappers
  import opened AgentData
  import opened ActionIds
  import opened EvidenceGuard
  import opened Planning
  import opened Executor
  import opened PolicyGate
  import opened AgentGraph

  // ---- each step moves as its node says ----

  lemma ProposedIsNext(c: Settings, w: World, s: AgentState)
    requires s.profile.Some? && s.hypothesis.Some? && Proposed(c, w, s).Some?
    ensures ProposesNext(c, s, Proposed(c, w, s).value)
  {
    PlanStartsNext(c.mode, s, w.choice, w.candidates, w.located);
    if c.mode == Stub {
      DeterministicPlanInScope(s, w.located);
      ToolByRule(s.finding, ToolFor(s.finding));
    }
  }

  lemma ProposeMoves(c: Settings, w: World, at: Site)
    requires Ready(at) && at.node == ProposeAction
    ensures Moves(c, w, at, Step(c, w, at))
  {
    if Proposed(c, w, at.state).Some? {
      ProposedIsNext(c, w, at.state);
    }
  }

  lemma ValidateMoves(c: Settings, w: World, at: Site)
    requires Ready(at) && at.node == ValidateAction
    ensures Moves(c, w, at, Step(c, w, at))
  {
  }

  lemma TrialMoves(c: Settings, w: World, at: Site, approvals: Approvals, lab: bool, trial: Option<Trial>)
    requires Ready(at) && at.node == ExecuteAction
    requires at.state.validation.value == Validation(true, at.state.action.value.id)
    requires trial.Some? ==> exists known: Approvals :: Guarded(known, at.state.action.value, w.attempt, trial.value)
    ensures Moves(c, w, at, AfterTrial(at.(approvals := approvals, lab := lab), at.state.action.value,
                                       w.attempt.outcome, trial))
  {
  }

  lemma ExecuteMoves(c: Settings, w: World, at: Site)
    requires Ready(at) && at.node == ExecuteAction
    ensures Moves(c, w, at, Step(c, w, at))
  {
    var s := at.state;
    var a := s.action.value;
    var approvals := RecordApproval(if c.managed then at.approvals else map[], a, s.validation.value);
    if approvals.Some? {
      var lab := at.lab || OpensLab(c, s);
      var sandbox := if lab || (!c.managed && a.tool == SandboxCommand) then DockerSandbox else c.backend;
      var env := EnvOf(c, s.profile.value, approvals.value, sandbox);
      var trial := Perform(env, lab, s.runtime, a, w.attempt, w.opens, w.session);
      if trial.Some? {
        PerformIsGuarded(env, lab, s.runtime, a, w.attempt, w.opens, w.session);
      }
      TrialMoves(c, w, at, if c.managed then approvals.value else at.approvals, lab, trial);
    }
  }

  lemma ReevaluateMoves(c: Settings, w: World, at: Site)
    requires Ready(at) && at.node == Reevaluate
    ensures Moves(c, w, at, Step(c, w, at))
  {
    var s := at.state;
    if StepLimitReached(s) {
      LimitEndsTheLoop(c.mode, s, w.answer, w.now, w.later);
    }
    VerdictExactlyWhenJustified(c.mode, s, w.answer, w.now, w.later, Confirmed);
    VerdictExactlyWhenJustified(c.mode, s, w.answer, w.now, w.later, Rejected);
  }

  lemma OtherwiseMoves(c: Settings, w: World, at: Site)
    requires Ready(at) && at.node !in {ProposeAction, ValidateAction, ExecuteAction, Reevaluate}
    ensures Moves(c, w, at, Step(c, w, at))
  {
  }

  lemma StepMoves(c: Settings, w: World, at: Site)
    requires Ready(at)
    ensures Moves(c, w, at, Step(c, w, at))
  {
    match at.node {
      case ProposeAction => ProposeMoves(c, w, at);
      case ValidateAction => ValidateMoves(c, w, at);
      case ExecuteAction => ExecuteMoves(c, w, at);
      case Reevaluate => ReevaluateMoves(c, w, at);
      case _ => OtherwiseMoves(c, w, at);
    }
  }

  lemma MoveIsReady(c: Settings, w: World, at: Site, next: Site)
    requires Ready(at) && Moves(c, w, at, next)
    ensures Ready(next)
  {
  }

  // The run after n super-steps; the world of the k-th is worlds(k).
  function Run(c: Settings, initial: AgentState, worlds: nat -> World, n: nat): (at: Site)
    ensures Ready(at)
  {
    if n == 0 then Start(initial)
    else
      var before := Run(c, initial, worlds, n - 1);
      StepMoves(c, worlds(n - 1), before);
      MoveIsReady(c, worlds(n - 1), before, Step(c, worlds(n - 1), before));
      Step(c, worlds(n - 1), before)
  }

  // A run as the sequence of its sites.
  ghost predicate Follows(c: Settings, initial: AgentState, worlds: nat -> World, sites: nat -> Site) {
    && sites(0) == Start(initial)
    && forall k: nat :: Ready(sites(k)) && Moves(c, worlds(k), sites(k), sites(k + 1))
  }

  function Sites(c: Settings, initial: AgentState, worlds: nat -> World): nat -> Site {
    (n: nat) => Run(c, initial, worlds, n)
  }

  lemma RunFollows(c: Settings, initial: AgentState, worlds: nat -> World)
    ensures Follows(c, initial, worlds, Sites(c, initial, worlds))
  {
    forall k: nat
      ensures Moves(c, worlds(k), Run(c, initial, worlds, k), Run(c, initial, worlds, k + 1))
    {
      StepMoves(c, worlds(k), Run(c, initial, worlds, k));
    }
  }

  // ---- the budget ----

  predicate Deciding(node: Node) {
    node == Analyse || node == FormHypothesis || node == ProposeAction
  }

  // The nodes between taking an iteration's number and judging its outcome.
  predicate Acting(node: Node) {
    node == ValidateAction || node == ExecuteAction || node == CollectEvidence || node == Reevaluate
  }

  // Once the context is loaded the limit lies between one and eight, and the
  // count stays below it until an action takes its number.
  predicate Bounded(at: Site) {
    var s := at.state;
    || at.node == LoadContext || at.node == Raised
    || (&& s.maxSteps.Some? && 1 <= s.maxSteps.value <= 8
        && (Deciding(at.node) ==> s.iterationCount < s.maxSteps.value)
        && (Acting(at.node) ==> 1 <= s.iterationCount <= s.maxSteps.value))
  }

  // How many super-steps a site can still take.
  function Fuel(at: Site): int {
    var count := at.state.iterationCount;
    var left := StepLimit(at.state) - count;
    match at.node
    case LoadContext => 67
    case ScoreFinding => 66
    case GuardBudget => if left <= 0 then 2 else if count < 0 then 4 else 8 * left + 1
    case Analyse => if count < 0 then 3 else 8 * left
    case FormHypothesis => if count < 0 then 2 else 8 * left - 1
    case ProposeAction => if count < 0 then 1 else 8 * left - 2
    case ValidateAction => 8 * left + 5
    case ExecuteAction => 8 * left + 4
    case CollectEvidence => 8 * left + 3
    case Reevaluate => 8 * left + 2
    case BuildReport => 1
    case End | Raised => 0
  }

  lemma MoveKeepsBounds(c: Settings, w: World, at: Site, next: Site)
    requires Ready(at) && Bounded(at) && Moves(c, w, at, next)
    ensures Bounded(next)
  {
  }

  // Every super-step costs fuel.
  lemma MoveCosts(c: Settings, w: World, at: Site, next: Site)
    requires Ready(at) && Bounded(at) && Moves(c, w, at, next) && Bounded(next) && !Ended(at)
    ensures Fuel(next) < Fuel(at)
  {
  }

  lemma FuelIsBounded(at: Site)
    requires Bounded(at)
    ensures 0 <= Fuel(at) <= 67
    ensures Fuel(at) == 0 <==> Ended(at)
  {
  }

  lemma {:induction false} SitesAreBounded(c: Settings, initial: AgentState, worlds: nat -> World,
                                           sites: nat -> Site, n: nat)
    requires Follows(c, initial, worlds, sites)
    ensures Bounded(sites(n)) && Fuel(sites(n)) <= if n < 67 then 67 - n else 0
  {
    if n > 0 {
      SitesAreBounded(c, initial, worlds, sites, n - 1);
      var at, next := sites(n - 1), sites(n);
      assert Moves(c, worlds(n - 1), at, next);
      MoveKeepsBounds(c, worlds(n - 1), at, next);
      FuelIsBounded(at);
      FuelIsBounded(next);
      if !Ended(at) {
        MoveCosts(c, worlds(n - 1), at, next);
      }
    }
  }

  // From every initial state, for every language model, executor and clock,
  // the graph ends after at most 67 super-steps, well below LangGraph's limit.
  lemma GraphTerminates(c: Settings, initial: AgentState, worlds: nat -> World, n: nat)
    ensures Ended(Run(c, initial, worlds, 67))
    ensures n >= 67 ==> Run(c, initial, worlds, n) == Run(c, initial, worlds, 67)
    decreases n
  {
    RunFollows(c, initial, worlds);
    SitesAreBounded(c, initial, worlds, Sites(c, initial, worlds), 67);
    FuelIsBounded(Run(c, initial, worlds, 67));
    if n > 67 {
      GraphTerminates(c, initial, worlds, n - 1);
    }
  }

  lemma StubProposalsAreApproved(c: Settings, w: World, at: Site, next: Site)
    requires c.mode == Stub && Ready(at) && Moves(c, w, at, next) && Bounded(at)
    requires next.node == ValidateAction
    ensures next.state.planApproved == Some(true)
  {
  }

  // Without a language model the scope validator never refuses a plan: each
  // plan is built after the budget guard passed.
  lemma StubPlansAreApproved(c: Settings, initial: AgentState, worlds: nat -> World, n: nat)
    requires c.mode == Stub && Run(c, initial, worlds, n + 1).node == ValidateAction
    ensures Run(c, initial, worlds, n + 1).state.planApproved == Some(true)
  {
    RunFollows(c, initial, worlds);
    var sites := Sites(c, initial, worlds);
    SitesAreBounded(c, initial, worlds, sites, n);
    StubProposalsAreApproved(c, worlds(n), sites(n), sites(n + 1));
  }

  lemma DeterministicProposalIsApproved(c: Settings, w: World, at: Site)
    requires Ready(at) && at.node == ProposeAction && Bounded(at) && Step(c, w, at).node == ValidateAction
    requires Step(c, w, at).state.plan == DeterministicPlan(at.state, w.located)
    ensures Step(c, w, at).state.planApproved == Some(true)
  {
    DeterministicPlanInScope(at.state, w.located);
  }

  // In either mode, and so also as the fallback of a language model, the
  // deterministic plan is never refused.
  lemma DeterministicPlansAreApproved(c: Settings, initial: AgentState, worlds: nat -> World, n: nat)
    requires Run(c, initial, worlds, n).node == ProposeAction && Run(c, initial, worlds, n + 1).node == ValidateAction
    requires Run(c, initial, worlds, n + 1).state.plan
          == DeterministicPlan(Run(c, initial, worlds, n).state, worlds(n).located)
    ensures Run(c, initial, worlds, n + 1).state.planApproved == Some(true)
  {
    RunFollows(c, initial, worlds);
    var sites := Sites(c, initial, worlds);
    SitesAreBounded(c, initial, worlds, sites, n);
    DeterministicProposalIsApproved(c, worlds(n), sites(n));
  }

  // ---- the histories ----

  // The iterations that have taken a number, and those already recorded.
  function Iterations(initial: AgentState, at: Site): int {
    at.state.iterationCount - initial.iterationCount
  }

  function Recorded(initial: AgentState, at: Site): int {
    Iterations(initial, at) -
    if at.node == ValidateAction || at.node == ExecuteAction || at.node == CollectEvidence then 1 else 0
  }

  // Record k of the run is the action of iteration k + 1 after the first count.
  predicate RecordOf(initial: AgentState, record: ActionRecord, k: nat) {
    var iteration := initial.iterationCount + k + 1;
    && iteration >= 1
    && record.step == iteration
    && record.action.id == BuildActionId(initial.finding.id, iteration)
  }

  // None of the run's own identifiers occurs in what the run starts with.
  ghost predicate Unused(initial: AgentState) {
    && (forall i, n: nat :: 0 <= i < |initial.actionHistory| ==>
          initial.actionHistory[i].action.id != BuildActionId(initial.finding.id, n))
    && (forall i, n: nat :: 0 <= i < |initial.evidence| ==>
          initial.evidence[i].actionId != BuildActionId(initial.finding.id, n))
  }

  predicate ActionsRecorded(initial: AgentState, at: Site) {
    var before := |initial.actionHistory|;
    && 0 <= Recorded(initial, at) == |at.state.actionHistory| - before
    && at.state.actionHistory[..before] == initial.actionHistory
    && forall i :: before <= i < |at.state.actionHistory| ==>
         RecordOf(initial, at.state.actionHistory[i], i - before)
  }

  // The proposal at hand, between its plan and its verdict.
  predicate AtHand(initial: AgentState, at: Site) {
    Acting(at.node) && at.state.action.Some? ==>
      && at.state.iterationCount >= 1
      && at.state.action.value.iteration == at.state.iterationCount
      && at.state.action.value.id == BuildActionId(initial.finding.id, at.state.iterationCount)
  }

  predicate Course(initial: AgentState, at: Site) {
    at.node != Raised ==>
      && at.state.finding == initial.finding
      && Iterations(initial, at) >= 0
      && (Iterations(initial, at) > 0 ==> initial.iterationCount >= 0)
      && (Acting(at.node) ==> Iterations(initial, at) > 0)
      && |at.state.planHistory| == |initial.planHistory| + Iterations(initial, at)
      && ActionsRecorded(initial, at)
      && AtHand(initial, at)
  }

  lemma CourseStarts(initial: AgentState)
    ensures Course(initial, Start(initial))
  {
  }

  // The identifier at hand is new to the history.
  lemma AtHandIsNew(initial: AgentState, at: Site)
    requires Unused(initial) && Course(initial, at) && Ready(at) && at.node == CollectEvidence
    ensures forall i :: 0 <= i < |at.state.actionHistory| ==>
      at.state.actionHistory[i].action.id != at.state.action.value.id
  {
    var before := |initial.actionHistory|;
    forall i | 0 <= i < |at.state.actionHistory|
      ensures at.state.actionHistory[i].action.id != at.state.action.value.id
    {
      if i < before {
        assert at.state.actionHistory[i] == initial.actionHistory[i];
      } else {
        assert RecordOf(initial, at.state.actionHistory[i], i - before);
        BuiltIdsAreDistinct(initial.finding.id, initial.iterationCount + (i - before) + 1, at.state.iterationCount);
      }
    }
  }

  lemma NewActionIsRecorded(w: World, s: AgentState)
    requires s.action.Some? && s.execution.Some? && s.validation.Some?
    requires forall i :: 0 <= i < |s.actionHistory| ==> s.actionHistory[i].action.id != s.action.value.id
    ensures var t := WithEvidence(w, s);
      && t.actionHistory == s.actionHistory +
           [ActionRecord(s.action.value.iteration, s.action.value, s.validation.value, s.execution)]
      && t.finding == s.finding && t.iterationCount == s.iterationCount && t.planHistory == s.planHistory
      && t.action == s.action
  {
  }

  // Adding the record of the action at hand completes its iteration.
  lemma RecordingKeepsCourse(initial: AgentState, at: Site, next: Site, record: ActionRecord)
    requires Course(initial, at) && at.state.action.Some?
    requires (at.node == CollectEvidence && next.node == Reevaluate)
             || (at.node == ValidateAction && next.node == BuildReport)
    requires record.action == at.state.action.value && record.step == at.state.action.value.iteration
    requires next.state.actionHistory == at.state.actionHistory + [record]
    requires next.state.finding == at.state.finding && next.state.iterationCount == at.state.iterationCount
    requires next.state.planHistory == at.state.planHistory && next.state.action == at.state.action
    ensures Course(initial, next)
  {
    var before := |initial.actionHistory|;
    assert RecordOf(initial, record, |at.state.actionHistory| - before);
    assert next.state.actionHistory[..before] == at.state.actionHistory[..before];
    assert ActionsRecorded(initial, next);
  }

  lemma CollectKeepsCourse(c: Settings, w: World, initial: AgentState, at: Site, next: Site)
    requires Unused(initial) && Ready(at) && Moves(c, w, at, next) && Course(initial, at)
    requires at.node == CollectEvidence
    ensures Course(initial, next)
  {
    if next.node != Raised {
      var s := at.state;
      AtHandIsNew(initial, at);
      NewActionIsRecorded(w, s);
      RecordingKeepsCourse(initial, at, next,
                           ActionRecord(s.action.value.iteration, s.action.value, s.validation.value, s.execution));
    }
  }

  lemma ValidationKeepsCourse(c: Settings, w: World, initial: AgentState, at: Site, next: Site)
    requires Ready(at) && Moves(c, w, at, next) && Course(initial, at) && at.node == ValidateAction
    ensures Course(initial, next)
  {
    if next.node == BuildReport {
      var s := at.state;
      RecordingKeepsCourse(initial, at, next,
                           ActionRecord(s.action.value.iteration, s.action.value, next.state.validation.value, None));
    }
  }

  lemma OtherwiseKeepsCourse(c: Settings, w: World, initial: AgentState, at: Site, next: Site)
    requires Ready(at) && Moves(c, w, at, next) && Course(initial, at)
    requires at.node != CollectEvidence && at.node != ValidateAction
    ensures Course(initial, next)
  {
  }

  lemma MoveKeepsCourse(c: Settings, w: World, initial: AgentState, at: Site, next: Site)
    requires Unused(initial) && Ready(at) && Moves(c, w, at, next) && Course(initial, at)
    ensures Course(initial, next)
  {
    if at.node == CollectEvidence {
      CollectKeepsCourse(c, w, initial, at, next);
    } else if at.node == ValidateAction {
      ValidationKeepsCourse(c, w, initial, at, next);
    } else {
      OtherwiseKeepsCourse(c, w, initial, at, next);
    }
  }

  lemma {:induction false} SitesKeepCourse(c: Settings, initial: AgentState, worlds: nat -> World,
                                           sites: nat -> Site, n: nat)
    requires Follows(c, initial, worlds, sites) && Unused(initial)
    ensures Course(initial, sites(n))
  {
    if n == 0 {
      CourseStarts(initial);
    } else {
      SitesKeepCourse(c, initial, worlds, sites, n - 1);
      assert Moves(c, worlds(n - 1), sites(n - 1), sites(n));
      MoveKeepsCourse(c, worlds(n - 1), initial, sites(n - 1), sites(n));
    }
  }

  // When a run reports, its histories are complete: one plan per iteration,
  // and one action record per iteration, numbered without a gap.
  lemma HistoriesAreComplete(c: Settings, initial: AgentState, worlds: nat -> World, n: nat)
    requires Unused(initial) && initial.planHistory == [] && initial.actionHistory == []
    requires initial.iterationCount == 0 && Run(c, initial, worlds, n).node == End
    ensures var s := Run(c, initial, worlds, n).state;
      && s.iterationCount == |s.planHistory| == |s.actionHistory|
      && forall i :: 0 <= i < |s.actionHistory| ==> s.actionHistory[i].step == i + 1
  {
    RunFollows(c, initial, worlds);
    SitesKeepCourse(c, initial, worlds, Sites(c, initial, worlds), n);
    var at := Run(c, initial, worlds, n);
    assert at == Sites(c, initial, worlds)(n);
    forall i | 0 <= i < |at.state.actionHistory|
      ensures at.state.actionHistory[i].step == i + 1
    {
      assert RecordOf(initial, at.state.actionHistory[i], i);
    }
  }
}
