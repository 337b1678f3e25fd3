/**
  What the agent may conclude: which actions it performs, which verdicts it
  reports, and where the evidence behind a verdict comes from.
 */
module AgentVerdicts {
  import opened Wrappers
  import opened AgentData
  import opened ActionIds
  import opened EvidenceGuard
  import opened Planning
  import opened Executor
  import opened PolicyGate
  import opened AgentGraph
  import opened AgentRuns
  import Text

  // ---- only what both validators approved is performed ----

  // Both validators approve the action, in the scope the run works in.
  ghost predicate Vetted(c: Settings, s: AgentState, a: Action) {
    && s.profile.Some?
    && Permitted(c.policy, TrustIn(s.profile.value), a)
    && StepInScope(s, s.profile.value, PlannedAction(1, a), a.iteration)
  }

  predicate SameScope(s: AgentState, t: AgentState) {
    s.profile == t.profile && s.runtime == t.runtime
  }

  lemma VettedInScope(c: Settings, s: AgentState, t: AgentState, a: Action)
    requires SameScope(s, t) && Vetted(c, s, a)
    ensures Vetted(c, t, a)
  {
  }

  predicate InHand(node: Node) {
    node == ExecuteAction || node == CollectEvidence || node == Reevaluate
  }

  // The action at hand has passed the plan validator, then both.
  ghost predicate Approval(c: Settings, at: Site) {
    var s := at.state;
    && (at.node == ValidateAction && s.profile.Some? && s.action.Some? ==>
          && s.planApproved.Some?
          && (s.planApproved.value ==>
                StepInScope(s, s.profile.value, PlannedAction(1, s.action.value), s.action.value.iteration)))
    && (InHand(at.node) && s.action.Some? ==>
          && s.validation == Some(Validation(true, s.action.value.id))
          && Vetted(c, s, s.action.value))
  }

  lemma ProposalGetsScope(c: Settings, w: World, at: Site, next: Site)
    requires Ready(at) && Moves(c, w, at, next) && at.node == ProposeAction
    ensures Approval(c, next)
  {
  }

  lemma ValidationGetsApproval(c: Settings, w: World, at: Site, next: Site)
    requires Ready(at) && Moves(c, w, at, next) && Approval(c, at) && at.node == ValidateAction
    ensures Approval(c, next)
  {
    if next.node == ExecuteAction {
      assert Vetted(c, at.state, at.state.action.value);
      VettedInScope(c, at.state, next.state, at.state.action.value);
    }
  }

  lemma ApprovalStays(c: Settings, w: World, at: Site, next: Site)
    requires Ready(at) && Moves(c, w, at, next) && Approval(c, at) && InHand(at.node)
    ensures Approval(c, next)
  {
    if InHand(next.node) {
      VettedInScope(c, at.state, next.state, at.state.action.value);
    }
  }

  lemma ElsewhereNothingIsInHand(c: Settings, w: World, at: Site, next: Site)
    requires Ready(at) && Moves(c, w, at, next)
    ensures next.node == ValidateAction ==> at.node == ProposeAction
    ensures InHand(next.node) ==> at.node == ValidateAction || InHand(at.node)
  {
  }

  lemma MoveKeepsApproval(c: Settings, w: World, at: Site, next: Site)
    requires Ready(at) && Moves(c, w, at, next) && Approval(c, at)
    ensures Approval(c, next)
  {
    if at.node == ProposeAction {
      ProposalGetsScope(c, w, at, next);
    } else if at.node == ValidateAction {
      ValidationGetsApproval(c, w, at, next);
    } else if InHand(at.node) {
      ApprovalStays(c, w, at, next);
    } else {
      ElsewhereNothingIsInHand(c, w, at, next);
    }
  }

  ghost predicate AllVetted(c: Settings, at: Site) {
    && (at.node == LoadContext ==> at.performed == [] && at.entered == [])
    && (forall i :: 0 <= i < |at.performed| ==> Vetted(c, at.state, at.performed[i]))
    && (forall i :: 0 <= i < |at.entered| ==> at.entered[i] in at.performed)
  }

  lemma MoveKeepsScope(c: Settings, w: World, at: Site, next: Site)
    requires Ready(at) && Moves(c, w, at, next) && at.node != LoadContext
    ensures SameScope(at.state, next.state) && next.node != LoadContext
  {
  }

  lemma MovePerforms(c: Settings, w: World, at: Site, next: Site)
    requires Ready(at) && Moves(c, w, at, next)
    ensures SameHands(at, next.(read := at.read)) || (at.node == ExecuteAction && Performs(at, next))
  {
  }

  lemma MoveKeepsVetted(c: Settings, w: World, at: Site, next: Site)
    requires Ready(at) && Moves(c, w, at, next) && Approval(c, at) && AllVetted(c, at)
    ensures AllVetted(c, next)
  {
    MovePerforms(c, w, at, next);
    if at.node != LoadContext {
      MoveKeepsScope(c, w, at, next);
      forall i | 0 <= i < |next.performed|
        ensures Vetted(c, next.state, next.performed[i])
      {
        VettedInScope(c, at.state, next.state, next.performed[i]);
      }
    }
  }

  lemma {:induction false} SitesAreVetted(c: Settings, initial: AgentState, worlds: nat -> World,
                                          sites: nat -> Site, n: nat)
    requires Follows(c, initial, worlds, sites)
    ensures Approval(c, sites(n)) && AllVetted(c, sites(n))
  {
    if n > 0 {
      SitesAreVetted(c, initial, worlds, sites, n - 1);
      var w, at, next := worlds(n - 1), sites(n - 1), sites(n);
      assert Moves(c, w, at, next);
      MoveKeepsApproval(c, w, at, next);
      MoveKeepsVetted(c, w, at, next);
    }
  }

  // At every moment of every run: whatever was handed to the executor, and
  // whatever the sandbox was entered for, both validators had approved.
  lemma OnlyVettedActionsRun(c: Settings, initial: AgentState, worlds: nat -> World, n: nat)
    ensures var at := Run(c, initial, worlds, n);
      && (forall i :: 0 <= i < |at.performed| ==> Vetted(c, at.state, at.performed[i]))
      && (forall i :: 0 <= i < |at.entered| ==> at.entered[i] in at.performed)
  {
    RunFollows(c, initial, worlds);
    SitesAreVetted(c, initial, worlds, Sites(c, initial, worlds), n);
    assert Run(c, initial, worlds, n) == Sites(c, initial, worlds)(n);
  }

  // ---- how many actions ----

  predicate Closing(node: Node) {
    node == BuildReport || node == End || node == Raised
  }

  // The iteration has its number but its action is still to be performed.
  predicate Pending(node: Node) {
    node == ValidateAction || node == ExecuteAction
  }

  predicate IsNumber(initial: AgentState, a: Action, k: nat) {
    && initial.iterationCount >= 0
    && a.iteration == initial.iterationCount + k + 1
    && a.id == BuildActionId(initial.finding.id, a.iteration)
  }

  // The k-th action performed is that of the run's k-th iteration, and every
  // finished iteration performed one.
  predicate Numbered(initial: AgentState, at: Site) {
    && |at.performed| <= Iterations(initial, at)
    && (!Closing(at.node) ==> |at.performed| == Iterations(initial, at) - if Pending(at.node) then 1 else 0)
    && forall i :: 0 <= i < |at.performed| ==> IsNumber(initial, at.performed[i], i)
  }

  // The proposal at hand carries the number of its iteration.
  predicate Carries(initial: AgentState, at: Site) {
    && at.state.finding == initial.finding
    && initial.iterationCount <= at.state.iterationCount
    && (Acting(at.node) && at.state.action.Some? ==>
          && 0 <= initial.iterationCount < at.state.iterationCount == at.state.action.value.iteration
          && at.state.action.value.id == BuildActionId(initial.finding.id, at.state.iterationCount))
    && (at.state.iterationCount != initial.iterationCount ==> 0 <= initial.iterationCount)
  }

  lemma MoveCarries(c: Settings, w: World, initial: AgentState, at: Site, next: Site)
    requires Ready(at) && Moves(c, w, at, next) && Carries(initial, at)
    ensures Carries(initial, next)
  {
  }

  lemma OneMoreNumber(initial: AgentState, at: Site, next: Site, a: Action)
    requires Numbered(initial, at) && at.node == ExecuteAction && next.node in {CollectEvidence, Raised}
    requires next.performed == at.performed + [a] && next.state.iterationCount == at.state.iterationCount
    requires 0 <= initial.iterationCount && a.iteration == at.state.iterationCount
    requires a.id == BuildActionId(initial.finding.id, at.state.iterationCount)
    ensures Numbered(initial, next)
  {
    assert IsNumber(initial, a, |at.performed|);
  }

  lemma PerformingNumbers(c: Settings, w: World, initial: AgentState, at: Site, next: Site)
    requires Ready(at) && Moves(c, w, at, next) && Carries(initial, at) && Numbered(initial, at)
    requires at.node == ExecuteAction
    ensures Numbered(initial, next)
  {
    assert next.state.iterationCount == at.state.iterationCount;
    if next.performed == at.performed {
      assert next.node == Raised;
      NumbersFrame(initial, at, next);
    } else {
      OneMoreNumber(initial, at, next, at.state.action.value);
    }
  }

  lemma ProposingNumbers(c: Settings, w: World, initial: AgentState, at: Site, next: Site)
    requires Ready(at) && Moves(c, w, at, next) && Numbered(initial, at) && at.node == ProposeAction
    ensures Numbered(initial, next)
  {
    assert next.performed == at.performed;
  }

  lemma NumbersFrame(initial: AgentState, at: Site, next: Site)
    requires Numbered(initial, at)
    requires next.performed == at.performed && next.state.iterationCount == at.state.iterationCount
    requires Closing(next.node) || (!Closing(at.node) && Pending(next.node) == Pending(at.node))
    ensures Numbered(initial, next)
  {
  }

  lemma OtherwiseFramed(c: Settings, w: World, at: Site, next: Site)
    requires Ready(at) && Moves(c, w, at, next) && at.node != ExecuteAction && at.node != ProposeAction
    ensures next.performed == at.performed && next.state.iterationCount == at.state.iterationCount
    ensures Closing(next.node) || (!Closing(at.node) && Pending(next.node) == Pending(at.node))
  {
    if !Ended(at) && next.node != Raised {
      match at.node {
        case LoadContext => assert next.node == ScoreFinding;
        case ScoreFinding => assert next.node == GuardBudget;
        case GuardBudget => assert next.node == Analyse || next.node == BuildReport;
        case Analyse => assert next.node == FormHypothesis;
        case FormHypothesis => assert next.node == ProposeAction;
        case ValidateAction => assert next.node == ExecuteAction || next.node == BuildReport;
        case CollectEvidence => assert next.node == Reevaluate;
        case Reevaluate => assert next.node == GuardBudget || next.node == BuildReport;
        case BuildReport => assert next.node == End;
      }
    }
  }

  lemma MoveKeepsNumbers(c: Settings, w: World, initial: AgentState, at: Site, next: Site)
    requires Ready(at) && Moves(c, w, at, next) && Carries(initial, at) && Numbered(initial, at)
    ensures Numbered(initial, next)
  {
    if at.node == ExecuteAction {
      PerformingNumbers(c, w, initial, at, next);
    } else if at.node == ProposeAction {
      ProposingNumbers(c, w, initial, at, next);
    } else {
      OtherwiseFramed(c, w, at, next);
      NumbersFrame(initial, at, next);
    }
  }

  lemma {:induction false} SitesAreNumbered(c: Settings, initial: AgentState, worlds: nat -> World,
                                            sites: nat -> Site, n: nat)
    requires Follows(c, initial, worlds, sites)
    ensures Carries(initial, sites(n)) && Numbered(initial, sites(n))
  {
    if n > 0 {
      SitesAreNumbered(c, initial, worlds, sites, n - 1);
      var w, at, next := worlds(n - 1), sites(n - 1), sites(n);
      assert Moves(c, w, at, next);
      MoveCarries(c, w, initial, at, next);
      MoveKeepsNumbers(c, w, initial, at, next);
    }
  }

  lemma NumbersDiffer(initial: AgentState, at: Site, i: nat, j: nat)
    requires Numbered(initial, at) && i < j < |at.performed|
    ensures at.performed[i].id != at.performed[j].id
  {
    assert IsNumber(initial, at.performed[i], i) && IsNumber(initial, at.performed[j], j);
    BuiltIdsAreDistinct(initial.finding.id, initial.iterationCount + i + 1, initial.iterationCount + j + 1);
  }

  predicate Distinct(actions: seq<Action>) {
    forall i, j :: 0 <= i < j < |actions| ==> actions[i].id != actions[j].id
  }

  lemma FewAndDistinct(initial: AgentState, at: Site)
    requires Numbered(initial, at) && Fits(at)
    ensures |at.performed| <= 8 && Distinct(at.performed)
  {
    forall i, j | 0 <= i < j < |at.performed|
      ensures at.performed[i].id != at.performed[j].id
    {
      NumbersDiffer(initial, at, i, j);
    }
  }

  // At most eight actions are performed, no two under one identifier.
  lemma AtMostEightActions(c: Settings, initial: AgentState, worlds: nat -> World, n: nat)
    ensures |Run(c, initial, worlds, n).performed| <= 8
    ensures Distinct(Run(c, initial, worlds, n).performed)
  {
    RunFollows(c, initial, worlds);
    SitesAreNumbered(c, initial, worlds, Sites(c, initial, worlds), n);
    SitesFit(c, initial, worlds, Sites(c, initial, worlds), n);
    FewAndDistinct(initial, Sites(c, initial, worlds)(n));
  }

  predicate Fits(at: Site) {
    && (at.node == LoadContext ==> at.performed == [])
    && (at.performed != [] ==>
          && at.state.maxSteps.Some? && at.state.maxSteps.value <= 8
          && at.performed[|at.performed| - 1].iteration <= at.state.maxSteps.value)
  }

  lemma MoveFits(c: Settings, w: World, initial: AgentState, at: Site, next: Site)
    requires Ready(at) && Moves(c, w, at, next) && Bounded(at) && Carries(initial, at) && Fits(at)
    ensures Fits(next)
  {
    MovePerforms(c, w, at, next);
  }

  lemma {:induction false} SitesFit(c: Settings, initial: AgentState, worlds: nat -> World, sites: nat -> Site, n: nat)
    requires Follows(c, initial, worlds, sites)
    ensures Fits(sites(n))
  {
    if n > 0 {
      SitesFit(c, initial, worlds, sites, n - 1);
      var w, at, next := worlds(n - 1), sites(n - 1), sites(n);
      assert Moves(c, w, at, next);
      SitesAreBounded(c, initial, worlds, sites, n - 1);
      SitesAreNumbered(c, initial, worlds, sites, n - 1);
      MoveFits(c, w, initial, at, next);
    }
  }

  // ---- which verdicts are reported ----

  // The synthetic finding of the stub mode whose severity asks for the verdict,
  // in any case of its letters.
  predicate AskedFor(c: Settings, s: AgentState, v: Verdict) {
    && c.mode == Stub && s.action.Some? && s.action.value.tool == SafeNoop
    && s.finding.severity.Some?
    && match v
       case Confirmed => Text.Upper(s.finding.severity.value) == "TEST_CONFIRMED"
       case Rejected => Text.Upper(s.finding.severity.value) == "TEST_REJECTED"
       case Inconclusive => false
  }

  // A terminal verdict rests on the last action: approved, executed with exit
  // code zero, and either asked for in stub mode or carried by the action's
  // own reliable evidence and by none against it.
  ghost predicate Grounded(c: Settings, s: AgentState, v: Verdict) {
    && s.action.Some? && s.execution.Some? && Vetted(c, s, s.action.value)
    && s.validation == Some(Validation(true, s.action.value.id))
    && s.execution.value.actionId == s.action.value.id && Succeeded(s.execution.value)
    && s.stopReason == Some(TerminalEvidence)
    && (AskedFor(c, s, v)
        || (!(c.mode == Stub && s.action.value.tool == SafeNoop) && Supports(s.evidence, s.action.value.id, v)))
  }

  // In stub mode a stand-in action asks for what the severity says.
  predicate StandIn(c: Settings, at: Site) {
    Acting(at.node) && at.state.action.Some? && c.mode == Stub && at.state.action.value.tool == SafeNoop ==>
      StubOutcome(at.state.action.value) == RequestedOutcome(at.state.finding)
  }

  predicate ExecutedOwn(at: Site) {
    (at.node == CollectEvidence || at.node == Reevaluate) && at.state.action.Some? && at.state.execution.Some? ==>
      at.state.execution.value.actionId == at.state.action.value.id
  }

  ghost predicate Concluded(c: Settings, at: Site) {
    at.node == BuildReport || at.node == End ==>
      && (at.state.status == PolicyBlocked || at.state.status.Verdict?)
      && forall v :: v in {Confirmed, Rejected} && at.state.status == Status.Verdict(v) ==> Grounded(c, at.state, v)
  }

  ghost predicate Sound(c: Settings, at: Site) {
    StandIn(c, at) && ExecutedOwn(at) && Concluded(c, at)
  }

  lemma MoveConcludes(c: Settings, w: World, at: Site, next: Site)
    requires Ready(at) && Moves(c, w, at, next) && Approval(c, at) && Sound(c, at)
    requires at.node == Reevaluate
    ensures Concluded(c, next)
  {
    if next.node == BuildReport {
      VettedInScope(c, at.state, next.state, at.state.action.value);
    }
  }

  lemma ReportConcludes(c: Settings, w: World, at: Site, next: Site)
    requires Ready(at) && Moves(c, w, at, next) && Concluded(c, at)
    requires at.node == BuildReport
    ensures Concluded(c, next)
  {
    assert next.node == Raised || next.state == at.state;
  }

  lemma OtherwiseConcludes(c: Settings, w: World, at: Site, next: Site)
    requires Ready(at) && Moves(c, w, at, next) && Concluded(c, at)
    requires at.node != Reevaluate && at.node != BuildReport
    ensures Concluded(c, next)
  {
  }

  lemma MoveKeepsStandIn(c: Settings, w: World, at: Site, next: Site)
    requires Ready(at) && Moves(c, w, at, next) && StandIn(c, at) && ExecutedOwn(at)
    ensures StandIn(c, next) && ExecutedOwn(next)
  {
  }

  lemma MoveKeepsSound(c: Settings, w: World, at: Site, next: Site)
    requires Ready(at) && Moves(c, w, at, next) && Approval(c, at) && Sound(c, at)
    ensures Sound(c, next)
  {
    MoveKeepsStandIn(c, w, at, next);
    if at.node == Reevaluate {
      MoveConcludes(c, w, at, next);
    } else if at.node == BuildReport {
      ReportConcludes(c, w, at, next);
    } else {
      OtherwiseConcludes(c, w, at, next);
    }
  }

  lemma {:induction false} SitesAreSound(c: Settings, initial: AgentState, worlds: nat -> World,
                                         sites: nat -> Site, n: nat)
    requires Follows(c, initial, worlds, sites)
    ensures Sound(c, sites(n))
  {
    if n > 0 {
      SitesAreSound(c, initial, worlds, sites, n - 1);
      var w, at, next := worlds(n - 1), sites(n - 1), sites(n);
      assert Moves(c, w, at, next);
      SitesAreVetted(c, initial, worlds, sites, n - 1);
      MoveKeepsSound(c, w, at, next);
    }
  }

  // ---- the report ----

  predicate Filed(at: Site) {
    at.node == End ==> at.report == Some(ReportOf(at.state)) && at.report.value.status == at.state.status
  }

  lemma MoveFiles(c: Settings, w: World, at: Site, next: Site)
    requires Ready(at) && Moves(c, w, at, next) && Concluded(c, at) && Filed(at)
    ensures Filed(next)
  {
    if next.node == End && at.node == BuildReport {
      assert ReportedStatus(at.state.status) == at.state.status;
      assert next.state == at.state;
    }
  }

  lemma {:induction false} SitesAreFiled(c: Settings, initial: AgentState, worlds: nat -> World,
                                         sites: nat -> Site, n: nat)
    requires Follows(c, initial, worlds, sites)
    ensures Filed(sites(n))
  {
    if n > 0 {
      SitesAreFiled(c, initial, worlds, sites, n - 1);
      var w, at, next := worlds(n - 1), sites(n - 1), sites(n);
      assert Moves(c, w, at, next);
      SitesAreSound(c, initial, worlds, sites, n - 1);
      MoveFiles(c, w, at, next);
    }
  }

  lemma GroundedIsEvidence(c: Settings, s: AgentState, v: Verdict)
    requires v in {Confirmed, Rejected} && Grounded(c, s, v) && !AskedFor(c, s, v)
    ensures BasisOf(s, Status.Verdict(v)) == CapabilityEvidence
  {
    assert Supports(s.evidence, s.action.value.id, v);
    var item :| item in s.evidence && Weighs(item, s.action.value.id) && item.verdict == Some(v);
    assert Stated(s.evidence, v);
  }

  // A reported verdict is grounded, over every run: confirmed and rejected
  // come only from the last action, and outside the stub's synthetic findings
  // only from that action's own reliable evidence, which the report names as
  // its basis. No other status than the four terminal ones is ever reported.
  lemma VerdictsAreGrounded(c: Settings, initial: AgentState, worlds: nat -> World, n: nat, v: Verdict)
    requires Run(c, initial, worlds, n).node == End && v in {Confirmed, Rejected}
    ensures var at := Run(c, initial, worlds, n);
      && at.report == Some(ReportOf(at.state))
      && (at.report.value.status == PolicyBlocked || at.report.value.status.Verdict?)
      && (at.report.value.status == Status.Verdict(v) ==>
            && Grounded(c, at.state, v)
            && (AskedFor(c, at.state, v) || at.report.value.basis == CapabilityEvidence))
  {
    var at := Sites(c, initial, worlds)(n);
    RunFollows(c, initial, worlds);
    SitesAreSound(c, initial, worlds, Sites(c, initial, worlds), n);
    SitesAreFiled(c, initial, worlds, Sites(c, initial, worlds), n);
    if at.state.status == Status.Verdict(v) && !AskedFor(c, at.state, v) {
      GroundedIsEvidence(c, at.state, v);
    }
  }

  // ---- where the evidence comes from ----

  function Finished(at: Site): int {
    at.state.iterationCount -
    if at.node == ValidateAction || at.node == ExecuteAction || at.node == CollectEvidence then 1 else 0
  }

  // No evidence speaks for an iteration that has not collected any.
  ghost predicate Ahead(initial: AgentState, at: Site) {
    at.node != Raised ==>
      forall i, k: nat :: 0 <= i < |at.state.evidence| && k > Finished(at) ==>
        at.state.evidence[i].actionId != BuildActionId(initial.finding.id, k)
  }

  predicate Judged(at: Site) {
    || at.node == Reevaluate
    || ((at.node == BuildReport || at.node == End)
        && (at.state.status == Status.Verdict(Confirmed) || at.state.status == Status.Verdict(Rejected)))
  }

  // The evidence of the last action is what was collected from its own record.
  predicate OwnEvidence(at: Site) {
    Judged(at) && at.state.action.Some? && at.state.execution.Some? ==>
      && (forall i :: 0 <= i < |at.state.evidence| && at.state.evidence[i].actionId == at.state.action.value.id ==>
            at.state.evidence[i] in Collected(at.state.action.value, at.state.execution.value, at.read))
      && (forall item :: item in Collected(at.state.action.value, at.state.execution.value, at.read) ==>
            item in at.state.evidence)
  }

  lemma CollectedAreOwn(a: Action, e: Execution, read: Option<Record>, i: nat)
    requires i < |Collected(a, e, read)|
    ensures Collected(a, e, read)[i].actionId == a.id
  {
  }

  lemma CollectKeepsOrigin(c: Settings, w: World, initial: AgentState, at: Site, next: Site)
    requires Ready(at) && Moves(c, w, at, next) && Carries(initial, at) && Ahead(initial, at)
    requires at.node == CollectEvidence && next.node != Raised
    ensures Ahead(initial, next) && OwnEvidence(next)
  {
    var a, e := at.state.action.value, at.state.execution.value;
    var before, added := at.state.evidence, Collected(a, e, w.read);
    assert next.state.evidence == before + added;
    forall i, k: nat | 0 <= i < |next.state.evidence| && k > Finished(next)
      ensures next.state.evidence[i].actionId != BuildActionId(initial.finding.id, k)
    {
      if i >= |before| {
        CollectedAreOwn(a, e, w.read, i - |before|);
        BuiltIdsAreDistinct(initial.finding.id, k, at.state.iterationCount);
      }
    }
    assert forall i :: 0 <= i < |before| ==> before[i].actionId != a.id by {
      assert a.id == BuildActionId(initial.finding.id, at.state.iterationCount);
    }
  }

  lemma MoveKeepsAhead(c: Settings, w: World, initial: AgentState, at: Site, next: Site)
    requires Ready(at) && Moves(c, w, at, next) && Ahead(initial, at) && at.node != CollectEvidence
    ensures Ahead(initial, next)
  {
    assert next.node != Raised ==> next.state.evidence == at.state.evidence && Finished(next) >= Finished(at);
  }

  lemma MoveKeepsOwnEvidence(c: Settings, w: World, at: Site, next: Site)
    requires Ready(at) && Moves(c, w, at, next) && OwnEvidence(at) && at.node != CollectEvidence
    ensures OwnEvidence(next)
  {
    if Judged(next) {
      assert Judged(at) && next.state.action == at.state.action && next.state.execution == at.state.execution
             && next.state.evidence == at.state.evidence && next.read == at.read;
    }
  }

  lemma MoveKeepsOrigin(c: Settings, w: World, initial: AgentState, at: Site, next: Site)
    requires Ready(at) && Moves(c, w, at, next) && Carries(initial, at)
    requires Ahead(initial, at) && OwnEvidence(at)
    ensures Ahead(initial, next) && OwnEvidence(next)
  {
    if at.node != CollectEvidence {
      MoveKeepsAhead(c, w, initial, at, next);
      MoveKeepsOwnEvidence(c, w, at, next);
    } else if next.node != Raised {
      CollectKeepsOrigin(c, w, initial, at, next);
    }
  }

  lemma {:induction false} SitesKeepOrigin(c: Settings, initial: AgentState, worlds: nat -> World,
                                           sites: nat -> Site, n: nat)
    requires Follows(c, initial, worlds, sites) && Unused(initial)
    ensures Ahead(initial, sites(n)) && OwnEvidence(sites(n))
  {
    if n > 0 {
      SitesKeepOrigin(c, initial, worlds, sites, n - 1);
      var w, at, next := worlds(n - 1), sites(n - 1), sites(n);
      assert Moves(c, w, at, next);
      SitesAreNumbered(c, initial, worlds, sites, n - 1);
      MoveKeepsOrigin(c, w, initial, at, next);
    }
  }

  // What a collected item can say: a terminal verdict is the payload of the
  // action's own clean record, from one of the three inspecting capabilities.
  lemma VerdictIsPayload(a: Action, e: Execution, read: Option<Record>, item: Evidence)
    requires item in Collected(a, e, read) && Weighs(item, a.id)
    ensures Inspects(a.tool) && Belongs(read, a, e) && Clean(read.value) && read.value.payload == item.verdict
  {
  }

  // Over every run that starts without evidence under its own identifiers: a
  // reported verdict that was not asked for in stub mode is exactly what the
  // stored record of the last action's clean execution states.
  lemma VerdictsComeFromRecords(c: Settings, initial: AgentState, worlds: nat -> World, n: nat, v: Verdict)
    requires Unused(initial) && Run(c, initial, worlds, n).node == End && v in {Confirmed, Rejected}
    requires Run(c, initial, worlds, n).state.status == Status.Verdict(v)
    requires !AskedFor(c, Run(c, initial, worlds, n).state, v)
    ensures var at := Run(c, initial, worlds, n);
      && at.state.action.Some? && at.state.execution.Some? && Inspects(at.state.action.value.tool)
      && Belongs(at.read, at.state.action.value, at.state.execution.value)
      && Clean(at.read.value) && at.read.value.payload == Some(v)
  {
    var at := Sites(c, initial, worlds)(n);
    VerdictsAreGrounded(c, initial, worlds, n, v);
    RunFollows(c, initial, worlds);
    SitesKeepOrigin(c, initial, worlds, Sites(c, initial, worlds), n);
    var a, e := at.state.action.value, at.state.execution.value;
    assert Supports(at.state.evidence, a.id, v);
    var item :| item in at.state.evidence && Weighs(item, a.id) && item.verdict == Some(v);
    VerdictIsPayload(a, e, at.read, item);
  }

  // ---- from the sandbox to the verdict ----

  predicate Linked(at: Site) {
    at.node == CollectEvidence || Judged(at) ==> Faithful(at.last)
  }

  lemma MoveKeepsLink(c: Settings, w: World, at: Site, next: Site)
    requires Ready(at) && Moves(c, w, at, next) && Linked(at)
    ensures Linked(next)
  {
    if at.node != ExecuteAction {
      assert next.last == at.last;
    }
  }

  lemma {:induction false} SitesAreLinked(c: Settings, initial: AgentState, worlds: nat -> World, sites: nat -> Site,
                                          n: nat)
    requires Follows(c, initial, worlds, sites)
    ensures Linked(sites(n))
  {
    if n > 0 {
      SitesAreLinked(c, initial, worlds, sites, n - 1);
      assert Moves(c, worlds(n - 1), sites(n - 1), sites(n));
      MoveKeepsLink(c, worlds(n - 1), sites(n - 1), sites(n));
    }
  }

  // The whole chain: if the evidence file read back is the one the executor
  // stored, a verdict that was not asked for in stub mode was printed by a
  // clean run, in the sandbox, of the last action, which both validators had
  // approved exactly as it was run.
  lemma VerdictsComeFromTheSandbox(c: Settings, initial: AgentState, worlds: nat -> World, n: nat, v: Verdict)
    requires Unused(initial) && Run(c, initial, worlds, n).node == End && v in {Confirmed, Rejected}
    requires Run(c, initial, worlds, n).state.status == Status.Verdict(v)
    requires !AskedFor(c, Run(c, initial, worlds, n).state, v)
    requires Run(c, initial, worlds, n).last.Some? ==>
      Run(c, initial, worlds, n).read == Run(c, initial, worlds, n).last.value.stored
    ensures var at := Run(c, initial, worlds, n);
      && at.last.Some? && at.last.value.entered && at.last.value.outcome.Ran?
      && at.last.value.outcome.exitCode == 0 && at.last.value.outcome.payload == Some(v)
      && at.state.action.Some? && Vetted(c, at.state, at.state.action.value)
  {
    RunFollows(c, initial, worlds);
    SitesAreLinked(c, initial, worlds, Sites(c, initial, worlds), n);
    VerdictsComeFromRecords(c, initial, worlds, n, v);
    VerdictsAreGrounded(c, initial, worlds, n, v);
  }
}
