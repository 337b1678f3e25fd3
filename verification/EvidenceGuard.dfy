/**
  The deterministic verdict rules: evidence/guard.py, the budget rules of
  agent/loop.py and both `reevaluate` methods of the reasoning models.
 */
module EvidenceGuard {
  import opened Wrappers
  import opened AgentData
  import opened Text

  datatype Mode = Stub | LLM

  datatype Outcome = Final(verdict: Verdict) | GoOn

  datatype Ruling = Ruling(outcome: Outcome, stopReason: Option<StopReason>)

  // `step_limit_reached`
  predicate StepLimitReached(s: AgentState) {
    s.iterationCount >= StepLimit(s)
  }

  // The clock has started at some moment less than the budget ago, or not at all;
  // without a budget of its own the run has two minutes.
  predicate InTime(s: AgentState, now: real) {
    s.startedAt.Some? ==>
      match s.wallClockBudget
      case Some(budget) => 0.0 < budget && now < s.startedAt.value + budget
      case None => now < s.startedAt.value + 120.0
  }

  // `wall_clock_exhausted`, at the given time.
  predicate WallClockExhausted(s: AgentState, now: real): (exhausted: bool)
    ensures exhausted <==> !InTime(s, now)
  {
    && s.startedAt.Some?
    && var budget := if s.wallClockBudget.Some? then s.wallClockBudget.value else 120.0;
       budget <= 0.0 || now - s.startedAt.value >= budget
  }

  function BudgetStopReason(s: AgentState, now: real): Option<StopReason> {
    if StepLimitReached(s) then Some(StepBudgetExhausted)
    else if WallClockExhausted(s, now) then Some(WallClockBudgetExhausted)
    else None
  }

  // `_execution_reason`
  function ExecutionReason(e: Execution): StopReason {
    if e.timedOut || e.error == Some(Timeout) then ExecutionTimeout
    else if e.error == Some(BuildFailed) then BuildFailure
    else if e.error == Some(UnsupportedRuntime) then RuntimeUnsupported
    else if e.error == Some(IsolationBlocked) then IsolationOrPolicyBlocked
    else if e.status == Denied || e.boundary then IsolationOrPolicyBlocked
    else ExecutionDidFail
  }

  predicate Weighs(item: Evidence, actionId: string) {
    && item.actionId == actionId
    && item.verdict in {Some(Confirmed), Some(Rejected)}
    && item.reliability in {High, Medium}
  }

  // The terminal verdicts the evidence of one action supports.
  function TerminalVerdicts(evidence: seq<Evidence>, actionId: string): set<Option<Verdict>> {
    set item | item in evidence && Weighs(item, actionId) :: item.verdict
  }

  function ContinueOrStop(s: AgentState, reason: StopReason): Ruling {
    if StepLimitReached(s) then Ruling(Final(Inconclusive), Some(reason)) else Ruling(GoOn, None)
  }

  predicate Succeeded(e: Execution) {
    e.status == Completed && e.exitCode == 0
  }

  // `evaluate_evidence`
  function EvaluateEvidence(s: AgentState): Option<Ruling> {
    if s.action.None? || s.execution.None? then None
    else if !Succeeded(s.execution.value) then
      var reason := ExecutionReason(s.execution.value);
      if reason in {BuildFailure, RuntimeUnsupported, IsolationOrPolicyBlocked}
      then Some(Ruling(Final(Inconclusive), Some(reason)))
      else Some(ContinueOrStop(s, reason))
    else
      var terminal := TerminalVerdicts(s.evidence, s.action.value.id);
      if terminal == {Some(Confirmed)} then Some(Ruling(Final(Confirmed), Some(TerminalEvidence)))
      else if terminal == {Some(Rejected)} then Some(Ruling(Final(Rejected), Some(TerminalEvidence)))
      else Some(ContinueOrStop(s, InsufficientEvidence))
  }

  // What the evidence must hold for a terminal verdict: some item of the
  // action carries it with enough reliability, and none carries the other.
  predicate Supports(evidence: seq<Evidence>, actionId: string, v: Verdict) {
    && (exists item :: item in evidence && Weighs(item, actionId) && item.verdict == Some(v))
    && (forall item :: item in evidence && Weighs(item, actionId) ==> item.verdict == Some(v))
  }

  lemma TerminalMeansSupported(evidence: seq<Evidence>, actionId: string, v: Verdict)
    ensures TerminalVerdicts(evidence, actionId) == {Some(v)} <==> Supports(evidence, actionId, v)
  {
    var terminal := TerminalVerdicts(evidence, actionId);
    if terminal == {Some(v)} {
      assert Some(v) in terminal;
      forall item | item in evidence && Weighs(item, actionId)
        ensures item.verdict == Some(v)
      {
        assert item.verdict in terminal;
      }
    }
    if Supports(evidence, actionId, v) {
      assert Some(v) in terminal;
      assert forall x :: x in terminal ==> x == Some(v);
    }
  }

  // A verdict is reached exactly when the execution succeeded and the
  // action's own reliable evidence speaks for it alone.
  lemma GuardDecidesByEvidence(s: AgentState, v: Verdict)
    requires s.action.Some? && s.execution.Some?
    requires v in {Confirmed, Rejected}
    ensures EvaluateEvidence(s).Some?
    ensures EvaluateEvidence(s).value.outcome == Final(v) <==>
      Succeeded(s.execution.value) && Supports(s.evidence, s.action.value.id, v)
  {
    TerminalMeansSupported(s.evidence, s.action.value.id, Confirmed);
    TerminalMeansSupported(s.evidence, s.action.value.id, Rejected);
    assert {Some(Confirmed)} != {Some(Rejected)} by {
      assert Some(Confirmed) in {Some(Confirmed)} && Some(Confirmed) !in {Some(Rejected)};
    }
  }

  // Neither the order of the evidence nor how often an item is repeated
  // matters to the guard.
  lemma GuardSeesEvidenceAsASet(s: AgentState, t: AgentState)
    requires t == s.(evidence := t.evidence)
    requires forall item :: item in s.evidence <==> item in t.evidence
    ensures EvaluateEvidence(s) == EvaluateEvidence(t)
  {
    if s.action.Some? {
      assert TerminalVerdicts(s.evidence, s.action.value.id) == TerminalVerdicts(t.evidence, s.action.value.id);
    }
  }

  // `_requested_test_outcome`: only the synthetic severities steer the stub.
  function RequestedOutcome(finding: Finding): string {
    var severity := Upper(if finding.severity.Some? then finding.severity.value else "");
    if severity == "TEST_CONFIRMED" then "confirmed"
    else if severity == "TEST_REJECTED" then "rejected"
    else "inconclusive"
  }

  function StubOutcome(action: Action): string {
    if TestOutcome !in action.parameters then "confirmed"
    else
      match action.parameters[TestOutcome]
      case Text(text) => text
      case _ => ""
  }

  function GiveUpAtLimit(s: AgentState): Outcome {
    if s.iterationCount >= RawLimit(s) then Final(Inconclusive) else GoOn
  }

  // The last verdict among the action's evidence items that carry one.
  function LastVerdict(evidence: seq<Evidence>, actionId: string): Option<Verdict> {
    if evidence == [] then None
    else
      var item := evidence[|evidence| - 1];
      if item.actionId == actionId && item.verdict.Some? then item.verdict
      else LastVerdict(evidence[..|evidence| - 1], actionId)
  }

  // `DeterministicAgentModel.reevaluate`
  function StubReevaluate(s: AgentState): Outcome
    requires s.action.Some? && s.execution.Some?
  {
    var guard := EvaluateEvidence(s);
    if s.action.value.tool != SafeNoop && guard.Some? then guard.value.outcome
    else if !Succeeded(s.execution.value) then GiveUpAtLimit(s)
    else if s.action.value.tool != SafeNoop then
      var verdict := LastVerdict(s.evidence, s.action.value.id);
      if verdict in {Some(Confirmed), Some(Rejected)} then Final(verdict.value) else GiveUpAtLimit(s)
    else if StubOutcome(s.action.value) == "confirmed" then Final(Confirmed)
    else if StubOutcome(s.action.value) == "rejected" then Final(Rejected)
    else GiveUpAtLimit(s)
  }

  // `FallbackLLMAgentModel.reevaluate`; `answer` is the model's reply, absent
  // when no provider gave a valid one.
  function LLMReevaluate(s: AgentState, answer: Option<Outcome>): Outcome
    requires s.action.Some? && s.execution.Some?
  {
    var guard := EvaluateEvidence(s);
    if guard.Some? then guard.value.outcome
    else
      var result := if answer.Some? then answer.value else StubReevaluate(s);
      if result in {Final(Confirmed), Final(Rejected)} then GiveUpAtLimit(s) else result
  }

  // `apply_budget_to_reevaluation`
  function ApplyBudget(s: AgentState, result: Outcome, now: real): Ruling {
    if result in {Final(Confirmed), Final(Rejected)} then Ruling(result, Some(TerminalEvidence))
    else
      var reason := BudgetStopReason(s, now);
      if result == Final(Inconclusive) then
        if reason.Some? then Ruling(result, reason)
        else if s.execution.Some? && s.execution.value.status != Completed
        then Ruling(result, Some(ExecutionDidFail))
        else Ruling(result, Some(InsufficientEvidence))
      else if reason.Some? then Ruling(Final(Inconclusive), reason)
      else Ruling(result, None)
  }

  // The decision of the `reevaluate` node. The clock is read twice, and
  // nothing is assumed about how the two readings compare.
  function Rule(mode: Mode, s: AgentState, answer: Option<Outcome>, now: real, later: real): Ruling
    requires s.action.Some? && s.execution.Some?
  {
    var guard := if s.action.value.tool != SafeNoop then EvaluateEvidence(s) else None;
    if guard.Some? then guard.value
    else if WallClockExhausted(s, now) then Ruling(Final(Inconclusive), Some(WallClockBudgetExhausted))
    else
      var result := if mode == Stub then StubReevaluate(s) else LLMReevaluate(s, answer);
      ApplyBudget(s, result, later)
  }

  // What the language model answers never decides anything.
  lemma AnswerNeverDecides(mode: Mode, s: AgentState, a: Option<Outcome>, b: Option<Outcome>, now: real, later: real)
    requires s.action.Some? && s.execution.Some?
    ensures Rule(mode, s, a, now, later) == Rule(mode, s, b, now, later)
  {
    assert EvaluateEvidence(s).Some?;
  }

  // At the step limit the loop always ends, whatever else is true.
  lemma LimitEndsTheLoop(mode: Mode, s: AgentState, answer: Option<Outcome>, now: real, later: real)
    requires s.action.Some? && s.execution.Some?
    requires StepLimitReached(s)
    ensures Rule(mode, s, answer, now, later).outcome != GoOn
  {
  }

  // The two ways to a terminal verdict, and no third: the synthetic severities
  // of the stub, or the action's own reliable evidence.
  ghost predicate Justified(mode: Mode, s: AgentState, v: Verdict) {
    && s.action.Some? && s.execution.Some? && Succeeded(s.execution.value)
    && (if mode == Stub && s.action.value.tool == SafeNoop
        then StubOutcome(s.action.value) == (if v == Confirmed then "confirmed" else "rejected")
        else Supports(s.evidence, s.action.value.id, v))
  }

  lemma VerdictExactlyWhenJustified(mode: Mode, s: AgentState, answer: Option<Outcome>, now: real, later: real,
                                    v: Verdict)
    requires s.action.Some? && s.execution.Some? && v in {Confirmed, Rejected}
    ensures Rule(mode, s, answer, now, later).outcome == Final(v) <==>
      Justified(mode, s, v) && (s.action.value.tool == SafeNoop ==> !WallClockExhausted(s, now))
    ensures Rule(mode, s, answer, now, later).outcome == Final(v) ==>
      Rule(mode, s, answer, now, later).stopReason == Some(TerminalEvidence)
  {
    GuardDecidesByEvidence(s, v);
  }

  // ---- the ruling on every other execution ----

  // Whether the failure ends the loop at once, and the reason it is given.
  predicate FailsFor(e: Execution, final: bool, reason: StopReason) {
    match reason
    case ExecutionTimeout => !final && (e.timedOut || e.error == Some(Timeout))
    case BuildFailure => final && !e.timedOut && e.error == Some(BuildFailed)
    case RuntimeUnsupported => final && !e.timedOut && e.error == Some(UnsupportedRuntime)
    case IsolationOrPolicyBlocked =>
      && final && !e.timedOut
      && e.error !in {Some(Timeout), Some(BuildFailed), Some(UnsupportedRuntime)}
      && (e.error == Some(IsolationBlocked) || e.status == Denied || e.boundary)
    case ExecutionDidFail =>
      && !final && !e.timedOut && e.status != Denied && !e.boundary
      && e.error !in {Some(Timeout), Some(BuildFailed), Some(UnsupportedRuntime), Some(IsolationBlocked)}
    case _ => false
  }

  // A real action that failed, or left nothing to decide by, is inconclusive if
  // its failure is final or the limit is reached; otherwise the loop goes on.
  lemma UndecidedIsRuled(mode: Mode, s: AgentState, answer: Option<Outcome>, now: real, later: real)
    requires s.action.Some? && s.execution.Some? && s.action.value.tool != SafeNoop
    ensures var e, ruling := s.execution.value, Rule(mode, s, answer, now, later);
      && (!(e.status == Completed && e.exitCode == 0) ==>
            exists final, reason :: FailsFor(e, final, reason) &&
              ruling == if final || s.iterationCount >= StepLimit(s) then Ruling(Final(Inconclusive), Some(reason))
                        else Ruling(GoOn, None))
      && (e.status == Completed && e.exitCode == 0 && ruling.outcome !in {Final(Confirmed), Final(Rejected)} ==>
            ruling == if s.iterationCount >= StepLimit(s)
                      then Ruling(Final(Inconclusive), Some(InsufficientEvidence)) else Ruling(GoOn, None))
  {
    var e := s.execution.value;
    if !Succeeded(e) {
      var reason := ExecutionReason(e);
      var final := reason in {BuildFailure, RuntimeUnsupported, IsolationOrPolicyBlocked};
      assert FailsFor(e, final, reason);
    }
  }

  // Every failure has one reason and is final or not.
  lemma FailureIsDetermined(e: Execution, a: bool, b: bool, r: StopReason, q: StopReason)
    requires FailsFor(e, a, r) && FailsFor(e, b, q)
    ensures a == b && r == q
  {
  }

  // Why a loop that ends without a verdict stops, when no failure says so.
  predicate EndsFor(s: AgentState, later: real, reason: StopReason)
    requires s.execution.Some?
  {
    match reason
    case StepBudgetExhausted => s.iterationCount >= StepLimit(s)
    case WallClockBudgetExhausted => s.iterationCount < StepLimit(s) && !InTime(s, later)
    case ExecutionDidFail =>
      s.iterationCount < StepLimit(s) && InTime(s, later) && s.execution.value.status != Completed
    case InsufficientEvidence =>
      s.iterationCount < StepLimit(s) && InTime(s, later) && s.execution.value.status == Completed
    case _ => false
  }

  // What the stand-in was asked to report; without a word it confirms.
  predicate Asks(a: Action, v: Verdict) {
    match v
    case Confirmed => TestOutcome in a.parameters ==> a.parameters[TestOutcome] == Text("confirmed")
    case Rejected => TestOutcome in a.parameters && a.parameters[TestOutcome] == Text("rejected")
    case Inconclusive => false
  }

  lemma AsksMeans(a: Action)
    ensures Asks(a, Confirmed) <==> StubOutcome(a) == "confirmed"
    ensures Asks(a, Rejected) <==> StubOutcome(a) == "rejected"
  {
  }

  // The stand-in of the stub mode: in time it is ruled what it asks for if it
  // succeeded, and the loop goes on below the limit if it did not or asks for
  // nothing.
  lemma StandInIsRuled(s: AgentState, answer: Option<Outcome>, now: real, later: real)
    requires s.action.Some? && s.execution.Some? && s.action.value.tool == SafeNoop
    ensures var e, ruling := s.execution.value, Rule(Stub, s, answer, now, later);
      var speaks := e.status == Completed && e.exitCode == 0 && exists v :: Asks(s.action.value, v);
      && (!InTime(s, now) ==> ruling == Ruling(Final(Inconclusive), Some(WallClockBudgetExhausted)))
      && (InTime(s, now) && speaks ==>
            exists v :: Asks(s.action.value, v) && ruling == Ruling(Final(v), Some(TerminalEvidence)))
      && (InTime(s, now) && !speaks && s.iterationCount < RawLimit(s) && InTime(s, later) ==>
            ruling == Ruling(GoOn, None))
      && (InTime(s, now) && !speaks && !(s.iterationCount < RawLimit(s) && InTime(s, later)) ==>
            ruling.outcome == Final(Inconclusive) && ruling.stopReason.Some?
            && EndsFor(s, later, ruling.stopReason.value))
  {
    var a := s.action.value;
    AsksMeans(a);
    assert !Asks(a, Inconclusive);
  }

  // The same action under a language model: without evidence it decides nothing.
  lemma StandInUnderAModelIsRuled(s: AgentState, answer: Option<Outcome>, now: real, later: real)
    requires s.action.Some? && s.execution.Some? && s.action.value.tool == SafeNoop
    ensures var e, ruling := s.execution.value, Rule(LLM, s, answer, now, later);
      var hard := !(e.status == Completed && e.exitCode == 0) && exists reason :: FailsFor(e, true, reason);
      && (!InTime(s, now) ==> ruling == Ruling(Final(Inconclusive), Some(WallClockBudgetExhausted)))
      && (InTime(s, now) && ruling.outcome !in {Final(Confirmed), Final(Rejected)} ==>
            if !hard && s.iterationCount < StepLimit(s) && InTime(s, later) then ruling == Ruling(GoOn, None)
            else ruling.outcome == Final(Inconclusive) && ruling.stopReason.Some?
                 && EndsFor(s, later, ruling.stopReason.value))
  {
    var e := s.execution.value;
    if !Succeeded(e) {
      var reason := ExecutionReason(e);
      assert FailsFor(e, reason in {BuildFailure, RuntimeUnsupported, IsolationOrPolicyBlocked}, reason);
      forall other | FailsFor(e, true, other)
        ensures other == reason
      {
        FailureIsDetermined(e, true, reason in {BuildFailure, RuntimeUnsupported, IsolationOrPolicyBlocked},
                            other, reason);
      }
    }
  }

  // An item of the action that carries a verdict hides those before it.
  lemma LaterVerdictCounts(evidence: seq<Evidence>, item: Evidence, actionId: string)
    ensures LastVerdict([], actionId).None?
    ensures LastVerdict(evidence + [item], actionId) ==
      if item.actionId == actionId && item.verdict.Some? then item.verdict else LastVerdict(evidence, actionId)
  {
    assert (evidence + [item])[..|evidence|] == evidence;
  }
}
