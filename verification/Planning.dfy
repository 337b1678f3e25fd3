/**
  Building plans and checking their scope: `propose_action` and `build_plan`
  of agent/model.py and agent/llm_model.py, agent/planning.py, schemas/plan.py.
 */
module Planning {
  import opened Wrappers
  import opened AgentData
  import opened ActionIds
  import opened EvidenceGuard
  import Text

  // ---- schemas/plan.py: what every constructed plan satisfies ----

  predicate Consistent(plan: Plan) {
    && 1 <= plan.maxSteps <= 8
    && 1 <= |plan.steps| <= plan.maxSteps
    && (forall i :: 0 <= i < |plan.steps| ==>
          && plan.steps[i].index == i + 1
          && plan.steps[i].action.target == plan.target
          && plan.steps[i].action.environment == plan.environment)
    && (forall i, j :: 0 <= i < j < |plan.steps| ==> plan.steps[i].action.id != plan.steps[j].action.id)
  }

  // ---- agent/planning.py: the scope validator ----

  function Length(items: seq<string>): nat {
    if items == [] then 0 else |items[0]| + Length(items[1..])
  }

  // `_sandbox_command_error` reports nothing.
  predicate CommandBounded(p: Parameters) {
    && p.Keys == {Argv, Cwd}
    && p[Argv].TextList? && 1 <= |p[Argv].items| <= 32
    && (forall item :: item in p[Argv].items ==> item != "" && '\0' !in item && |item| <= 1024)
    && Length(p[Argv].items) <= 8192
    && p[Cwd] in {Text("/target"), Text("/workspace")}
  }

  // Two parameters: one to 32 arguments, none empty, with a NUL or longer than
  // 1024 characters, 8192 characters in all, and one of the two directories.
  lemma CommandBoundedMeans(p: Parameters)
    ensures CommandBounded(p) <==>
      exists argv, cwd :: p == map[Argv := TextList(argv), Cwd := Text(cwd)]
        && 1 <= |argv| <= 32 && Length(argv) <= 8192 && (cwd == "/target" || cwd == "/workspace")
        && forall i :: 0 <= i < |argv| ==> 1 <= |argv[i]| <= 1024 && forall j :: 0 <= j < |argv[i]| ==> argv[i][j] != '\0'
  {
    if CommandBounded(p) {
      assert p == map[Argv := TextList(p[Argv].items), Cwd := Text(p[Cwd].text)];
    }
  }

  lemma {:induction false} LengthAdds(a: seq<string>, item: string, b: seq<string>)
    ensures Length([]) == 0 && Length(a + [item] + b) == Length(a) + |item| + Length(b)
  {
    var all := a + [item] + b;
    if a == [] {
      assert all[1..] == b;
    } else {
      LengthAdds(a[1..], item, b);
      assert all[1..] == a[1..] + [item] + b;
    }
  }

  predicate ServiceReady(s: AgentState, profile: Profile, service: string, endpoint: Option<string>) {
    && service in profile.services
    && s.runtime.Some? && service in s.runtime.value.services
    && s.runtime.value.services[service].ready
    && (endpoint.Some? ==> endpoint.value in s.runtime.value.services[service].endpoints)
  }

  predicate StepInScope(s: AgentState, profile: Profile, step: PlannedAction, iteration: int) {
    && var a := step.action;
    && a.iteration == iteration && a.target == profile.id && a.environment == profile.environment
    && if a.tool == SandboxCommand
       then a.service.None? && a.endpoint.None? && CommandBounded(a.parameters)
       else if a.service.Some? then ServiceReady(s, profile, a.service.value, a.endpoint)
       else a.endpoint.None?
  }

  predicate RuntimeScoped(steps: seq<PlannedAction>) {
    exists i :: 0 <= i < |steps| && (steps[i].action.service.Some? || steps[i].action.endpoint.Some?)
  }

  // What the plan asks for as a whole.
  predicate HeaderInScope(plan: Plan, s: AgentState) {
    && s.profile.Some?
    && plan.target == s.profile.value.id && plan.environment == s.profile.value.environment
    && s.hypothesis.Some? && plan.hypothesis == s.hypothesis.value.id
    && var remaining := RawLimit(s) - s.iterationCount;
    && 1 <= remaining && plan.maxSteps <= remaining && |plan.steps| <= remaining
    && if plan.session.Some?
       then s.runtime.Some? && plan.session.value == s.runtime.value.session
       else !RuntimeScoped(plan.steps)
  }

  predicate InScope(plan: Plan, s: AgentState) {
    && HeaderInScope(plan, s)
    && forall i :: 0 <= i < |plan.steps| ==>
         StepInScope(s, s.profile.value, plan.steps[i], s.iterationCount + i + 1)
  }

  // All that the scope asks for: the plan is the agent's own and fits the budget
  // left, and each step is the next iteration on the agent's target, a bounded
  // command, or an action on a ready service and its allowed endpoint if on any.
  lemma ScopeMeans(plan: Plan, s: AgentState)
    ensures InScope(plan, s) <==>
      && s.profile.Some? && s.hypothesis.Some?
      && plan.target == s.profile.value.id && plan.environment == s.profile.value.environment
      && plan.hypothesis == s.hypothesis.value.id
      && var stored := if s.maxSteps.Some? then s.maxSteps else s.maxIterations;
         var left := (if stored.Some? then stored.value else 2) - s.iterationCount;
      && 1 <= left && plan.maxSteps <= left && |plan.steps| <= left
      && (plan.session.Some? ==> s.runtime.Some? && plan.session == Some(s.runtime.value.session))
      && forall i :: 0 <= i < |plan.steps| ==>
           var a := plan.steps[i].action;
           && a.iteration == s.iterationCount + i + 1
           && a.target == s.profile.value.id && a.environment == s.profile.value.environment
           && (a.tool == SandboxCommand ==> a.service.None? && a.endpoint.None? && CommandBounded(a.parameters))
           && (a.service.None? ==> a.endpoint.None?)
           && (a.service.Some? ==>
                 && plan.session.Some?
                 && a.service.value in s.profile.value.services
                 && s.runtime.Some? && a.service.value in s.runtime.value.services
                 && var service := s.runtime.value.services[a.service.value];
                    service.ready && (a.endpoint.Some? ==> a.endpoint.value in service.endpoints))
  {
  }

  // `DynamicPlanValidator.validate`
  method ValidatePlan(plan: Plan, s: AgentState) returns (approved: bool)
    ensures approved <==> InScope(plan, s)
  {
    if !HeaderInScope(plan, s) {
      return false;
    }
    var profile := s.profile.value;
    for i := 0 to |plan.steps|
      invariant forall j :: 0 <= j < i ==> StepInScope(s, profile, plan.steps[j], s.iterationCount + j + 1)
    {
      var a := plan.steps[i].action;
      if a.iteration != s.iterationCount + (i + 1) {
        return false;
      }
      if a.target != profile.id || a.environment != profile.environment {
        return false;
      }
      if a.tool == SandboxCommand {
        if a.service.Some? || a.endpoint.Some? || !CommandBounded(a.parameters) {
          return false;
        }
        continue;
      }
      if a.endpoint.Some? && a.service.None? {
        return false;
      }
      if a.service.Some? && !ServiceReady(s, profile, a.service.value, a.endpoint) {
        return false;
      }
    }
    approved := true;
  }

  // ---- agent/model.py: the deterministic planner ----

  // The capability a finding calls for.
  function ToolFor(finding: Finding): Tool {
    var rule := Text.Lower(finding.ruleId);
    if finding.service == Some("force-deny") then Unregistered("unknown_tool")
    else if Text.StartsWith(rule, "dockerfile.security.missing-user") then InspectDockerfileUser
    else if Text.Contains(rule, "unvalidated-password") then InspectPythonPassword
    else if Text.Contains(rule, "react-dangerouslysetinnerhtml") then InspectReactHtmlFlow
    else SafeNoop
  }

  // Which rule calls for which capability, whatever the case of its letters; the
  // earlier ones in this list win.
  ghost predicate CallsFor(finding: Finding, tool: Tool) {
    var rule := Text.Lower(finding.ruleId);
    var denied := finding.service == Some("force-deny");
    var dockerfile := exists rest :: rule == "dockerfile.security.missing-user" + rest;
    var password := exists before, rest :: rule == before + "unvalidated-password" + rest;
    var react := exists before, rest :: rule == before + "react-dangerouslysetinnerhtml" + rest;
    match tool
    case Unregistered(name) => denied && name == "unknown_tool"
    case InspectDockerfileUser => !denied && dockerfile
    case InspectPythonPassword => !denied && !dockerfile && password
    case InspectReactHtmlFlow => !denied && !dockerfile && !password && react
    case SafeNoop => !denied && !dockerfile && !password && !react
    case _ => false
  }

  lemma ToolByRule(finding: Finding, tool: Tool)
    ensures ToolFor(finding) == tool <==> CallsFor(finding, tool)
  {
    var rule := Text.Lower(finding.ruleId);
    Text.StartsWithMeans(rule, "dockerfile.security.missing-user");
    Text.ContainsMeans(rule, "unvalidated-password");
    Text.ContainsMeans(rule, "react-dangerouslysetinnerhtml");
  }

  // `located` holds the artifact parameters the target profile resolves for
  // the finding, absent when a lookup fails.
  function ParametersFor(finding: Finding, iteration: int, located: Option<Parameters>): Option<Parameters> {
    match ToolFor(finding)
    case Unregistered(_) => Some(map[])
    case SafeNoop =>
      var number := Text.Digits(if iteration < 0 then 0 else iteration);
      Some(map[Message := Text("verify:" + finding.id + ":iteration:" + number),
               TestOutcome := Text(RequestedOutcome(finding))])
    case _ => located
  }

  const DETERMINISTIC_PURPOSE := "Controlled verification."

  // The stand-in and the deny path take the hypothesis's text over.
  function ExpectedFrom(tool: Tool, hypothesis: Hypothesis): string {
    if tool == SafeNoop || tool.Unregistered? then hypothesis.expectedEvidence else "A structured result."
  }

  function DeterministicPlan(s: AgentState, located: Option<Parameters>): Option<Plan>
    requires s.profile.Some? && s.hypothesis.Some?
  {
    var iteration := s.iterationCount + 1;
    var parameters := ParametersFor(s.finding, iteration, located);
    if parameters.None? || iteration < 1 then None
    else
      var profile := s.profile.value;
      var action := Action(BuildActionId(s.finding.id, iteration), ToolFor(s.finding), profile.id,
                           profile.environment, iteration, parameters.value,
                           DETERMINISTIC_PURPOSE, ExpectedFrom(ToolFor(s.finding), s.hypothesis.value), None, None);
      Some(Plan(profile.id, profile.environment, s.hypothesis.value.id, 1,
                if s.runtime.Some? then Some(s.runtime.value.session) else None,
                [PlannedAction(1, action)]))
  }

  // The plan of one step the deterministic planner makes: the capability the rule
  // calls for, on the agent's target, with the parameters it needs.
  lemma DeterministicPlanIs(s: AgentState, located: Option<Parameters>, tool: Tool)
    requires s.profile.Some? && s.hypothesis.Some? && CallsFor(s.finding, tool)
    ensures var plan := DeterministicPlan(s, located);
      var stands := tool == SafeNoop || tool == Unregistered("unknown_tool");
      && (plan.Some? <==> s.iterationCount >= 0 && (stands || located.Some?))
      && (plan.Some? ==>
            var severity := if s.finding.severity.Some? then Text.Upper(s.finding.severity.value) else "";
            var outcome := if severity == "TEST_CONFIRMED" then "confirmed"
                           else if severity == "TEST_REJECTED" then "rejected" else "inconclusive";
            var message := "verify:" + s.finding.id + ":iteration:" + Text.Digits(s.iterationCount + 1);
            plan.value == Plan(
              s.profile.value.id, s.profile.value.environment, s.hypothesis.value.id, 1,
              if s.runtime.None? then None else Some(s.runtime.value.session),
              [PlannedAction(1, Action(
                BuildActionId(s.finding.id, s.iterationCount + 1), tool, s.profile.value.id,
                s.profile.value.environment, s.iterationCount + 1,
                if tool == SafeNoop then map[Message := Text(message), TestOutcome := Text(outcome)]
                else if stands then map[] else located.value,
                "Controlled verification.",
                if stands then s.hypothesis.value.expectedEvidence else "A structured result.", None, None))]))
  {
    ToolByRule(s.finding, tool);
  }

  // The planner and the scope validator agree on every state with budget left.
  lemma DeterministicPlanInScope(s: AgentState, located: Option<Parameters>)
    requires s.profile.Some? && s.hypothesis.Some?
    requires DeterministicPlan(s, located).Some?
    ensures Consistent(DeterministicPlan(s, located).value)
    ensures InScope(DeterministicPlan(s, located).value, s) <==> s.iterationCount < RawLimit(s)
  {
    var plan := DeterministicPlan(s, located).value;
    assert plan.steps[0].action.tool != SandboxCommand;
    assert !RuntimeScoped(plan.steps);
  }

  // The texts of the deterministic action are blank only where it takes over a
  // blank expectation from the hypothesis.
  lemma DeterministicTexts(s: AgentState, located: Option<Parameters>)
    requires s.profile.Some? && s.hypothesis.Some?
    requires DeterministicPlan(s, located).Some?
    ensures var a := DeterministicPlan(s, located).value.steps[0].action;
      && !Text.IsBlank(a.purpose)
      && (Text.IsBlank(a.expectedEvidence) <==>
            (a.tool == SafeNoop || a.tool.Unregistered?) && Text.IsBlank(s.hypothesis.value.expectedEvidence))
  {
    assert !Text.IsSpace(DETERMINISTIC_PURPOSE[0]) && !Text.IsSpace("A structured result."[0]);
  }

  // ---- agent/llm_model.py: plans a language model composes ----

  datatype StepChoice =
    | Candidate(id: string, expected: string)
    | Command(argv: seq<string>, cwd: string, purpose: string, expected: string)

  datatype PlanChoice = PlanChoice(maxSteps: int, steps: seq<StepChoice>)

  datatype Capability = Capability(
    tool: Tool,
    parameters: Parameters,
    purpose: string,
    service: Option<string>,
    endpoint: Option<string>)

  // schemas/llm.py: an answer outside this shape never reaches the planner.
  predicate WellFormedChoice(choice: PlanChoice) {
    && 1 <= choice.maxSteps <= 8 && 1 <= |choice.steps| <= 8
    && (forall i :: 0 <= i < |choice.steps| ==> 1 <= |choice.steps[i].expected| <= 1000)
    && forall i :: 0 <= i < |choice.steps| && choice.steps[i].Command? ==>
         CommandBounded(CommandParameters(choice.steps[i])) && 1 <= |choice.steps[i].purpose| <= 1000
  }

  function CommandParameters(step: StepChoice): Parameters
    requires step.Command?
  {
    map[Argv := TextList(step.argv), Cwd := Text(step.cwd)]
  }

  predicate RepeatsCandidate(steps: seq<StepChoice>) {
    exists i, j :: 0 <= i < j < |steps| && steps[i].Candidate? && steps[j].Candidate? && steps[i].id == steps[j].id
  }

  function StepAction(s: AgentState, candidates: map<string, Capability>, step: StepChoice, iteration: int):
      Option<Action>
    requires s.profile.Some?
  {
    var profile := s.profile.value;
    if iteration < 1 then None
    else
      var id := BuildActionId(s.finding.id, iteration);
      match step
      case Command(_, _, purpose, expected) =>
        Some(Action(id, SandboxCommand, profile.id, profile.environment, iteration, CommandParameters(step),
                    purpose, expected, None, None))
      case Candidate(chosen, expected) =>
        if chosen !in candidates then None
        else
          var c := candidates[chosen];
          Some(Action(id, c.tool, profile.id, profile.environment, iteration, c.parameters, c.purpose,
                      expected, c.service, c.endpoint))
  }

  // The first n chosen steps as planned actions, or nothing if one is refused.
  function PlannedSteps(s: AgentState, candidates: map<string, Capability>, choice: PlanChoice, n: nat):
      Option<seq<PlannedAction>>
    requires s.profile.Some? && n <= |choice.steps|
  {
    if n == 0 then Some([])
    else
      var front := PlannedSteps(s, candidates, choice, n - 1);
      var action := StepAction(s, candidates, choice.steps[n - 1], s.iterationCount + n);
      if front.Some? && action.Some? then Some(front.value + [PlannedAction(n, action.value)]) else None
  }

  function ChosenPlan(s: AgentState, candidates: map<string, Capability>, choice: PlanChoice): Option<Plan>
    requires s.profile.Some? && s.hypothesis.Some?
  {
    var steps := PlannedSteps(s, candidates, choice, |choice.steps|);
    if |choice.steps| > choice.maxSteps || RepeatsCandidate(choice.steps) || steps.None? then None
    else
      Some(Plan(s.profile.value.id, s.profile.value.environment, s.hypothesis.value.id, choice.maxSteps,
                if s.runtime.Some? then Some(s.runtime.value.session) else None, steps.value))
  }

  lemma OneMorePlanned(s: AgentState, candidates: map<string, Capability>, choice: PlanChoice, i: nat,
                       planned: seq<PlannedAction>, action: Action)
    requires s.profile.Some? && i < |choice.steps| && PlannedSteps(s, candidates, choice, i) == Some(planned)
    requires StepAction(s, candidates, choice.steps[i], s.iterationCount + 1 + i) == Some(action)
    ensures PlannedSteps(s, candidates, choice, i + 1) == Some(planned + [PlannedAction(i + 1, action)])
  {
  }

  lemma ChoiceIsRefused(s: AgentState, candidates: map<string, Capability>, choice: PlanChoice, i: nat)
    requires s.profile.Some? && i < |choice.steps|
    requires StepAction(s, candidates, choice.steps[i], s.iterationCount + 1 + i).None?
    ensures PlannedSteps(s, candidates, choice, |choice.steps|).None?
  {
    assert PlannedSteps(s, candidates, choice, i + 1).None?;
    RefusalPersists(s, candidates, choice, i + 1, |choice.steps|);
  }

  // The loop of `FallbackLLMAgentModel.build_plan`.
  method ComposePlan(s: AgentState, candidates: map<string, Capability>, choice: PlanChoice)
      returns (plan: Option<Plan>)
    requires s.profile.Some? && s.hypothesis.Some?
    ensures plan == ChosenPlan(s, candidates, choice)
  {
    if |choice.steps| > choice.maxSteps || RepeatsCandidate(choice.steps) {
      return None;
    }
    var profile := s.profile.value;
    var first := s.iterationCount + 1;
    var planned: seq<PlannedAction> := [];
    for i := 0 to |choice.steps|
      invariant PlannedSteps(s, candidates, choice, i) == Some(planned)
    {
      var action := StepAction(s, candidates, choice.steps[i], first + i);
      if action.None? {
        ChoiceIsRefused(s, candidates, choice, i);
        return None;
      }
      OneMorePlanned(s, candidates, choice, i, planned, action.value);
      planned := planned + [PlannedAction(i + 1, action.value)];
    }
    plan := Some(Plan(profile.id, profile.environment, s.hypothesis.value.id, choice.maxSteps,
                      if s.runtime.Some? then Some(s.runtime.value.session) else None, planned));
  }

  lemma {:induction false} RefusalPersists(s: AgentState, candidates: map<string, Capability>, choice: PlanChoice,
                                           m: nat, n: nat)
    requires s.profile.Some? && m <= n <= |choice.steps|
    requires PlannedSteps(s, candidates, choice, m).None?
    ensures PlannedSteps(s, candidates, choice, n).None?
  {
    if m < n {
      RefusalPersists(s, candidates, choice, m, n - 1);
    }
  }

  // Step i of a composed plan carries the agent's own identity and scope, and
  // the chosen command or registered capability unchanged.
  predicate BuiltFrom(s: AgentState, candidates: map<string, Capability>, choice: PlanChoice, step: PlannedAction,
                      i: nat)
    requires s.profile.Some? && i < |choice.steps|
  {
    var a, iteration := step.action, s.iterationCount + i + 1;
    && step.index == i + 1
    && 1 <= iteration == a.iteration
    && a.id == BuildActionId(s.finding.id, iteration)
    && a.target == s.profile.value.id && a.environment == s.profile.value.environment
    && match choice.steps[i]
       case Command(_, _, purpose, expected) =>
         && a.tool == SandboxCommand
         && a.parameters == map[Argv := TextList(choice.steps[i].argv), Cwd := Text(choice.steps[i].cwd)]
         && a.purpose == purpose && a.expectedEvidence == expected
         && a.service.None? && a.endpoint.None?
       case Candidate(chosen, expected) =>
         && chosen in candidates
         && a.purpose == candidates[chosen].purpose && a.expectedEvidence == expected
         && a.tool == candidates[chosen].tool && a.parameters == candidates[chosen].parameters
         && a.service == candidates[chosen].service && a.endpoint == candidates[chosen].endpoint
  }

  lemma {:induction false} PlannedStepsAre(s: AgentState, candidates: map<string, Capability>, choice: PlanChoice,
                                           n: nat)
    requires s.profile.Some? && n <= |choice.steps|
    requires PlannedSteps(s, candidates, choice, n).Some?
    ensures |PlannedSteps(s, candidates, choice, n).value| == n
    ensures forall i :: 0 <= i < n ==>
      BuiltFrom(s, candidates, choice, PlannedSteps(s, candidates, choice, n).value[i], i)
  {
    if n > 0 {
      PlannedStepsAre(s, candidates, choice, n - 1);
      var steps := PlannedSteps(s, candidates, choice, n).value;
      assert BuiltFrom(s, candidates, choice, steps[n - 1], n - 1);
    }
  }

  lemma StepsDiffer(s: AgentState, candidates: map<string, Capability>, choice: PlanChoice,
                    a: PlannedAction, i: nat, b: PlannedAction, j: nat)
    requires s.profile.Some? && i < j < |choice.steps|
    requires BuiltFrom(s, candidates, choice, a, i) && BuiltFrom(s, candidates, choice, b, j)
    ensures a.action.id != b.action.id
  {
    BuiltIdsAreDistinct(s.finding.id, s.iterationCount + i + 1, s.iterationCount + j + 1);
  }

  // Whatever the model composes, the plan built from it is consistent: its
  // steps are numbered in order and no two actions share an identifier.
  lemma ChosenPlanConsistent(s: AgentState, candidates: map<string, Capability>, choice: PlanChoice)
    requires s.profile.Some? && s.hypothesis.Some? && WellFormedChoice(choice)
    requires ChosenPlan(s, candidates, choice).Some?
    ensures Consistent(ChosenPlan(s, candidates, choice).value)
  {
    var plan := ChosenPlan(s, candidates, choice).value;
    PlannedStepsAre(s, candidates, choice, |choice.steps|);
    assert forall i :: 0 <= i < |plan.steps| ==> BuiltFrom(s, candidates, choice, plan.steps[i], i);
    forall i, j | 0 <= i < j < |plan.steps|
      ensures plan.steps[i].action.id != plan.steps[j].action.id
    {
      StepsDiffer(s, candidates, choice, plan.steps[i], i, plan.steps[j], j);
    }
  }

  // A registered candidate is never the raw command capability.
  predicate Registered(candidates: map<string, Capability>) {
    forall id :: id in candidates ==> candidates[id].tool != SandboxCommand
  }

  predicate Reachable(s: AgentState, c: Capability)
    requires s.profile.Some?
  {
    if c.service.Some? then ServiceReady(s, s.profile.value, c.service.value, c.endpoint) else c.endpoint.None?
  }

  // The i-th choice is a command, or a candidate whose service is ready now.
  predicate ChoiceReachable(s: AgentState, candidates: map<string, Capability>, step: StepChoice)
    requires s.profile.Some?
  {
    step.Candidate? && step.id in candidates ==> Reachable(s, candidates[step.id])
  }

  lemma StepInScopeExactly(s: AgentState, candidates: map<string, Capability>, choice: PlanChoice,
                           step: PlannedAction, i: nat)
    requires s.profile.Some? && WellFormedChoice(choice) && Registered(candidates) && i < |choice.steps|
    requires BuiltFrom(s, candidates, choice, step, i)
    ensures StepInScope(s, s.profile.value, step, s.iterationCount + i + 1) <==>
      ChoiceReachable(s, candidates, choice.steps[i])
    ensures ChoiceReachable(s, candidates, choice.steps[i]) ==>
      (step.action.service.Some? || step.action.endpoint.Some? ==> s.runtime.Some?)
  {
  }

  lemma StepsInScopeExactly(s: AgentState, candidates: map<string, Capability>, choice: PlanChoice,
                            steps: seq<PlannedAction>)
    requires s.profile.Some? && WellFormedChoice(choice) && Registered(candidates)
    requires |steps| == |choice.steps|
    requires forall i :: 0 <= i < |steps| ==> BuiltFrom(s, candidates, choice, steps[i], i)
    ensures (forall i :: 0 <= i < |steps| ==>
               StepInScope(s, s.profile.value, steps[i], s.iterationCount + i + 1)) <==>
      (forall i :: 0 <= i < |choice.steps| ==> ChoiceReachable(s, candidates, choice.steps[i]))
    ensures (forall i :: 0 <= i < |choice.steps| ==> ChoiceReachable(s, candidates, choice.steps[i])) ==>
      (RuntimeScoped(steps) ==> s.runtime.Some?)
  {
    forall i | 0 <= i < |steps|
      ensures StepInScope(s, s.profile.value, steps[i], s.iterationCount + i + 1) <==>
        ChoiceReachable(s, candidates, choice.steps[i])
      ensures ChoiceReachable(s, candidates, choice.steps[i]) ==>
        (steps[i].action.service.Some? || steps[i].action.endpoint.Some? ==> s.runtime.Some?)
    {
      StepInScopeExactly(s, candidates, choice, steps[i], i);
    }
  }

  predicate HeaderFrom(s: AgentState, choice: PlanChoice, plan: Plan)
    requires s.profile.Some?
  {
    && plan.target == s.profile.value.id && plan.environment == s.profile.value.environment
    && s.hypothesis.Some? && plan.hypothesis == s.hypothesis.value.id
    && plan.maxSteps == choice.maxSteps && 1 <= |plan.steps| <= plan.maxSteps
    && plan.session == if s.runtime.Some? then Some(s.runtime.value.session) else None
  }

  lemma HeaderInScopeExactly(s: AgentState, choice: PlanChoice, plan: Plan)
    requires s.profile.Some? && HeaderFrom(s, choice, plan)
    ensures HeaderInScope(plan, s) <==>
      choice.maxSteps <= RawLimit(s) - s.iterationCount && (RuntimeScoped(plan.steps) ==> s.runtime.Some?)
  {
  }

  // A composed plan passes the scope validator exactly when its declared
  // length fits the remaining budget and every service it names is ready now.
  lemma ChosenPlanInScope(s: AgentState, candidates: map<string, Capability>, choice: PlanChoice)
    requires s.profile.Some? && s.hypothesis.Some? && WellFormedChoice(choice) && Registered(candidates)
    requires ChosenPlan(s, candidates, choice).Some?
    ensures InScope(ChosenPlan(s, candidates, choice).value, s) <==>
      && choice.maxSteps <= RawLimit(s) - s.iterationCount
      && forall i :: 0 <= i < |choice.steps| ==> ChoiceReachable(s, candidates, choice.steps[i])
  {
    var plan := ChosenPlan(s, candidates, choice).value;
    PlannedStepsAre(s, candidates, choice, |choice.steps|);
    HeaderInScopeExactly(s, choice, plan);
    StepsInScopeExactly(s, candidates, choice, plan.steps);
  }

  // ---- the planner both modes share ----

  // `build_plan`: the language model's plan where there is a valid one, the
  // deterministic plan otherwise; absent when even that cannot be built.
  function PlanFor(mode: Mode, s: AgentState, choice: Option<PlanChoice>, candidates: map<string, Capability>,
                   located: Option<Parameters>): Option<Plan>
    requires s.profile.Some? && s.hypothesis.Some?
  {
    if mode == LLM && choice.Some? && WellFormedChoice(choice.value) && ChosenPlan(s, candidates, choice.value).Some?
    then ChosenPlan(s, candidates, choice.value)
    else DeterministicPlan(s, located)
  }

  // Every candidate of the choice is known, and the iterations count from one.
  predicate AllKnown(s: AgentState, candidates: map<string, Capability>, choice: PlanChoice, n: nat)
    requires n <= |choice.steps|
  {
    && (n > 0 ==> s.iterationCount >= 0)
    && forall i :: 0 <= i < n && choice.steps[i].Candidate? ==> choice.steps[i].id in candidates
  }

  lemma {:induction false} StepsAreBuiltExactly(s: AgentState, candidates: map<string, Capability>, choice: PlanChoice,
                                                n: nat)
    requires s.profile.Some? && n <= |choice.steps|
    ensures PlannedSteps(s, candidates, choice, n).Some? <==> AllKnown(s, candidates, choice, n)
  {
    if n > 0 {
      StepsAreBuiltExactly(s, candidates, choice, n - 1);
    }
  }

  // A model's answer of the right shape is composed exactly if it keeps to its
  // own length, names no candidate twice and only known ones.
  lemma ComposedExactly(s: AgentState, candidates: map<string, Capability>, choice: PlanChoice)
    requires s.profile.Some? && s.hypothesis.Some?
    ensures ChosenPlan(s, candidates, choice).Some? <==>
      && |choice.steps| <= choice.maxSteps
      && AllKnown(s, candidates, choice, |choice.steps|)
      && (forall i, j :: 0 <= i < j < |choice.steps| && choice.steps[i].Candidate? && choice.steps[j].Candidate? ==>
            choice.steps[i].id != choice.steps[j].id)
    ensures ChosenPlan(s, candidates, choice).Some? ==>
      var plan := ChosenPlan(s, candidates, choice).value;
      && plan == Plan(s.profile.value.id, s.profile.value.environment, s.hypothesis.value.id, choice.maxSteps,
                      if s.runtime.None? then None else Some(s.runtime.value.session), plan.steps)
      && |plan.steps| == |choice.steps|
      && forall i :: 0 <= i < |plan.steps| ==> BuiltFrom(s, candidates, choice, plan.steps[i], i)
  {
    StepsAreBuiltExactly(s, candidates, choice, |choice.steps|);
    if ChosenPlan(s, candidates, choice).Some? {
      PlannedStepsAre(s, candidates, choice, |choice.steps|);
    }
  }

  // The shape of an answer, as its schema has it.
  predicate Shaped(choice: PlanChoice) {
    && 0 < choice.maxSteps < 9 && 0 < |choice.steps| < 9
    && forall i :: 0 <= i < |choice.steps| ==>
         && 0 < |choice.steps[i].expected| < 1001
         && match choice.steps[i]
            case Candidate(_, _) => true
            case Command(argv, cwd, purpose, _) =>
              CommandBounded(map[Argv := TextList(argv), Cwd := Text(cwd)]) && 0 < |purpose| < 1001
  }

  lemma ShapedMeans(choice: PlanChoice)
    ensures Shaped(choice) <==> WellFormedChoice(choice)
  {
    forall i | 0 <= i < |choice.steps| && choice.steps[i].Command?
      ensures CommandParameters(choice.steps[i]) ==
        map[Argv := TextList(choice.steps[i].argv), Cwd := Text(choice.steps[i].cwd)]
    {
    }
    if Shaped(choice) {
      assert 1 <= choice.maxSteps <= 8 && 1 <= |choice.steps| <= 8;
      assert forall i :: 0 <= i < |choice.steps| ==> 1 <= |choice.steps[i].expected| <= 1000;
      forall i | 0 <= i < |choice.steps| && choice.steps[i].Command?
        ensures CommandBounded(CommandParameters(choice.steps[i]))
      {
      }
      assert forall i :: 0 <= i < |choice.steps| && choice.steps[i].Command? ==> 1 <= |choice.steps[i].purpose| <= 1000;
      assert WellFormedChoice(choice);
    }
    if WellFormedChoice(choice) {
      forall i | 0 <= i < |choice.steps|
        ensures 0 < |choice.steps[i].expected| < 1001
        ensures match choice.steps[i]
          case Candidate(_, _) => true
          case Command(argv, cwd, purpose, _) =>
            CommandBounded(map[Argv := TextList(argv), Cwd := Text(cwd)]) && 0 < |purpose| < 1001
      {
        if choice.steps[i].Command? {
          assert CommandBounded(CommandParameters(choice.steps[i]));
        }
      }
    }
  }

  // The model's plan is taken exactly where there is an answer of the right shape
  // that can be composed; the deterministic plan stands in for any other.
  lemma ModelIsHeeded(mode: Mode, s: AgentState, choice: Option<PlanChoice>, candidates: map<string, Capability>,
                      located: Option<Parameters>)
    requires s.profile.Some? && s.hypothesis.Some?
    ensures PlanFor(mode, s, choice, candidates, located) ==
      if mode != Stub && choice.Some? && Shaped(choice.value) && ChosenPlan(s, candidates, choice.value).Some?
      then ChosenPlan(s, candidates, choice.value)
      else DeterministicPlan(s, located)
  {
    if choice.Some? {
      ShapedMeans(choice.value);
    }
  }

  // Every plan starts with the next iteration's action, on the agent's target.
  lemma PlanStartsNext(mode: Mode, s: AgentState, choice: Option<PlanChoice>, candidates: map<string, Capability>,
                       located: Option<Parameters>)
    requires s.profile.Some? && s.hypothesis.Some?
    requires PlanFor(mode, s, choice, candidates, located).Some?
    ensures var plan := PlanFor(mode, s, choice, candidates, located).value;
      && Consistent(plan)
      && s.iterationCount >= 0
      && plan.steps[0].action.iteration == s.iterationCount + 1
      && plan.steps[0].action.id == BuildActionId(s.finding.id, s.iterationCount + 1)
  {
    if PlanFor(mode, s, choice, candidates, located) == DeterministicPlan(s, located) {
      DeterministicPlanInScope(s, located);
    } else {
      ChosenPlanConsistent(s, candidates, choice.value);
      PlannedStepsAre(s, candidates, choice.value, |choice.value.steps|);
      assert BuiltFrom(s, candidates, choice.value, PlanFor(mode, s, choice, candidates, located).value.steps[0], 0);
    }
  }
}
