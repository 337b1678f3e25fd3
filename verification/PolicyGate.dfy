/** The deterministic policy gate of validator/validator.py. */
module PolicyGate {
  import opened Wrappers
  import opened AgentData
  import ActionIds
  import Text

  datatype Contract = Contract(
    allowedKeys: set<Name>,
    requiredKeys: set<Name>,
    enumValues: map<Name, set<Value>>,
    maxStringLengths: map<Name, int>,
    stringLists: set<Name>,
    maxListLengths: map<Name, int>,
    maxListItemLengths: map<Name, int>)

  datatype Policy = Policy(
    version: Option<int>,
    targets: set<string>,
    environments: set<string>,
    tools: set<Tool>,
    contracts: map<Tool, Contract>,
    maxIterations: int,
    auditRequired: bool)

  // What the validator knows of the registered targets.
  datatype Trust = Trust(environments: map<string, string>, artifacts: map<string, set<string>>)

  function TrustIn(profile: Profile): Trust {
    Trust(map[profile.id := profile.environment], map[profile.id := profile.artifacts])
  }

  datatype Check =
    | VersionSupported
    | ActionIdValid
    | TargetAllowed
    | EnvironmentAllowed
    | TargetEnvironmentMatches
    | ToolAllowed
    | IterationWithinLimit
    | PurposePresent
    | ExpectedEvidencePresent
    | ContractDefined
    | KeysAllowed
    | ValuesValid
    | ArtifactsRegistered
    | AuditRequired

  // The order in which the checks are made.
  function Rank(check: Check): nat {
    match check
    case VersionSupported => 0
    case ActionIdValid => 1
    case TargetAllowed => 2
    case EnvironmentAllowed => 3
    case TargetEnvironmentMatches => 4
    case ToolAllowed => 5
    case IterationWithinLimit => 6
    case PurposePresent => 7
    case ExpectedEvidencePresent => 8
    case ContractDefined => 9
    case KeysAllowed => 10
    case ValuesValid => 11
    case ArtifactsRegistered => 12
    case AuditRequired => 13
  }

  predicate StringListFits(c: Contract, name: Name, value: Value) {
    && value.TextList?
    && (name in c.maxListLengths ==> |value.items| <= c.maxListLengths[name])
    && (forall item :: item in value.items ==>
          && item != "" && '\0' !in item
          && (name in c.maxListItemLengths && c.maxListItemLengths[name] != 0 ==>
                |item| <= c.maxListItemLengths[name]))
  }

  predicate EnumsFit(c: Contract, p: Parameters) {
    forall name :: name in c.enumValues && name in p ==> p[name] in c.enumValues[name]
  }

  predicate LengthsFit(c: Contract, p: Parameters) {
    forall name :: name in c.maxStringLengths && name in p ==>
      p[name].Text? && |p[name].text| <= c.maxStringLengths[name]
  }

  predicate ListsFit(c: Contract, p: Parameters) {
    forall name :: name in c.stringLists && name in p ==> StringListFits(c, name, p[name])
  }

  predicate ValuesFit(c: Contract, p: Parameters) {
    EnumsFit(c, p) && LengthsFit(c, p) && ListsFit(c, p)
  }

  // `artifact_id`, or a name that ends in `_artifact_id`.
  predicate NamesArtifact(name: Name) {
    match name
    case Argv | Cwd | Message | TestOutcome | Field => false
    case Other(text) => |text| >= 12 && text[|text| - 12..] == "_artifact_id"
    case _ => true
  }

  predicate ArtifactsKnown(registered: set<string>, p: Parameters) {
    forall name :: name in p && NamesArtifact(name) ==> p[name].Text? && p[name].text in registered
  }

  // What each check demands, independently of the order and of the others.
  predicate Passes(policy: Policy, trust: Trust, a: Action, check: Check) {
    match check
    case VersionSupported => policy.version == Some(1)
    case ActionIdValid => ActionIds.MatchesActionId(a.id)
    case TargetAllowed =>
      a.target in policy.targets || ("registered" in policy.targets && a.target in trust.environments)
    case EnvironmentAllowed => a.environment in policy.environments
    case TargetEnvironmentMatches =>
      a.target in trust.environments ==> a.environment == trust.environments[a.target]
    case ToolAllowed => a.tool in policy.tools
    case IterationWithinLimit => 1 <= policy.maxIterations && a.iteration <= policy.maxIterations
    case PurposePresent => !Text.IsBlank(a.purpose)
    case ExpectedEvidencePresent => !Text.IsBlank(a.expectedEvidence)
    case ContractDefined => a.tool in policy.contracts
    case KeysAllowed =>
      a.tool in policy.contracts ==>
        policy.contracts[a.tool].requiredKeys <= a.parameters.Keys <= policy.contracts[a.tool].allowedKeys
    case ValuesValid => a.tool in policy.contracts ==> ValuesFit(policy.contracts[a.tool], a.parameters)
    case ArtifactsRegistered =>
      a.target in trust.artifacts ==> ArtifactsKnown(trust.artifacts[a.target], a.parameters)
    case AuditRequired => policy.auditRequired
  }

  predicate PassesBefore(policy: Policy, trust: Trust, a: Action, k: nat) {
    forall check: Check :: Rank(check) < k ==> Passes(policy, trust, a, check)
  }

  predicate Permitted(policy: Policy, trust: Trust, a: Action) {
    forall check: Check :: Passes(policy, trust, a, check)
  }

  // The value of a parameter is one of those allowed, within its length, and a list
  // of proper items where it has to be.
  predicate ValueAllowed(c: Contract, name: Name, value: Value) {
    && (name in c.enumValues ==> value in c.enumValues[name])
    && (name in c.maxStringLengths ==> value.Text? && |value.text| <= c.maxStringLengths[name])
    && (name in c.stringLists ==>
          && value.TextList?
          && (name in c.maxListLengths ==> |value.items| <= c.maxListLengths[name])
          && forall i :: 0 <= i < |value.items| ==>
               && 0 < |value.items[i]| && (forall j :: 0 <= j < |value.items[i]| ==> value.items[i][j] as int != 0)
               && (name in c.maxListItemLengths && c.maxListItemLengths[name] != 0 ==>
                     |value.items[i]| <= c.maxListItemLengths[name]))
  }

  ghost predicate CallsForArtifact(name: Name) {
    || name in {ArtifactId, FrontendArtifactId, ModelArtifactId, SerializerArtifactId, ViewArtifactId}
    || exists stem :: name == Other(stem + "_artifact_id")
  }

  lemma CallsForArtifactMeans(name: Name)
    ensures CallsForArtifact(name) <==> NamesArtifact(name)
  {
    if name.Other? && NamesArtifact(name) {
      assert name.name == name.name[..|name.name| - 12] + "_artifact_id";
    }
    if stem :| name == Other(stem + "_artifact_id") {
      assert name.name[|name.name| - 12..] == "_artifact_id";
    }
  }

  lemma ValuesFitMeans(c: Contract, p: Parameters)
    ensures ValuesFit(c, p) <==> forall name :: name in p ==> ValueAllowed(c, name, p[name])
  {
    if ValuesFit(c, p) {
      forall name | name in p
        ensures ValueAllowed(c, name, p[name])
      {
        if name in c.stringLists {
          assert StringListFits(c, name, p[name]);
        }
      }
    }
    if forall name :: name in p ==> ValueAllowed(c, name, p[name]) {
      forall name | name in c.stringLists && name in p
        ensures StringListFits(c, name, p[name])
      {
        assert ValueAllowed(c, name, p[name]);
      }
    }
  }

  // What the policy asks of an action's identity, place and texts.
  ghost predicate ScopeHolds(policy: Policy, trust: Trust, a: Action) {
    && policy.version == Some(1)
    && ActionIds.MatchesActionId(a.id)
    && (a.target in policy.targets || ("registered" in policy.targets && a.target in trust.environments))
    && a.environment in policy.environments
    && (a.target in trust.environments ==> trust.environments[a.target] == a.environment)
    && a.tool in policy.tools
    && 1 <= policy.maxIterations && a.iteration <= policy.maxIterations
    && (exists i :: 0 <= i < |a.purpose| && !Text.IsSpace(a.purpose[i]))
    && (exists i :: 0 <= i < |a.expectedEvidence| && !Text.IsSpace(a.expectedEvidence[i]))
  }

  // What it asks of its parameters: the tool's contract, and registered artifacts.
  ghost predicate ParametersHold(policy: Policy, trust: Trust, a: Action) {
    && a.tool in policy.contracts
    && var c := policy.contracts[a.tool];
    && (forall name :: name in c.requiredKeys ==> name in a.parameters)
    && (forall name :: name in a.parameters ==> name in c.allowedKeys && ValueAllowed(c, name, a.parameters[name]))
    && (a.target in trust.artifacts ==> forall name :: name in a.parameters && CallsForArtifact(name) ==>
          a.parameters[name].Text? && a.parameters[name].text in trust.artifacts[a.target])
  }

  lemma ScopeChecks(policy: Policy, trust: Trust, a: Action)
    ensures ScopeHolds(policy, trust, a) <==>
      && Passes(policy, trust, a, VersionSupported) && Passes(policy, trust, a, ActionIdValid)
      && Passes(policy, trust, a, TargetAllowed) && Passes(policy, trust, a, EnvironmentAllowed)
      && Passes(policy, trust, a, TargetEnvironmentMatches) && Passes(policy, trust, a, ToolAllowed)
      && Passes(policy, trust, a, IterationWithinLimit) && Passes(policy, trust, a, PurposePresent)
      && Passes(policy, trust, a, ExpectedEvidencePresent)
  {
  }

  lemma ParameterChecks(policy: Policy, trust: Trust, a: Action)
    ensures ParametersHold(policy, trust, a) <==>
      && Passes(policy, trust, a, ContractDefined) && Passes(policy, trust, a, KeysAllowed)
      && Passes(policy, trust, a, ValuesValid) && Passes(policy, trust, a, ArtifactsRegistered)
  {
    if a.tool in policy.contracts {
      ValuesFitMeans(policy.contracts[a.tool], a.parameters);
    }
    forall name: Name
      ensures CallsForArtifact(name) <==> NamesArtifact(name)
    {
      CallsForArtifactMeans(name);
    }
  }

  lemma AllChecks(policy: Policy, trust: Trust, a: Action)
    ensures Permitted(policy, trust, a) <==>
      && Passes(policy, trust, a, VersionSupported) && Passes(policy, trust, a, ActionIdValid)
      && Passes(policy, trust, a, TargetAllowed) && Passes(policy, trust, a, EnvironmentAllowed)
      && Passes(policy, trust, a, TargetEnvironmentMatches) && Passes(policy, trust, a, ToolAllowed)
      && Passes(policy, trust, a, IterationWithinLimit) && Passes(policy, trust, a, PurposePresent)
      && Passes(policy, trust, a, ExpectedEvidencePresent) && Passes(policy, trust, a, ContractDefined)
      && Passes(policy, trust, a, KeysAllowed) && Passes(policy, trust, a, ValuesValid)
      && Passes(policy, trust, a, ArtifactsRegistered) && Passes(policy, trust, a, AuditRequired)
  {
  }

  // The policy permits an action exactly if its scope and its parameters hold and
  // the audit is required.
  lemma PermittedMeans(policy: Policy, trust: Trust, a: Action)
    ensures Permitted(policy, trust, a) <==>
      ScopeHolds(policy, trust, a) && ParametersHold(policy, trust, a) && policy.auditRequired
  {
    AllChecks(policy, trust, a);
    ScopeChecks(policy, trust, a);
    ParameterChecks(policy, trust, a);
  }

  // `check` is broken and everything before it in the order holds.
  predicate FirstBroken(policy: Policy, trust: Trust, a: Action, check: Check) {
    !Passes(policy, trust, a, check) && PassesBefore(policy, trust, a, Rank(check))
  }

  function Validated(policy: Policy, trust: Trust, a: Action): Validation {
    Validation(Permitted(policy, trust, a), a.id)
  }

  // The three loops over the values of `_validate_parameters`.
  method CheckEnums(c: Contract, p: Parameters) returns (ok: bool)
    ensures ok <==> EnumsFit(c, p)
  {
    var names := c.enumValues.Keys;
    while names != {}
      invariant names <= c.enumValues.Keys
      invariant forall name :: name in c.enumValues.Keys - names && name in p ==> p[name] in c.enumValues[name]
      decreases |names|
    {
      var name :| name in names;
      if name in p && p[name] !in c.enumValues[name] {
        return false;
      }
      names := names - {name};
    }
    ok := true;
  }

  method CheckLengths(c: Contract, p: Parameters) returns (ok: bool)
    ensures ok <==> LengthsFit(c, p)
  {
    var names := c.maxStringLengths.Keys;
    while names != {}
      invariant names <= c.maxStringLengths.Keys
      invariant forall name :: name in c.maxStringLengths.Keys - names && name in p ==>
        p[name].Text? && |p[name].text| <= c.maxStringLengths[name]
      decreases |names|
    {
      var name :| name in names;
      if name in p && (!p[name].Text? || |p[name].text| > c.maxStringLengths[name]) {
        return false;
      }
      names := names - {name};
    }
    ok := true;
  }

  method CheckLists(c: Contract, p: Parameters) returns (ok: bool)
    ensures ok <==> ListsFit(c, p)
  {
    var names := c.stringLists;
    while names != {}
      invariant names <= c.stringLists
      invariant forall name :: name in c.stringLists - names && name in p ==> StringListFits(c, name, p[name])
      decreases |names|
    {
      var name :| name in names;
      if name in p && !StringListFits(c, name, p[name]) {
        return false;
      }
      names := names - {name};
    }
    ok := true;
  }

  // `_validate_registered_artifacts`
  method ArtifactsChecked(trust: Trust, a: Action) returns (ok: bool)
    ensures ok <==> (a.target in trust.artifacts ==> ArtifactsKnown(trust.artifacts[a.target], a.parameters))
  {
    if a.target !in trust.artifacts {
      return true;
    }
    var names := a.parameters.Keys;
    while names != {}
      invariant names <= a.parameters.Keys
      invariant forall name :: name in a.parameters.Keys - names && NamesArtifact(name) ==>
        a.parameters[name].Text? && a.parameters[name].text in trust.artifacts[a.target]
      decreases |names|
    {
      var name :| name in names;
      var value := a.parameters[name];
      if NamesArtifact(name) && !(value.Text? && value.text in trust.artifacts[a.target]) {
        return false;
      }
      names := names - {name};
    }
    ok := true;
  }

  lemma Onward(policy: Policy, trust: Trust, a: Action, check: Check)
    requires PassesBefore(policy, trust, a, Rank(check)) && Passes(policy, trust, a, check)
    ensures PassesBefore(policy, trust, a, Rank(check) + 1)
  {
  }

  // `_deny`
  function Denial(policy: Policy, trust: Trust, a: Action, check: Check): (v: Validation)
    requires FirstBroken(policy, trust, a, check)
    ensures v == Validated(policy, trust, a) && !v.approved
  {
    Validation(false, a.id)
  }

  // The checks on the action's identity and scope.
  method ScopeError(policy: Policy, trust: Trust, a: Action) returns (broken: Option<Check>)
    ensures broken.None? ==> PassesBefore(policy, trust, a, Rank(ContractDefined))
    ensures broken.Some? ==> FirstBroken(policy, trust, a, broken.value)
  {
    if policy.version != Some(1) {
      return Some(VersionSupported);
    }
    Onward(policy, trust, a, VersionSupported);
    if !ActionIds.MatchesActionId(a.id) {
      return Some(ActionIdValid);
    }
    Onward(policy, trust, a, ActionIdValid);
    if a.target !in policy.targets && !("registered" in policy.targets && a.target in trust.environments) {
      return Some(TargetAllowed);
    }
    Onward(policy, trust, a, TargetAllowed);
    if a.environment !in policy.environments {
      return Some(EnvironmentAllowed);
    }
    Onward(policy, trust, a, EnvironmentAllowed);
    if a.target in trust.environments && a.environment != trust.environments[a.target] {
      return Some(TargetEnvironmentMatches);
    }
    Onward(policy, trust, a, TargetEnvironmentMatches);
    if a.tool !in policy.tools {
      return Some(ToolAllowed);
    }
    Onward(policy, trust, a, ToolAllowed);
    if policy.maxIterations < 1 || a.iteration > policy.maxIterations {
      return Some(IterationWithinLimit);
    }
    Onward(policy, trust, a, IterationWithinLimit);
    if Text.IsBlank(a.purpose) {
      return Some(PurposePresent);
    }
    Onward(policy, trust, a, PurposePresent);
    if Text.IsBlank(a.expectedEvidence) {
      return Some(ExpectedEvidencePresent);
    }
    Onward(policy, trust, a, ExpectedEvidencePresent);
    broken := None;
  }

  // `_validate_parameters`, `_validate_registered_artifacts` and the audit rule.
  method ParameterError(policy: Policy, trust: Trust, a: Action) returns (broken: Option<Check>)
    requires PassesBefore(policy, trust, a, Rank(ContractDefined))
    ensures broken.None? ==> Permitted(policy, trust, a)
    ensures broken.Some? ==> FirstBroken(policy, trust, a, broken.value)
  {
    if a.tool !in policy.contracts {
      return Some(ContractDefined);
    }
    Onward(policy, trust, a, ContractDefined);
    var c := policy.contracts[a.tool];
    if !(a.parameters.Keys <= c.allowedKeys) || !(c.requiredKeys <= a.parameters.Keys) {
      return Some(KeysAllowed);
    }
    Onward(policy, trust, a, KeysAllowed);
    var enums := CheckEnums(c, a.parameters);
    var lengths := CheckLengths(c, a.parameters);
    var lists := CheckLists(c, a.parameters);
    if !enums || !lengths || !lists {
      return Some(ValuesValid);
    }
    Onward(policy, trust, a, ValuesValid);
    var artifacts := ArtifactsChecked(trust, a);
    if !artifacts {
      return Some(ArtifactsRegistered);
    }
    Onward(policy, trust, a, ArtifactsRegistered);
    if !policy.auditRequired {
      return Some(AuditRequired);
    }
    Onward(policy, trust, a, AuditRequired);
    broken := None;
  }

  // `validate`: the first broken check decides and is the one reported.
  method Validate(policy: Policy, trust: Trust, a: Action) returns (v: Validation, broken: Option<Check>)
    ensures v == Validated(policy, trust, a)
    ensures v.approved <==> broken.None?
    ensures broken.Some? ==> FirstBroken(policy, trust, a, broken.value)
  {
    broken := ScopeError(policy, trust, a);
    if broken.None? {
      broken := ParameterError(policy, trust, a);
    }
    v := if broken.Some? then Denial(policy, trust, a, broken.value) else Validation(true, a.id);
  }
}
