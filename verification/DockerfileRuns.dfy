/**
  How a run over a Dockerfile ends: the status of its report, whichever way the
  agent loop takes, for every run that inspects one file.
 */
module DockerfileRuns {
  import opened Wrappers
  import opened AgentData
  import opened EvidenceGuard
  import opened AgentGraph
  import opened AgentRuns
  import opened AgentVerdicts
  import opened DockerfileUser

  // An inspection that did not come to a clean end.
  predicate Broken(at: Site) {
    && at.node == Reevaluate && Ready(at)
    && at.state.action.value.tool == InspectDockerfileUser
    && !Succeeded(at.state.execution.value)
  }

  // A clean run whose record is not read back, or whose output does not parse.
  predicate Mute(at: Site) {
    && at.node == Reevaluate && Ready(at)
    && at.state.action.value.tool == InspectDockerfileUser
    && Succeeded(at.state.execution.value)
    && !(Belongs(at.read, at.state.action.value, at.state.execution.value)
         && Clean(at.read.value) && at.read.value.payload.Some?)
  }

  ghost predicate Told(sites: nat -> Site, raw: seq<string>, n: nat) {
    exists k: nat :: k < n && Inspected(sites(k), raw)
  }

  predicate BlockedAt(sites: nat -> Site, k: nat) {
    sites(k).node == ValidateAction && sites(k + 1).node == BuildReport
  }

  // A validator refused an action.
  ghost predicate Refused(sites: nat -> Site, n: nat) {
    exists k: nat :: k < n && BlockedAt(sites, k)
  }

  ghost predicate OnlyInspects(sites: nat -> Site, raw: seq<string>, n: nat) {
    forall k: nat :: k < n && sites(k).node == Reevaluate ==>
      Inspected(sites(k), raw) || Broken(sites(k)) || Mute(sites(k))
  }

  // What the report must say after these sites, for what the file says.
  function Due(told: bool, refused: bool, root: bool, other: bool): Status {
    if told && root then Status.Verdict(Confirmed)
    else if told && other then Status.Verdict(Rejected)
    else if refused then PolicyBlocked
    else Status.Verdict(Inconclusive)
  }

  // The file speaks for one side at most, and no refusal came after it spoke.
  predicate Coherent(told: bool, refused: bool, root: bool, other: bool) {
    told && (root || other) ==> !refused && !(root && other)
  }

  // Where the run stands: its fate is sealed once it reports, and open before.
  predicate OnCourse(at: Site, told: bool, refused: bool, root: bool, other: bool) {
    match at.node
    case Raised => true
    case BuildReport => Coherent(told, refused, root, other) && at.state.status == Due(told, refused, root, other)
    case End =>
      Coherent(told, refused, root, other) && at.report.Some? && at.report.value.status == Due(told, refused, root, other)
    case _ => !refused && (told ==> !root && !other)
  }

  lemma InspectionSpeaks(c: Settings, w: World, at: Site, raw: seq<string>)
    requires Inspected(at, raw) && OwnEvidence(at) && !w.fault
    ensures var root, other := RunsAsRoot(ParseAll(raw)), RunsAsOther(ParseAll(raw));
      var next := Step(c, w, at);
      && !(root && other)
      && (if next.node == BuildReport then next.state.status == Due(true, false, root, other)
          else next.node == GuardBudget && !root && !other)
  {
    InspectionDecides(c, w, at, raw);
    VerdictMeansUser(raw);
  }

  lemma InspectionOnCourse(c: Settings, w: World, at: Site, told: bool, refused: bool, raw: seq<string>)
    requires Inspected(at, raw) && OwnEvidence(at)
    requires OnCourse(at, told, refused, RunsAsRoot(ParseAll(raw)), RunsAsOther(ParseAll(raw)))
    ensures OnCourse(Step(c, w, at), true, refused, RunsAsRoot(ParseAll(raw)), RunsAsOther(ParseAll(raw)))
  {
    if w.fault {
      assert Step(c, w, at).node == Raised;
    } else {
      InspectionSpeaks(c, w, at, raw);
    }
  }

  lemma BrokenOnCourse(c: Settings, w: World, at: Site, told: bool, refused: bool, root: bool, other: bool)
    requires Broken(at) && OnCourse(at, told, refused, root, other)
    ensures OnCourse(Step(c, w, at), told, refused, root, other)
  {
  }

  // A mute record leaves no terminal verdict behind.
  lemma MuteDecidesNothing(at: Site)
    requires Mute(at) && OwnEvidence(at)
    ensures TerminalVerdicts(at.state.evidence, at.state.action.value.id) == {}
  {
    var s := at.state;
    var a, e := s.action.value, s.execution.value;
    assert Collected(a, e, at.read) == [BuildEvidence(a, e, at.read)];
    forall item | item in s.evidence && item.actionId == a.id
      ensures !Weighs(item, a.id)
    {
      assert item in Collected(a, e, at.read);
    }
  }

  lemma MuteOnCourse(c: Settings, w: World, at: Site, told: bool, refused: bool, root: bool, other: bool)
    requires Mute(at) && OwnEvidence(at) && OnCourse(at, told, refused, root, other)
    ensures OnCourse(Step(c, w, at), told, refused, root, other)
  {
    MuteDecidesNothing(at);
    if w.fault {
      assert Step(c, w, at).node == Raised;
    } else {
      JudgedByTheGuard(c, w, at, Inconclusive);
    }
  }

  lemma ValidationOnCourse(c: Settings, w: World, at: Site, told: bool, root: bool, other: bool)
    requires Ready(at) && at.node == ValidateAction && OnCourse(at, told, false, root, other)
    ensures OnCourse(Step(c, w, at), told, Step(c, w, at).node == BuildReport, root, other)
  {
  }

  lemma OtherwiseOnCourse(c: Settings, w: World, at: Site, told: bool, refused: bool, root: bool, other: bool)
    requires Ready(at) && at.node != Reevaluate && at.node != ValidateAction && OnCourse(at, told, refused, root, other)
    ensures OnCourse(Step(c, w, at), told, refused, root, other)
  {
  }

  lemma StepOnCourse(c: Settings, w: World, at: Site, told: bool, refused: bool, raw: seq<string>)
    requires Ready(at) && OwnEvidence(at)
    requires OnCourse(at, told, refused, RunsAsRoot(ParseAll(raw)), RunsAsOther(ParseAll(raw)))
    requires at.node == Reevaluate ==> Inspected(at, raw) || Broken(at) || Mute(at)
    ensures OnCourse(Step(c, w, at), told || Inspected(at, raw),
                     refused || (at.node == ValidateAction && Step(c, w, at).node == BuildReport),
                     RunsAsRoot(ParseAll(raw)), RunsAsOther(ParseAll(raw)))
  {
    var root, other := RunsAsRoot(ParseAll(raw)), RunsAsOther(ParseAll(raw));
    if Inspected(at, raw) {
      InspectionOnCourse(c, w, at, told, refused, raw);
    } else if Mute(at) {
      MuteOnCourse(c, w, at, told, refused, root, other);
    } else if at.node == Reevaluate {
      BrokenOnCourse(c, w, at, told, refused, root, other);
    } else if at.node == ValidateAction {
      ValidationOnCourse(c, w, at, told, root, other);
    } else {
      OtherwiseOnCourse(c, w, at, told, refused, root, other);
    }
  }

  lemma OneMoreTold(sites: nat -> Site, raw: seq<string>, n: nat)
    ensures Told(sites, raw, n + 1) <==> Told(sites, raw, n) || Inspected(sites(n), raw)
    ensures Refused(sites, n + 1) <==> Refused(sites, n) || BlockedAt(sites, n)
    ensures !Told(sites, raw, 0) && !Refused(sites, 0)
  {
  }

  ghost predicate StandsOnCourse(sites: nat -> Site, raw: seq<string>, n: nat) {
    OnCourse(sites(n), Told(sites, raw, n), Refused(sites, n), RunsAsRoot(ParseAll(raw)), RunsAsOther(ParseAll(raw)))
  }

  lemma NextOnCourse(c: Settings, w: World, sites: nat -> Site, raw: seq<string>, n: nat)
    requires StandsOnCourse(sites, raw, n) && Ready(sites(n)) && OwnEvidence(sites(n))
    requires sites(n + 1) == Step(c, w, sites(n))
    requires sites(n).node == Reevaluate ==> Inspected(sites(n), raw) || Broken(sites(n)) || Mute(sites(n))
    ensures StandsOnCourse(sites, raw, n + 1)
  {
    StepOnCourse(c, w, sites(n), Told(sites, raw, n), Refused(sites, n), raw);
    OneMoreTold(sites, raw, n);
  }

  lemma {:induction false} SitesOnCourse(c: Settings, initial: AgentState, worlds: nat -> World, raw: seq<string>, n: nat)
    requires Unused(initial) && OnlyInspects(Sites(c, initial, worlds), raw, n)
    ensures StandsOnCourse(Sites(c, initial, worlds), raw, n)
  {
    var sites := Sites(c, initial, worlds);
    if n == 0 {
      OneMoreTold(sites, raw, 0);
    } else {
      SitesOnCourse(c, initial, worlds, raw, n - 1);
      RunFollows(c, initial, worlds);
      SitesKeepOrigin(c, initial, worlds, sites, n - 1);
      NextOnCourse(c, worlds(n - 1), sites, raw, n - 1);
    }
  }

  // Every run that reports and judged nothing but inspections of one file: it
  // reports confirmed exactly when an inspection came to a clean end, was read
  // back and the file runs as root, rejected exactly when one did and was and the
  // file runs as another user; every other way out, limit and clock included, is
  // inconclusive, except a validator's refusal.
  lemma RunReportsWhatTheFileSays(c: Settings, initial: AgentState, worlds: nat -> World, n: nat, raw: seq<string>)
    requires Unused(initial) && OnlyInspects(Sites(c, initial, worlds), raw, n)
    requires Run(c, initial, worlds, n).node == End
    ensures Run(c, initial, worlds, n).report.Some?
    ensures var status, sites := Run(c, initial, worlds, n).report.value.status, Sites(c, initial, worlds);
      var told, refused := Told(sites, raw, n), Refused(sites, n);
      && (status == Status.Verdict(Confirmed) <==> told && RunsAsRoot(ParseAll(raw)))
      && (status == Status.Verdict(Rejected) <==> told && RunsAsOther(ParseAll(raw)))
      && (status == PolicyBlocked <==> refused)
      && (status == Status.Verdict(Inconclusive) <==>
            !refused && !(told && (RunsAsRoot(ParseAll(raw)) || RunsAsOther(ParseAll(raw)))))
  {
    var sites := Sites(c, initial, worlds);
    SitesOnCourse(c, initial, worlds, raw, n);
  }
}
