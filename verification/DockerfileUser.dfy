/**
  The Dockerfile capability from end to end: the line scan and the user
  classification of executor/worker.py, and the agent verdict they lead to.
 */
module DockerfileUser {
  import opened Wrappers
  import opened AgentData
  import opened EvidenceGuard
  import opened AgentGraph
  import opened AgentRuns
  import opened AgentVerdicts
  import Text

  // ---- one line ----

  datatype Instruction = Nothing | From(argument: string) | User(argument: string) | Another

  function StripLeft(s: string): string {
    if s != "" && Text.IsSpace(s[0]) then StripLeft(s[1..]) else s
  }

  function StripRight(s: string): string {
    if s != "" && Text.IsSpace(s[|s| - 1]) then StripRight(s[..|s| - 1]) else s
  }

  function Strip(s: string): string {
    StripRight(StripLeft(s))
  }

  // The length of the text before its first white space.
  function WordLength(s: string): (n: nat)
    ensures n <= |s|
  {
    if s == "" || Text.IsSpace(s[0]) then 0 else 1 + WordLength(s[1..])
  }

  function Parse(raw: string): Instruction {
    var line := Strip(raw);
    if line == "" || line[0] == '#' then Nothing
    else
      var n := WordLength(line);
      var instruction, argument := Text.Upper(line[..n]), Strip(line[n..]);
      if instruction == "FROM" then From(argument)
      else if instruction == "USER" then User(argument)
      else Another
  }

  function ParseAll(raw: seq<string>): (parsed: seq<Instruction>)
    ensures |parsed| == |raw|
  {
    seq(|raw|, i requires 0 <= i < |raw| => Parse(raw[i]))
  }

  // ---- what the text of one line means ----

  // t is s without the white space around it.
  ghost predicate IsTrimmed(s: string, t: string) {
    && (t != "" ==> !Text.IsSpace(t[0]) && !Text.IsSpace(t[|t| - 1]))
    && exists before, behind :: s == before + t + behind && Text.IsBlank(before) && Text.IsBlank(behind)
  }

  lemma {:induction false} LeftIsStripped(s: string)
    ensures var t := StripLeft(s);
      && |t| <= |s| && s[|s| - |t|..] == t && Text.IsBlank(s[..|s| - |t|])
      && (t != "" ==> !Text.IsSpace(t[0]))
  {
    if s != "" && Text.IsSpace(s[0]) {
      LeftIsStripped(s[1..]);
      var n := |s| - |StripLeft(s)|;
      assert s[..n] == [s[0]] + s[1..][..n - 1];
    }
  }

  lemma {:induction false} RightIsStripped(s: string)
    ensures var t := StripRight(s);
      && |t| <= |s| && s[..|t|] == t && Text.IsBlank(s[|t|..])
      && (t != "" ==> !Text.IsSpace(t[|t| - 1]))
  {
    if s != "" && Text.IsSpace(s[|s| - 1]) {
      var front := s[..|s| - 1];
      RightIsStripped(front);
      var n := |StripRight(s)|;
      assert s[n..] == front[n..] + [s[|s| - 1]];
    }
  }

  lemma StripTrims(s: string)
    ensures IsTrimmed(s, Strip(s))
  {
    var left, t := StripLeft(s), Strip(s);
    LeftIsStripped(s);
    RightIsStripped(left);
    assert s == s[..|s| - |left|] + t + left[|t|..];
  }

  // Where s is taken apart around t, t begins no later than any other u does.
  lemma TrimBounds(s: string, b: string, t: string, e: string, c: string, u: string, f: string)
    requires s == b + t + e && s == c + u + f && t != ""
    requires !Text.IsSpace(t[0]) && !Text.IsSpace(t[|t| - 1]) && Text.IsBlank(c) && Text.IsBlank(f)
    ensures u != "" && |c| <= |b| && |b| + |t| <= |c| + |u|
  {
    assert s[|b|] == t[0] && s[|b| + |t| - 1] == t[|t| - 1];
    assert forall i :: 0 <= i < |c| ==> s[i] == c[i];
    assert forall i :: 0 <= i < |f| ==> s[|c| + |u| + i] == f[i];
  }

  // A text can be trimmed in one way only.
  lemma TrimmedOnce(s: string, t: string, u: string)
    requires IsTrimmed(s, t) && IsTrimmed(s, u)
    ensures t == u
  {
    var b, e :| s == b + t + e && Text.IsBlank(b) && Text.IsBlank(e);
    var c, f :| s == c + u + f && Text.IsBlank(c) && Text.IsBlank(f);
    if t != "" {
      TrimBounds(s, b, t, e, c, u, f);
    }
    if u != "" {
      TrimBounds(s, c, u, f, b, t, e);
      assert t == s[|b|..|b| + |t|] && u == s[|c|..|c| + |u|];
    }
  }

  // The line starts with the word, in whatever case, and the rest is its argument.
  ghost predicate Instructs(line: string, word: string, argument: string) {
    exists given, rest :: && line == given + rest
                          && |given| == |word| && Text.Upper(given) == word
                          && (rest == "" || Text.IsSpace(rest[0])) && IsTrimmed(rest, argument)
  }

  // What a trimmed line says: nothing if it is empty or a comment, FROM or USER if
  // that is its first word.
  ghost predicate LineSays(line: string, p: Instruction) {
    var nothing := line == "" || line[0] == '#';
    match p
    case Nothing => nothing
    case From(argument) => Instructs(line, "FROM", argument)
    case User(argument) => Instructs(line, "USER", argument)
    case Another =>
      !nothing && forall argument :: !Instructs(line, "FROM", argument) && !Instructs(line, "USER", argument)
  }

  ghost predicate Reads(raw: string, p: Instruction) {
    exists line :: IsTrimmed(raw, line) && LineSays(line, p)
  }

  lemma {:induction false} WordIsFirst(s: string)
    ensures forall i :: 0 <= i < WordLength(s) ==> !Text.IsSpace(s[i])
    ensures WordLength(s) < |s| ==> Text.IsSpace(s[WordLength(s)])
  {
    if s != "" && !Text.IsSpace(s[0]) {
      WordIsFirst(s[1..]);
      forall i | 0 <= i < WordLength(s)
        ensures !Text.IsSpace(s[i])
      {
        if i > 0 {
          assert s[i] == s[1..][i - 1];
        }
      }
    }
  }

  lemma NoSpaceInside(word: string, given: string)
    requires word == "FROM" || word == "USER"
    requires |given| == |word| && Text.Upper(given) == word
    ensures forall i :: 0 <= i < |given| ==> !Text.IsSpace(given[i]) && given[i] != '#'
  {
    forall i | 0 <= i < |given|
      ensures !Text.IsSpace(given[i]) && given[i] != '#'
    {
      assert Text.Upper(given)[i] == word[i];
    }
  }

  lemma WordEnds(line: string, given: string, rest: string)
    requires line == given + rest && (rest == "" || Text.IsSpace(rest[0]))
    requires forall i :: 0 <= i < |given| ==> !Text.IsSpace(given[i])
    ensures WordLength(line) == |given| && line[..|given|] == given && line[|given|..] == rest
  {
    WordIsFirst(line);
    assert forall i :: 0 <= i < |given| ==> line[i] == given[i];
    assert rest != "" ==> line[|given|] == rest[0];
  }

  // The first word and the argument are what the line can be taken apart into.
  lemma InstructsExactly(line: string, word: string, argument: string)
    requires word == "FROM" || word == "USER"
    ensures Instructs(line, word, argument) <==>
      Text.Upper(line[..WordLength(line)]) == word && argument == Strip(line[WordLength(line)..])
  {
    var n := WordLength(line);
    if Text.Upper(line[..n]) == word && argument == Strip(line[n..]) {
      WordIsFirst(line);
      StripTrims(line[n..]);
      assert line == line[..n] + line[n..];
    }
    if Instructs(line, word, argument) {
      var given, rest :| && line == given + rest && |given| == |word| && Text.Upper(given) == word
                         && (rest == "" || Text.IsSpace(rest[0])) && IsTrimmed(rest, argument);
      NoSpaceInside(word, given);
      WordEnds(line, given, rest);
      StripTrims(rest);
      TrimmedOnce(rest, argument, Strip(rest));
    }
  }

  lemma ParseReads(raw: string)
    ensures Reads(raw, Parse(raw))
  {
    var line := Strip(raw);
    StripTrims(raw);
    forall argument: string
      ensures Instructs(line, "FROM", argument) <==>
        Text.Upper(line[..WordLength(line)]) == "FROM" && argument == Strip(line[WordLength(line)..])
      ensures Instructs(line, "USER", argument) <==>
        Text.Upper(line[..WordLength(line)]) == "USER" && argument == Strip(line[WordLength(line)..])
    {
      InstructsExactly(line, "FROM", argument);
      InstructsExactly(line, "USER", argument);
    }
    assert LineSays(line, Parse(raw));
  }

  lemma CommentSaysNothing(line: string, word: string, argument: string)
    requires word == "FROM" || word == "USER"
    requires Instructs(line, word, argument)
    ensures line != "" && line[0] != '#'
  {
    var given, rest :| && line == given + rest && |given| == |word| && Text.Upper(given) == word
                       && (rest == "" || Text.IsSpace(rest[0])) && IsTrimmed(rest, argument);
    NoSpaceInside(word, given);
    assert line[0] == given[0];
  }

  // Every line says one thing, and the parser finds it.
  lemma ParsedExactly(raw: string, p: Instruction)
    ensures Reads(raw, p) <==> p == Parse(raw)
  {
    ParseReads(raw);
    if Reads(raw, p) {
      var line :| IsTrimmed(raw, line) && LineSays(line, p);
      StripTrims(raw);
      TrimmedOnce(raw, line, Strip(raw));
      var argument := Strip(line[WordLength(line)..]);
      InstructsExactly(line, "FROM", argument);
      InstructsExactly(line, "USER", argument);
      if p.From? {
        InstructsExactly(line, "FROM", p.argument);
        CommentSaysNothing(line, "FROM", p.argument);
      } else if p.User? {
        InstructsExactly(line, "USER", p.argument);
        CommentSaysNothing(line, "USER", p.argument);
      }
    }
  }

  // ---- the scan ----

  datatype ScanError = MalformedFrom | MalformedUser | NoFrom

  // `line` counts from one.
  datatype FinalStage = FinalStage(stages: nat, user: Option<string>, line: Option<nat>)

  function Stages(lines: seq<Instruction>): nat {
    if lines == [] then 0
    else Stages(lines[..|lines| - 1]) + if lines[|lines| - 1].From? then 1 else 0
  }

  // Read backwards: the nearest USER, unless a FROM comes first.
  function FinalUser(lines: seq<Instruction>): Option<(string, nat)> {
    if lines == [] then None
    else
      match lines[|lines| - 1]
      case From(_) => None
      case User(argument) => Some((argument, |lines|))
      case _ => FinalUser(lines[..|lines| - 1])
  }

  predicate HasFrom(lines: seq<Instruction>) {
    exists i :: 0 <= i < |lines| && lines[i].From?
  }

  predicate Holds(lines: seq<Instruction>, user: Option<string>, line: Option<nat>) {
    match FinalUser(lines)
    case Some(found) => user == Some(found.0) && line == Some(found.1)
    case None => user.None? && line.None?
  }

  // The instruction lacks its argument where it counts: any FROM, and a USER
  // inside a stage.
  predicate BadAt(lines: seq<Instruction>, i: nat) {
    && i < |lines|
    && (lines[i] == From("") || (lines[i] == User("") && HasFrom(lines[..i])))
  }

  predicate WellFormed(lines: seq<Instruction>) {
    forall i: nat :: i < |lines| ==> !BadAt(lines, i)
  }

  // The last USER after the last FROM, said without recursion.
  predicate IsFinalUser(lines: seq<Instruction>, user: Option<string>) {
    exists f: nat :: f < |lines| && lines[f].From? && FinalFrom(lines, f) && UserAfter(lines, f, user)
  }

  predicate FinalFrom(lines: seq<Instruction>, f: nat)
    requires f < |lines|
  {
    forall j :: f < j < |lines| ==> !lines[j].From?
  }

  predicate UserAfter(lines: seq<Instruction>, f: nat, user: Option<string>)
    requires f < |lines|
  {
    match user
    case None => forall j :: f < j < |lines| ==> !lines[j].User?
    case Some(argument) =>
      exists u :: f < u < |lines| && lines[u] == User(argument) && forall j :: u < j < |lines| ==> !lines[j].User?
  }

  // Reading backwards finds exactly the last USER after the last FROM.
  lemma {:induction false} BackwardsIsLast(lines: seq<Instruction>, f: nat)
    requires f < |lines| && lines[f].From? && FinalFrom(lines, f)
    ensures UserAfter(lines, f, if FinalUser(lines).Some? then Some(FinalUser(lines).value.0) else None)
  {
    var n := |lines| - 1;
    var front := lines[..n];
    if f < n && !lines[n].User? {
      assert FinalFrom(front, f);
      BackwardsIsLast(front, f);
      if FinalUser(front).Some? {
        var u :| f < u < n && front[u] == User(FinalUser(front).value.0) && forall j :: u < j < n ==> !front[j].User?;
        assert lines[u] == front[u] && forall j :: u < j < |lines| ==> !lines[j].User?;
      } else {
        assert forall j :: f < j < |lines| ==> !lines[j].User?;
      }
    }
  }

  lemma FinalUserIsLast(lines: seq<Instruction>, user: Option<string>)
    requires HasFrom(lines)
    ensures IsFinalUser(lines, user) <==>
      user == if FinalUser(lines).Some? then Some(FinalUser(lines).value.0) else None
  {
    var f := LastFrom(lines);
    BackwardsIsLast(lines, f);
    var found := if FinalUser(lines).Some? then Some(FinalUser(lines).value.0) else None;
    assert IsFinalUser(lines, found);
    if IsFinalUser(lines, user) {
      var g: nat :| g < |lines| && lines[g].From? && FinalFrom(lines, g) && UserAfter(lines, g, user);
      assert g == f;
      LastUserIsUnique(lines, f, user, found);
    }
  }

  lemma LastUserIsUnique(lines: seq<Instruction>, f: nat, a: Option<string>, b: Option<string>)
    requires f < |lines| && UserAfter(lines, f, a) && UserAfter(lines, f, b)
    ensures a == b
  {
  }

  function LastFrom(lines: seq<Instruction>): (f: nat)
    requires HasFrom(lines)
    ensures f < |lines| && lines[f].From? && FinalFrom(lines, f)
  {
    if lines[|lines| - 1].From? then |lines| - 1
    else
      assert HasFrom(lines[..|lines| - 1]) by {
        var i :| 0 <= i < |lines| && lines[i].From?;
        assert lines[..|lines| - 1][i].From?;
      }
      LastFrom(lines[..|lines| - 1])
  }

  // The line reported with the user is its own, counted from one.
  lemma {:induction false} LineIsItsOwn(lines: seq<Instruction>)
    ensures match FinalUser(lines)
      case None => true
      case Some((user, n)) =>
        1 <= n <= |lines| && lines[n - 1] == User(user) && forall j :: n <= j < |lines| ==> !lines[j].User?
  {
    if lines != [] {
      var front := lines[..|lines| - 1];
      LineIsItsOwn(front);
      if FinalUser(front).Some? && FinalUser(lines) == FinalUser(front) {
        assert front[FinalUser(front).value.1 - 1] == lines[FinalUser(front).value.1 - 1];
      }
    }
  }

  // The stages among the first n lines are those that say FROM.
  lemma {:induction false} StagesAreFroms(lines: seq<Instruction>, n: nat)
    requires n <= |lines|
    ensures Stages(lines[..n]) == |set i | 0 <= i < n && lines[i].From?|
  {
    if n > 0 {
      StagesAreFroms(lines, n - 1);
      assert lines[..n][..n - 1] == lines[..n - 1];
      var before := set i | 0 <= i < n - 1 && lines[i].From?;
      assert (set i | 0 <= i < n && lines[i].From?) == before + if lines[n - 1].From? then {n - 1} else {};
    }
  }

  // What the scan has to answer.
  ghost predicate Answers(lines: seq<Instruction>, r: Result<FinalStage, ScanError>) {
    match r
    case Ok(stage) =>
      && WellFormed(lines) && HasFrom(lines)
      && stage.stages == Stages(lines)
      && Holds(lines, stage.user, stage.line)
    case Err(NoFrom) => WellFormed(lines) && !HasFrom(lines)
    case Err(error) =>
      exists i: nat :: BadAt(lines, i) && (error == MalformedFrom <==> lines[i].From?)
                       && forall j: nat :: j < i ==> !BadAt(lines, j)
  }

  // What one more line does to the three definitions.
  lemma OneMoreLine(lines: seq<Instruction>, i: nat)
    requires i < |lines|
    ensures HasFrom(lines[..i + 1]) <==> HasFrom(lines[..i]) || lines[i].From?
    ensures Stages(lines[..i + 1]) == Stages(lines[..i]) + if lines[i].From? then 1 else 0
    ensures FinalUser(lines[..i + 1]) ==
      if lines[i].From? then None
      else if lines[i].User? then Some((lines[i].argument, i + 1))
      else FinalUser(lines[..i])
  {
    var more := lines[..i + 1];
    assert more[..i] == lines[..i] && more[i] == lines[i];
    if HasFrom(more) && !lines[i].From? {
      var j :| 0 <= j < |more| && more[j].From?;
      assert lines[..i][j].From?;
    }
    if HasFrom(lines[..i]) {
      var j :| 0 <= j < i && lines[..i][j].From?;
      assert more[j].From?;
    }
  }

  // The loop's variables after the first i lines, none of them malformed.
  predicate Scanned(lines: seq<Instruction>, i: nat, stages: nat, user: Option<string>, line: Option<nat>)
    requires i <= |lines|
  {
    && stages == Stages(lines[..i])
    && (stages > 0 <==> HasFrom(lines[..i]))
    && (if stages > 0 then Holds(lines[..i], user, line) else user.None? && line.None?)
    && forall j: nat :: j < i ==> !BadAt(lines, j)
  }

  lemma ScanGoesOn(lines: seq<Instruction>, i: nat, stages: nat, user: Option<string>, line: Option<nat>)
    requires i < |lines| && Scanned(lines, i, stages, user, line) && !BadAt(lines, i)
    ensures match lines[i]
      case From(_) => Scanned(lines, i + 1, stages + 1, None, None)
      case User(argument) =>
        if stages > 0 then Scanned(lines, i + 1, stages, Some(argument), Some(i + 1))
        else Scanned(lines, i + 1, stages, user, line)
      case _ => Scanned(lines, i + 1, stages, user, line)
  {
    OneMoreLine(lines, i);
  }

  lemma ScanStops(lines: seq<Instruction>, i: nat, stages: nat, user: Option<string>, line: Option<nat>)
    requires i < |lines| && Scanned(lines, i, stages, user, line)
    ensures BadAt(lines, i) <==> lines[i] == From("") || (lines[i] == User("") && stages > 0)
    ensures BadAt(lines, i) ==> Answers(lines, Err(if lines[i].From? then MalformedFrom else MalformedUser))
  {
  }

  lemma ScanEnds(lines: seq<Instruction>, stages: nat, user: Option<string>, line: Option<nat>)
    requires Scanned(lines, |lines|, stages, user, line)
    ensures Answers(lines, if stages == 0 then Err(NoFrom) else Ok(FinalStage(stages, user, line)))
  {
    assert lines[..|lines|] == lines;
  }

  // A file is well formed if every FROM, and every USER after one, has an argument.
  lemma WellFormedMeans(lines: seq<Instruction>)
    ensures WellFormed(lines) <==>
      && (forall i :: 0 <= i < |lines| && lines[i].From? ==> lines[i].argument != "")
      && forall i, j :: 0 <= i < j < |lines| && lines[i].From? && lines[j].User? ==> lines[j].argument != ""
  {
    if WellFormed(lines) {
      forall i | 0 <= i < |lines| && lines[i].From?
        ensures lines[i].argument != ""
      {
        assert !BadAt(lines, i);
      }
      forall i, j | 0 <= i < j < |lines| && lines[i].From? && lines[j].User?
        ensures lines[j].argument != ""
      {
        assert lines[..j][i].From? && !BadAt(lines, j);
      }
    } else {
      var j: nat :| j < |lines| && BadAt(lines, j);
      if lines[j].User? {
        var i :| 0 <= i < j && lines[..j][i].From?;
        assert lines[i].From?;
      }
    }
  }

  // `_final_stage_user`: one pass forwards.
  method FinalStageUser(raw: seq<string>) returns (r: Result<FinalStage, ScanError>)
    ensures Answers(ParseAll(raw), r)
  {
    ghost var lines := ParseAll(raw);
    var stages: nat := 0;
    var user: Option<string>, line: Option<nat> := None, None;
    for i := 0 to |raw|
      invariant Scanned(lines, i, stages, user, line)
    {
      var instruction := Parse(raw[i]);
      assert instruction == lines[i];
      ScanStops(lines, i, stages, user, line);
      if instruction.From? && instruction.argument == "" {
        return Err(MalformedFrom);
      }
      if instruction.User? && stages > 0 && instruction.argument == "" {
        return Err(MalformedUser);
      }
      ScanGoesOn(lines, i, stages, user, line);
      if instruction.From? {
        stages, user, line := stages + 1, None, None;
      } else if instruction.User? && stages > 0 {
        user, line := Some(instruction.argument), Some(i + 1);
      }
    }
    ScanEnds(lines, stages, user, line);
    r := if stages == 0 then Err(NoFrom) else Ok(FinalStage(stages, user, line));
  }

  // ---- the classification ----

  datatype UserClass = Missing | Root | NonRoot | Dynamic

  // The text before the first colon.
  function BeforeColon(s: string): string {
    if s == "" || s[0] == ':' then "" else [s[0]] + BeforeColon(s[1..])
  }

  // `_classify_docker_user`
  function Classify(user: Option<string>): UserClass {
    if user.None? then Missing
    else
      var name := Strip(BeforeColon(Strip(user.value)));
      if name == "" || '$' in name then Dynamic
      else if Text.Lower(name) == "root" || name == "0" then Root
      else NonRoot
  }

  // The verdict `_inspect_dockerfile_user` prints, absent when it raises.
  function WorkerVerdict(raw: seq<string>): Option<Verdict> {
    var lines := ParseAll(raw);
    if !WellFormed(lines) || !HasFrom(lines) then None
    else
      match Classify(if FinalUser(lines).Some? then Some(FinalUser(lines).value.0) else None)
      case Missing | Root => Some(Confirmed)
      case NonRoot => Some(Rejected)
      case Dynamic => Some(Inconclusive)
  }

  method InspectUser(raw: seq<string>) returns (verdict: Option<Verdict>)
    ensures verdict == WorkerVerdict(raw)
  {
    var stage := FinalStageUser(raw);
    if stage.Err? {
      return None;
    }
    match Classify(stage.value.user) {
      case Missing | Root => verdict := Some(Confirmed);
      case NonRoot => verdict := Some(Rejected);
      case Dynamic => verdict := Some(Inconclusive);
    }
  }

  // ---- from the file to the report ----

  // part is what stands before the first colon.
  predicate UpToColon(whole: string, part: string) {
    && part <= whole
    && (|part| < |whole| ==> whole[|part|] == ':')
    && forall i :: 0 <= i < |part| ==> part[i] != ':'
  }

  // The name a USER argument gives: what stands before its first colon, without
  // the white space around either.
  ghost predicate Names(argument: string, name: string) {
    exists whole, part :: IsTrimmed(argument, whole) && UpToColon(whole, part) && IsTrimmed(part, name)
  }

  ghost predicate NamesRoot(argument: string) {
    exists name :: Names(argument, name) && (name == "0" || Text.Lower(name) == "root")
  }

  // Another user by name: some name, without a variable in it, and not root's.
  ghost predicate NamesOther(argument: string) {
    exists name :: Names(argument, name) && name != "" && '$' !in name && name != "0" && Text.Lower(name) != "root"
  }

  lemma {:induction false} ColonEndsTheName(whole: string)
    ensures UpToColon(whole, BeforeColon(whole))
  {
    if whole != "" && whole[0] != ':' {
      var rest := whole[1..];
      ColonEndsTheName(rest);
      forall i | 0 <= i < |BeforeColon(whole)|
        ensures BeforeColon(whole)[i] != ':'
      {
        if i > 0 {
          assert BeforeColon(whole)[i] == BeforeColon(rest)[i - 1];
        }
      }
      assert whole == [whole[0]] + rest;
    }
  }

  lemma OneColonIsFirst(whole: string, a: string, b: string)
    requires UpToColon(whole, a) && UpToColon(whole, b)
    ensures a == b
  {
    assert a == whole[..|a|] && b == whole[..|b|];
    assert forall i :: 0 <= i < |a| ==> a[i] == whole[i];
    assert forall i :: 0 <= i < |b| ==> b[i] == whole[i];
  }

  lemma NamesExactly(argument: string, name: string)
    ensures Names(argument, name) <==> name == Strip(BeforeColon(Strip(argument)))
  {
    var whole := Strip(argument);
    var part := BeforeColon(whole);
    StripTrims(argument);
    ColonEndsTheName(whole);
    StripTrims(part);
    if Names(argument, name) {
      var w, p :| IsTrimmed(argument, w) && UpToColon(w, p) && IsTrimmed(p, name);
      TrimmedOnce(argument, w, whole);
      OneColonIsFirst(whole, p, part);
      TrimmedOnce(part, name, Strip(part));
    }
  }

  lemma RootHasNoVariable(name: string)
    requires name == "0" || Text.Lower(name) == "root"
    ensures '$' !in name && name != ""
  {
    if Text.Lower(name) == "root" {
      assert forall i :: 0 <= i < |name| ==> Text.Lower(name)[i] in "root";
    }
  }

  lemma ClassifiedExactly(argument: string)
    ensures Classify(Some(argument)) == Root <==> NamesRoot(argument)
    ensures Classify(Some(argument)) == NonRoot <==> NamesOther(argument)
    ensures Classify(Some(argument)) in {Root, NonRoot, Dynamic}
  {
    var name := Strip(BeforeColon(Strip(argument)));
    forall other: string
      ensures Names(argument, other) <==> other == name
    {
      NamesExactly(argument, other);
    }
    if name == "0" || Text.Lower(name) == "root" {
      RootHasNoVariable(name);
    }
  }

  // The final stage runs as root for all the file says: its last USER after the
  // last FROM is absent, or names root or 0 before any group.
  ghost predicate RunsAsRoot(lines: seq<Instruction>) {
    || IsFinalUser(lines, None)
    || exists u :: u in Users(lines) && IsFinalUser(lines, Some(u)) && NamesRoot(u)
  }

  ghost predicate RunsAsOther(lines: seq<Instruction>) {
    exists u :: u in Users(lines) && IsFinalUser(lines, Some(u)) && NamesOther(u)
  }

  function Users(lines: seq<Instruction>): set<string> {
    set i | 0 <= i < |lines| && lines[i].User? :: lines[i].argument
  }

  lemma {:induction false} FinalUserIsListed(lines: seq<Instruction>)
    ensures FinalUser(lines).Some? ==> FinalUser(lines).value.0 in Users(lines)
  {
    if lines != [] {
      var front := lines[..|lines| - 1];
      FinalUserIsListed(front);
      assert forall u :: u in Users(front) ==> u in Users(lines) by {
        assert forall i :: 0 <= i < |front| ==> front[i] == lines[i];
      }
      if lines[|lines| - 1].User? {
        assert lines[|lines| - 1].argument in Users(lines);
      }
    }
  }

  // The worker's verdict says what the file says, for every well-formed file.
  lemma VerdictMeansUser(raw: seq<string>)
    requires WellFormed(ParseAll(raw)) && HasFrom(ParseAll(raw))
    ensures WorkerVerdict(raw) == Some(Confirmed) <==> RunsAsRoot(ParseAll(raw))
    ensures WorkerVerdict(raw) == Some(Rejected) <==> RunsAsOther(ParseAll(raw))
    ensures WorkerVerdict(raw).Some?
    ensures !RunsAsRoot(ParseAll(raw)) && !RunsAsOther(ParseAll(raw)) ==> WorkerVerdict(raw) == Some(Inconclusive)
  {
    var lines := ParseAll(raw);
    var found := if FinalUser(lines).Some? then Some(FinalUser(lines).value.0) else None;
    FinalUserIsListed(lines);
    FinalUserIsLast(lines, None);
    forall u: string
      ensures IsFinalUser(lines, Some(u)) <==> found == Some(u)
    {
      FinalUserIsLast(lines, Some(u));
    }
    if found.Some? {
      ClassifiedExactly(found.value);
    }
  }

  // There is a verdict exactly if the file has a FROM and no FROM, nor any USER after
  // one, lacks its argument.
  lemma VerdictNeedsAFile(raw: seq<string>)
    ensures var lines := ParseAll(raw);
      WorkerVerdict(raw).Some? <==>
        && (exists i :: 0 <= i < |lines| && lines[i].From?)
        && (forall i :: 0 <= i < |lines| && lines[i].From? ==> lines[i].argument != "")
        && forall i, j :: 0 <= i < j < |lines| && lines[i].From? && lines[j].User? ==> lines[j].argument != ""
  {
    WellFormedMeans(ParseAll(raw));
  }

  // One inspected record decides alone.
  lemma OneRecordDecides(s: AgentState, e: Execution, read: Option<Record>, v: Verdict)
    requires s.action.Some? && s.execution == Some(e) && s.action.value.tool == InspectDockerfileUser
    requires Succeeded(e) && Belongs(read, s.action.value, e) && Clean(read.value) && read.value.payload == Some(v)
    requires forall i :: 0 <= i < |s.evidence| && s.evidence[i].actionId == s.action.value.id ==>
      s.evidence[i] in Collected(s.action.value, e, read)
    requires forall item :: item in Collected(s.action.value, e, read) ==> item in s.evidence
    ensures TerminalVerdicts(s.evidence, s.action.value.id) == if v == Inconclusive then {} else {Some(v)}
  {
    var item := Evidence(s.action.value.id, EvidenceKind.Capability(InspectDockerfileUser), High, Some(v));
    assert Collected(s.action.value, e, read) == [item];
    assert item in Collected(s.action.value, e, read);
  }

  lemma JudgedByTheGuard(c: Settings, w: World, at: Site, v: Verdict)
    requires Ready(at) && at.node == Reevaluate && !w.fault
    requires at.state.action.value.tool == InspectDockerfileUser && Succeeded(at.state.execution.value)
    requires TerminalVerdicts(at.state.evidence, at.state.action.value.id) ==
      if v == Inconclusive then {} else {Some(v)}
    ensures Step(c, w, at).state.status ==
      if v != Inconclusive then Status.Verdict(v)
      else if StepLimitReached(at.state) then Status.Verdict(Inconclusive)
      else Continue
    ensures Step(c, w, at).node == if Step(c, w, at).state.status == Continue then GuardBudget else BuildReport
  {
    assert {Some(Confirmed)} != {Some(Rejected)} by {
      assert Some(Confirmed) in {Some(Confirmed)} && Some(Confirmed) !in {Some(Rejected)};
    }
  }

  // The inspection of a well-formed file has run, its record is stored and
  // read back, and its output parses.
  ghost predicate Inspected(at: Site, raw: seq<string>) {
    && at.node == Reevaluate && Ready(at)
    && at.state.action.value.tool == InspectDockerfileUser
    && Succeeded(at.state.execution.value)
    && Belongs(at.read, at.state.action.value, at.state.execution.value)
    && Clean(at.read.value) && at.read.value.payload == WorkerVerdict(raw)
    && WellFormed(ParseAll(raw)) && HasFrom(ParseAll(raw))
  }

  // The status is what the file says; where it does not say, the loop goes on
  // until its limit and ends inconclusive.
  ghost predicate Says(status: Status, atLimit: bool, raw: seq<string>) {
    var root, other := RunsAsRoot(ParseAll(raw)), RunsAsOther(ParseAll(raw));
    && (status == Status.Verdict(Confirmed) <==> root)
    && (status == Status.Verdict(Rejected) <==> other)
    && (root || other || status == (if atLimit then Status.Verdict(Inconclusive) else Continue))
  }

  lemma InspectionDecides(c: Settings, w: World, at: Site, raw: seq<string>)
    requires Inspected(at, raw) && OwnEvidence(at) && !w.fault
    ensures Says(Step(c, w, at).state.status, StepLimitReached(at.state), raw)
    ensures Step(c, w, at).node == if Step(c, w, at).state.status == Continue then GuardBudget else BuildReport
    ensures Step(c, w, at).state.status == Continue || Step(c, w, at).state.status.Verdict?
  {
    var v := WorkerVerdict(raw).value;
    VerdictMeansUser(raw);
    OneRecordDecides(at.state, at.state.execution.value, at.read, v);
    JudgedByTheGuard(c, w, at, v);
  }

  lemma FiledNext(c: Settings, w: World, at: Site)
    requires Ready(at) && at.node == BuildReport && !w.fault && at.state.status.Verdict?
    ensures Step(c, w, at).node == End
    ensures Step(c, w, at).report.Some? && Step(c, w, at).report.value.status == at.state.status
  {
  }

  // End to end, in every run: once the inspection is judged, the status is what
  // the Dockerfile says, and unless the loop goes on the next report says it.
  lemma ReportSaysWhatTheFileSays(c: Settings, initial: AgentState, worlds: nat -> World, k: nat, raw: seq<string>)
    requires Unused(initial) && !worlds(k).fault && !worlds(k + 1).fault
    requires Inspected(Run(c, initial, worlds, k), raw)
    ensures var status := Run(c, initial, worlds, k + 1).state.status;
      && Says(status, StepLimitReached(Run(c, initial, worlds, k).state), raw)
      && (status != Continue ==>
            var last := Run(c, initial, worlds, k + 2);
            last.node == End && last.report.Some? && last.report.value.status == status)
  {
    var sites := Sites(c, initial, worlds);
    RunFollows(c, initial, worlds);
    SitesKeepOrigin(c, initial, worlds, sites, k);
    InspectionDecides(c, worlds(k), sites(k), raw);
    if sites(k + 1).state.status != Continue {
      FiledNext(c, worlds(k + 1), sites(k + 1));
    }
  }
}
