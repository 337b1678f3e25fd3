/**
  The fresh-identifier loops of discovery/resolver.py and discovery/profile.py,
  and the artifact registry they fill (schemas/target.py).
 */
module FreshIds {
  import opened Wrappers
  import opened Text

  // The k-th name the loops try: the base itself, then `base-2`, `base-3`, ...
  function Attempt(base: string, k: nat): string {
    if k <= 1 then base else base + "-" + Digits(k)
  }

  lemma AttemptsDiffer(base: string, j: nat, k: nat)
    requires 1 <= j < k
    ensures Attempt(base, j) != Attempt(base, k)
  {
    if j > 1 {
      var front := base + "-";
      assert Attempt(base, j)[|front|..] == Digits(j) && Attempt(base, k)[|front|..] == Digits(k);
      DigitsInjective(j, k);
    }
  }

  lemma {:induction false} SubsetIsSmaller<T>(a: set<T>, b: set<T>)
    requires a <= b
    ensures |a| <= |b|
  {
    if a != {} {
      var x :| x in a;
      SubsetIsSmaller(a - {x}, b - {x});
    }
  }

  // `id` is the first attempt that is not taken.
  predicate FirstFree(base: string, used: set<string>, id: string, k: nat) {
    && 1 <= k && id == Attempt(base, k) && id !in used
    && forall j :: 1 <= j < k ==> Attempt(base, j) in used
  }

  // What a loop over the attempts answers, at most |used| + 1 attempts in.
  ghost predicate IsFresh(base: string, used: set<string>, id: string) {
    exists k: nat :: k <= |used| + 1 && FirstFree(base, used, id, k)
  }

  // The loop ends by the pigeonhole principle: after |used| + 1 different
  // attempts one of them is free.
  method FreshId(base: string, used: set<string>) returns (id: string)
    ensures IsFresh(base, used, id)
    ensures id !in used && (id == base <==> base !in used)
    ensures id != base ==>
      exists k: nat :: 2 <= k && id == base + "-" + Digits(k)
        && forall j :: 2 <= j < k ==> base + "-" + Digits(j) in used
  {
    id := base;
    var suffix := 2;
    ghost var k: nat := 1;
    ghost var tried: set<string> := {};
    while id in used
      invariant suffix == k + 1 && id == Attempt(base, k) && k >= 1
      invariant tried <= used && |tried| == k - 1 <= |used|
      invariant forall j :: 1 <= j < k ==> Attempt(base, j) in used
      invariant forall x :: x in tried ==> exists j :: 1 <= j < k && x == Attempt(base, j)
      decreases |used| + 1 - k
    {
      assert id !in tried by {
        if id in tried {
          var j :| 1 <= j < k && id == Attempt(base, j);
          AttemptsDiffer(base, j, k);
        }
      }
      tried := tried + {id};
      SubsetIsSmaller(tried, used);
      id := base + "-" + Digits(suffix);
      k := k + 1;
      suffix := suffix + 1;
    }
    assert FirstFree(base, used, id, k);
    assert forall j :: 2 <= j < k ==> Attempt(base, j) == base + "-" + Digits(j);
    if k > 1 {
      AttemptsDiffer(base, 1, k);
    }
  }

  lemma FirstFreeIsUnique(base: string, used: set<string>, a: string, j: nat, b: string, k: nat)
    requires FirstFree(base, used, a, j) && FirstFree(base, used, b, k)
    ensures a == b && j == k
  {
    assert j < k ==> Attempt(base, j) in used;
    assert k < j ==> Attempt(base, k) in used;
  }

  // The answer depends on nothing but the base and the names in use.
  lemma FreshIsUnique(base: string, used: set<string>, a: string, b: string)
    requires IsFresh(base, used, a) && IsFresh(base, used, b)
    ensures a == b && a !in used
  {
    var j: nat :| j <= |used| + 1 && FirstFree(base, used, a, j);
    var k: nat :| k <= |used| + 1 && FirstFree(base, used, b, k);
    FirstFreeIsUnique(base, used, a, j, b, k);
  }

  // ---- components ----

  datatype Component = Component(id: string, root: string)

  predicate DistinctIds(components: seq<Component>) {
    forall i, j :: 0 <= i < j < |components| ==> components[i].id != components[j].id
  }

  predicate DistinctRoots(components: seq<Component>) {
    forall i, j :: 0 <= i < j < |components| ==> components[i].root != components[j].root
  }

  predicate Distinct(names: seq<string>) {
    forall i, j :: 0 <= i < j < |names| ==> names[i] != names[j]
  }

  // One component per root, in order.
  predicate Rooted(components: seq<Component>, roots: seq<string>) {
    |components| == |roots| && forall i :: 0 <= i < |roots| ==> components[i].root == roots[i]
  }

  function Ids(components: seq<Component>): set<string> {
    set i | 0 <= i < |components| :: components[i].id
  }

  ghost predicate NamedAt(components: seq<Component>, bases: seq<string>, i: nat)
    requires i < |bases| && i < |components|
  {
    IsFresh(bases[i], Ids(components[..i]), components[i].id)
  }

  // Each component has the first name free beside those before it.
  ghost predicate NamedInTurn(components: seq<Component>, bases: seq<string>) {
    && |components| == |bases|
    && forall i: nat :: i < |bases| ==> NamedAt(components, bases, i)
  }

  // The names follow from the bases and their order alone.
  lemma {:induction false} NamesAreDetermined(a: seq<Component>, b: seq<Component>, bases: seq<string>, n: nat)
    requires NamedInTurn(a, bases) && NamedInTurn(b, bases) && n <= |bases|
    ensures forall i :: 0 <= i < n ==> a[i].id == b[i].id
  {
    if n > 0 {
      NamesAreDetermined(a, b, bases, n - 1);
      var m := n - 1;
      SameIds(a[..m], b[..m]);
      assert NamedAt(a, bases, m) && NamedAt(b, bases, m);
      FreshIsUnique(bases[m], Ids(a[..m]), a[m].id, b[m].id);
    }
  }

  lemma SameIds(a: seq<Component>, b: seq<Component>)
    requires |a| == |b| && forall i :: 0 <= i < |a| ==> a[i].id == b[i].id
    ensures Ids(a) == Ids(b)
  {
    forall id
      ensures id in Ids(a) <==> id in Ids(b)
    {
      if id in Ids(a) {
        var i :| 0 <= i < |a| && a[i].id == id;
        assert b[i].id == id;
      }
      if id in Ids(b) {
        var i :| 0 <= i < |b| && b[i].id == id;
        assert a[i].id == id;
      }
    }
  }

  lemma OneMoreId(components: seq<Component>, more: Component)
    ensures Ids(components + [more]) == Ids(components) + {more.id}
  {
    var longer := components + [more];
    forall id
      ensures id in Ids(longer) <==> id in Ids(components) || id == more.id
    {
      if id in Ids(components) {
        var i :| 0 <= i < |components| && components[i].id == id;
        assert longer[i].id == id;
      }
      assert longer[|components|].id == more.id;
    }
  }

  // The components of the first i roots.
  ghost predicate Named(components: seq<Component>, roots: seq<string>, bases: seq<string>, i: nat) {
    && i <= |roots| && |bases| == |roots|
    && DistinctIds(components) && NamedInTurn(components, bases[..i]) && Rooted(components, roots[..i])
  }

  // Whether a name was due does not depend on what comes later.
  lemma NamedStays(components: seq<Component>, bases: seq<string>, longer: seq<Component>, more: seq<string>, j: nat)
    requires j < |components| <= |longer| && j < |bases| <= |more|
    requires longer[..j + 1] == components[..j + 1] && more[j] == bases[j]
    ensures NamedAt(components, bases, j) <==> NamedAt(longer, more, j)
  {
    assert longer[..j + 1][..j] == longer[..j] && components[..j + 1][..j] == components[..j];
    assert longer[..j + 1][j] == longer[j] && components[..j + 1][j] == components[j];
  }

  lemma TurnsGrow(components: seq<Component>, front: seq<string>, base: string, more: Component)
    requires NamedInTurn(components, front) && IsFresh(base, Ids(components), more.id)
    ensures NamedInTurn(components + [more], front + [base])
  {
    var longer, bases := components + [more], front + [base];
    forall j: nat | j < |bases|
      ensures NamedAt(longer, bases, j)
    {
      if j < |front| {
        assert NamedAt(components, front, j);
        NamedStays(components, front, longer, bases, j);
      } else {
        assert longer[..j] == components;
      }
    }
  }

  lemma IdsGrow(components: seq<Component>, base: string, more: Component)
    requires DistinctIds(components) && IsFresh(base, Ids(components), more.id)
    ensures DistinctIds(components + [more])
  {
    FreshIsUnique(base, Ids(components), more.id, more.id);
    assert forall j :: 0 <= j < |components| ==> components[j].id in Ids(components);
  }

  lemma NamesGrow(components: seq<Component>, roots: seq<string>, bases: seq<string>, i: nat, more: Component)
    requires i < |roots| && Named(components, roots, bases, i)
    requires IsFresh(bases[i], Ids(components), more.id) && more.root == roots[i]
    ensures Named(components + [more], roots, bases, i + 1) && Ids(components + [more]) == Ids(components) + {more.id}
  {
    assert bases[..i + 1] == bases[..i] + [bases[i]] && roots[..i + 1] == roots[..i] + [roots[i]];
    TurnsGrow(components, bases[..i], bases[i], more);
    IdsGrow(components, bases[i], more);
    OneMoreId(components, more);
  }

  lemma AllNamed(components: seq<Component>, roots: seq<string>, bases: seq<string>)
    requires Named(components, roots, bases, |roots|)
    ensures Rooted(components, roots) && DistinctIds(components) && NamedInTurn(components, bases)
    ensures Distinct(roots) ==> DistinctRoots(components)
  {
    assert bases[..|roots|] == bases && roots[..|roots|] == roots;
  }

  // The component loop of `resolve`: one component per root, in order, under
  // pairwise distinct identifiers. `bases` are the names the identifiers are
  // derived from, one per root.
  method NameComponents(roots: seq<string>, bases: seq<string>) returns (components: seq<Component>)
    requires |bases| == |roots|
    ensures Rooted(components, roots) && DistinctIds(components) && NamedInTurn(components, bases)
    ensures Distinct(roots) ==> DistinctRoots(components)
  {
    var used: set<string> := {};
    components := [];
    for i := 0 to |roots|
      invariant used == Ids(components) && Named(components, roots, bases, i)
    {
      var id := FreshId(bases[i], used);
      NamesGrow(components, roots, bases, i, Component(id, roots[i]));
      used := used + {id};
      components := components + [Component(id, roots[i])];
    }
    AllNamed(components, roots, bases);
  }

  // ---- artifacts ----

  datatype Artifact = Artifact(id: string, kind: string, path: string)

  type Artifacts = map<string, Artifact>

  datatype Found = Found(base: string, path: string, kind: string)

  function PathsOf(artifacts: Artifacts): set<string> {
    set id | id in artifacts :: artifacts[id].path
  }

  predicate Keyed(artifacts: Artifacts) {
    forall id :: id in artifacts ==> artifacts[id].id == id
  }

  predicate UniquePaths(artifacts: Artifacts) {
    forall a, b :: a in artifacts && b in artifacts && artifacts[a].path == artifacts[b].path ==> a == b
  }

  // Everything registered before is still registered, unchanged.
  predicate Keeps(before: Artifacts, after: Artifacts) {
    forall id :: id in before ==> id in after && after[id] == before[id]
  }

  lemma OneMoreArtifact(artifacts: Artifacts, id: string, a: Artifact)
    requires id !in artifacts && a.id == id && Keyed(artifacts)
    ensures Keyed(artifacts[id := a]) && Keeps(artifacts, artifacts[id := a])
    ensures PathsOf(artifacts[id := a]) == PathsOf(artifacts) + {a.path}
    ensures UniquePaths(artifacts) && a.path !in PathsOf(artifacts) ==> UniquePaths(artifacts[id := a])
  {
    var after := artifacts[id := a];
    forall path
      ensures path in PathsOf(after) <==> path in PathsOf(artifacts) + {a.path}
    {
      if path in PathsOf(artifacts) {
        var other :| other in artifacts && artifacts[other].path == path;
        assert after[other].path == path;
      }
      if path == a.path {
        assert after[id].path == path;
      }
    }
    assert forall other :: other in artifacts ==> artifacts[other].path in PathsOf(artifacts);
  }

  predicate Registers(artifacts: Artifacts, path: string, kind: string) {
    exists id :: id in artifacts && artifacts[id].path == path && artifacts[id].kind == kind
  }

  // The file is registered as it was found, under a name made from its own base.
  ghost predicate RegistersAs(artifacts: Artifacts, item: Found) {
    exists id, k: nat ::
      id == Attempt(item.base, k) && id in artifacts && artifacts[id] == Artifact(id, item.kind, item.path)
  }

  // The i-th path found is new there: not in the base, and not found before.
  predicate New(base: Artifacts, found: seq<Found>, i: nat)
    requires i < |found|
  {
    found[i].path !in PathsOf(base) && forall j :: 0 <= j < i ==> found[j].path != found[i].path
  }

  // The artifacts after the first n paths found: nothing registered before is
  // overwritten, every path found is registered, a new one under the kind it
  // was first found with, and paths stay unique if they were.
  ghost predicate Registered(base: Artifacts, found: seq<Found>, n: nat, artifacts: Artifacts)
    requires n <= |found|
  {
    && Keyed(artifacts) && Keeps(base, artifacts)
    && (forall i :: 0 <= i < n ==> found[i].path in PathsOf(artifacts))
    && (forall path :: path in PathsOf(artifacts) ==>
          path in PathsOf(base) || exists i :: 0 <= i < n && found[i].path == path)
    && (forall i :: 0 <= i < n && New(base, found, i) ==> RegistersAs(artifacts, found[i]))
    && (UniquePaths(base) ==> UniquePaths(artifacts))
  }

  lemma RegistersStays(artifacts: Artifacts, after: Artifacts, item: Found)
    requires Keeps(artifacts, after) && RegistersAs(artifacts, item)
    ensures RegistersAs(after, item)
  {
    var id, k: nat :|
      id == Attempt(item.base, k) && id in artifacts && artifacts[id] == Artifact(id, item.kind, item.path);
    assert after[id] == artifacts[id];
  }

  lemma KnownIsSkipped(base: Artifacts, found: seq<Found>, n: nat, artifacts: Artifacts)
    requires n < |found| && Registered(base, found, n, artifacts) && found[n].path in PathsOf(artifacts)
    ensures Registered(base, found, n + 1, artifacts)
  {
  }

  lemma NewIsAdded(base: Artifacts, found: seq<Found>, n: nat, artifacts: Artifacts, id: string)
    requires n < |found| && Registered(base, found, n, artifacts)
    requires found[n].path !in PathsOf(artifacts) && IsFresh(found[n].base, artifacts.Keys, id)
    ensures Registered(base, found, n + 1, artifacts[id := Artifact(id, found[n].kind, found[n].path)])
  {
    var a := Artifact(id, found[n].kind, found[n].path);
    var after := artifacts[id := a];
    FreshIsUnique(found[n].base, artifacts.Keys, id, id);
    OneMoreArtifact(artifacts, id, a);
    assert after[id] == a;
    forall i | 0 <= i < n + 1 && New(base, found, i)
      ensures RegistersAs(after, found[i])
    {
      if i < n {
        RegistersStays(artifacts, after, found[i]);
      }
    }
  }

  // The artifact loop of `build`.
  method RegisterArtifacts(base: Artifacts, found: seq<Found>) returns (artifacts: Artifacts)
    requires Keyed(base)
    ensures Registered(base, found, |found|, artifacts)
  {
    artifacts := base;
    var known := PathsOf(base);
    for i := 0 to |found|
      invariant Registered(base, found, i, artifacts) && known == PathsOf(artifacts)
    {
      var item := found[i];
      if item.path in known {
        KnownIsSkipped(base, found, i, artifacts);
        continue;
      }
      var id := FreshId(item.base, artifacts.Keys);
      NewIsAdded(base, found, i, artifacts, id);
      OneMoreArtifact(artifacts, id, Artifact(id, item.kind, item.path));
      artifacts := artifacts[id := Artifact(id, item.kind, item.path)];
      known := known + {item.path};
    }
  }

  predicate Matches(a: Artifact, path: string, kind: Option<string>) {
    a.path == path && (kind.None? || Lower(a.kind) == Lower(kind.value))
  }

  // What a lookup by path answers: the one matching artifact, or an error.
  predicate Answers(artifacts: Artifacts, path: string, kind: Option<string>, r: Option<string>) {
    if r.Some? then
      && r.value in artifacts && Matches(artifacts[r.value], path, kind)
      && forall id :: id in artifacts && Matches(artifacts[id], path, kind) ==> id == r.value
    else
      || (forall id :: id in artifacts ==> !Matches(artifacts[id], path, kind))
      || (exists a, b :: a in artifacts && b in artifacts && a != b
                         && Matches(artifacts[a], path, kind) && Matches(artifacts[b], path, kind))
  }

  // `artifact_id_for_path`
  method ArtifactIdForPath(artifacts: Artifacts, path: string, kind: Option<string>) returns (r: Option<string>)
    ensures Answers(artifacts, path, kind, r)
  {
    var matches: seq<string> := [];
    var todo := artifacts.Keys;
    while todo != {}
      invariant todo <= artifacts.Keys
      invariant forall i :: 0 <= i < |matches| ==>
        matches[i] in artifacts && matches[i] !in todo && Matches(artifacts[matches[i]], path, kind)
      invariant forall i, j :: 0 <= i < j < |matches| ==> matches[i] != matches[j]
      invariant forall id :: id in artifacts && id !in todo && Matches(artifacts[id], path, kind) ==> id in matches
      decreases |todo|
    {
      var id :| id in todo;
      if Matches(artifacts[id], path, kind) {
        matches := matches + [id];
      }
      todo := todo - {id};
    }
    if |matches| == 1 {
      r := Some(matches[0]);
    } else {
      r := None;
      if |matches| > 1 {
        assert matches[0] != matches[1];
      }
    }
  }

  // What discovery registers can be found again: where paths are unique, the
  // lookup of a registered path succeeds, and under a kind exactly when the
  // path is registered under that kind.
  lemma RegisteredIsFound(artifacts: Artifacts, path: string, kind: string, any: Option<string>, one: Option<string>)
    requires UniquePaths(artifacts) && path in PathsOf(artifacts)
    requires Answers(artifacts, path, None, any) && Answers(artifacts, path, Some(kind), one)
    ensures any.Some?
    ensures one.Some? <==> Lower(artifacts[any.value].kind) == Lower(kind)
    ensures Registers(artifacts, path, kind) ==> one == any
  {
    var id :| id in artifacts && artifacts[id].path == path;
    assert Matches(artifacts[id], path, None);
  }
}
