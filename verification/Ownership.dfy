/**
  Which component owns a file: `resolve_component` of schemas/discovery.py,
  `resolve_service` of schemas/target.py, and the profile builder between them
  (discovery/profile.py). File paths are the normalized ones both functions
  work on.
 */
module Ownership {
  import opened Wrappers
  import opened FreshIds

  function ToSet<T(==)>(items: seq<T>): set<T> {
    set item | item in items
  }

  // ---- paths and roots ----

  function Slashes(s: string): nat {
    if s == "" then 0 else Slashes(s[..|s| - 1]) + if s[|s| - 1] == '/' then 1 else 0
  }

  // The number of path segments; the repository root has none.
  function Depth(root: string): nat {
    if root == "." then 0 else Slashes(root) + 1
  }

  predicate Contains(root: string, path: string) {
    root == "." || path == root || root + "/" <= path
  }

  lemma {:induction false} SlashesGrow(s: string, n: nat)
    requires n <= |s|
    ensures Slashes(s[..n]) <= Slashes(s)
    decreases |s|
  {
    if n < |s| {
      assert s[..|s| - 1][..n] == s[..n];
      SlashesGrow(s[..|s| - 1], n);
    } else {
      assert s[..n] == s;
    }
  }

  lemma OneMoreSlash(shorter: string, longer: string)
    requires shorter + "/" <= longer
    ensures Slashes(shorter) < Slashes(longer)
  {
    SlashesGrow(longer, |shorter| + 1);
    assert longer[..|shorter| + 1] == shorter + "/";
    assert (shorter + "/")[..|shorter|] == shorter;
  }

  // Two roots that contain the same file lie at different depths: the tie
  // between equal depths never arises.
  lemma DepthsDiffer(a: string, b: string, path: string)
    requires a != b && Contains(a, path) && Contains(b, path)
    ensures Depth(a) != Depth(b)
    ensures Depth(a) < Depth(b) ==> a == "." || a + "/" <= b
  {
    if a != "." && b != "." {
      var m, n := |a|, |b|;
      assert path[..m] == a && path[..n] == b;
      if m < n {
        assert b[..m + 1] == path[..m + 1] == a + "/";
        OneMoreSlash(a, b);
      } else if n < m {
        assert a[..n + 1] == path[..n + 1] == b + "/";
        OneMoreSlash(b, a);
      }
    }
  }

  // ---- the order of the candidates ----

  predicate TextBefore(a: string, b: string) {
    if b == "" then false
    else if a == "" then true
    else if a[0] != b[0] then a[0] < b[0]
    else TextBefore(a[1..], b[1..])
  }

  lemma {:induction false} TextIsTotal(a: string, b: string)
    ensures a == b || TextBefore(a, b) || TextBefore(b, a)
  {
    if a != "" && b != "" && a[0] == b[0] {
      TextIsTotal(a[1..], b[1..]);
      assert a == [a[0]] + a[1..] && b == [b[0]] + b[1..];
    }
  }

  lemma {:induction false} TextIsTransitive(a: string, b: string, c: string)
    requires TextBefore(a, b) && TextBefore(b, c)
    ensures TextBefore(a, c)
  {
    if a != "" && b != "" && c != "" && a[0] == b[0] == c[0] {
      TextIsTransitive(a[1..], b[1..], c[1..]);
    }
  }

  lemma {:induction false} TextIsIrreflexive(a: string, b: string)
    ensures !(TextBefore(a, b) && TextBefore(b, a)) && !TextBefore(a, a)
  {
    if a != "" {
      TextIsIrreflexive(a[1..], if b == "" then "" else b[1..]);
    }
  }

  // At the first place where they differ a has the smaller character, or a ends.
  predicate DiffersAt(a: string, b: string, n: int) {
    0 <= n <= |a| && n < |b| && a[..n] == b[..n] && (n == |a| || a[n] < b[n])
  }

  lemma SameStart(a: string, b: string, n: int)
    requires DiffersAt(a, b, n)
    ensures n == 0 || (a != "" && b != "" && a[0] == b[0])
  {
    if n > 0 {
      assert a[0] == a[..n][0] && b[0] == b[..n][0];
    }
  }

  lemma {:induction false} TextBeforeMeans(a: string, b: string)
    ensures TextBefore(a, b) <==> exists n :: DiffersAt(a, b, n)
  {
    if a != "" && b != "" && a[0] == b[0] {
      TextBeforeMeans(a[1..], b[1..]);
      if m :| DiffersAt(a[1..], b[1..], m) {
        assert a[..m + 1] == [a[0]] + a[1..][..m] && b[..m + 1] == [b[0]] + b[1..][..m];
        assert DiffersAt(a, b, m + 1);
      }
      if n :| DiffersAt(a, b, n) {
        assert n > 0 && a[1..][..n - 1] == a[..n][1..] && b[1..][..n - 1] == b[..n][1..];
        assert DiffersAt(a[1..], b[1..], n - 1);
      }
    } else {
      assert TextBefore(a, b) ==> DiffersAt(a, b, 0);
      if n :| DiffersAt(a, b, n) {
        SameStart(a, b, n);
      }
    }
  }

  datatype Candidate = Candidate(depth: nat, id: string)

  // How Python orders the pairs.
  predicate Before(a: Candidate, b: Candidate) {
    a.depth < b.depth || (a.depth == b.depth && TextBefore(a.id, b.id))
  }

  // The first of the candidates sorted in reverse.
  function Largest(candidates: seq<Candidate>): Candidate
    requires candidates != []
  {
    var last := candidates[|candidates| - 1];
    if |candidates| == 1 then last
    else
      var best := Largest(candidates[..|candidates| - 1]);
      if Before(best, last) then last else best
  }

  // No candidate of the set comes after r.
  predicate IsLargest(candidates: set<Candidate>, r: Candidate) {
    r in candidates && forall c :: c in candidates && c != r ==> Before(c, r)
  }

  lemma BeforeIsTotal(a: Candidate, b: Candidate)
    ensures a == b || Before(a, b) || Before(b, a)
  {
    TextIsTotal(a.id, b.id);
  }

  lemma BeforeIsTransitive(a: Candidate, b: Candidate, c: Candidate)
    requires Before(a, b) && Before(b, c)
    ensures Before(a, c)
  {
    if a.depth == b.depth == c.depth {
      TextIsTransitive(a.id, b.id, c.id);
    }
  }

  lemma {:induction false} LargestIsLargest(candidates: seq<Candidate>)
    requires candidates != []
    ensures IsLargest(ToSet(candidates), Largest(candidates))
    decreases |candidates|
  {
    var n := |candidates| - 1;
    var last := candidates[n];
    assert candidates == candidates[..n] + [last];
    if n > 0 {
      LargestIsLargest(candidates[..n]);
      var best := Largest(candidates[..n]);
      BeforeIsTotal(best, last);
      forall c | c in candidates[..n] && c != best && Before(best, last)
        ensures Before(c, last)
      {
        assert c in ToSet(candidates[..n]);
        BeforeIsTransitive(c, best, last);
      }
    }
  }

  lemma LargestIsUnique(candidates: set<Candidate>, a: Candidate, b: Candidate)
    requires IsLargest(candidates, a) && IsLargest(candidates, b)
    ensures a == b
  {
    TextIsIrreflexive(a.id, b.id);
  }

  // ---- the two lookups ----

  function CandidatesOf(components: seq<Component>, path: string, n: nat): seq<Candidate>
    requires n <= |components|
  {
    if n == 0 then []
    else
      var c := components[n - 1];
      CandidatesOf(components, path, n - 1) +
        if Contains(c.root, path) then [Candidate(Depth(c.root), c.id)] else []
  }

  // All owners of a file, as candidates.
  function Owners(components: set<Component>, path: string): set<Candidate> {
    set c | c in components && Contains(c.root, path) :: Candidate(Depth(c.root), c.id)
  }

  // What a lookup answers: the identifier of the largest owner, if any.
  predicate Resolves(components: set<Component>, path: string, r: Option<string>) {
    match r
    case None => Owners(components, path) == {}
    case Some(id) =>
      exists depth: nat :: depth in DepthsOf(components, path)
                           && IsLargest(Owners(components, path), Candidate(depth, id))
  }

  function DepthsOf(components: set<Component>, path: string): set<nat> {
    set c | c in components && Contains(c.root, path) :: Depth(c.root)
  }

  lemma {:induction false} CandidatesAreOwners(components: seq<Component>, path: string, n: nat)
    requires n <= |components|
    ensures ToSet(CandidatesOf(components, path, n)) == Owners(ToSet(components[..n]), path)
  {
    if n > 0 {
      CandidatesAreOwners(components, path, n - 1);
      var all, front := ToSet(components[..n]), ToSet(components[..n - 1]);
      var last := components[n - 1];
      assert components[..n] == components[..n - 1] + [last];
      assert all == front + {last};
      var before, after := CandidatesOf(components, path, n - 1), CandidatesOf(components, path, n);
      var one := Candidate(Depth(last.root), last.id);
      assert ToSet(after) == ToSet(before) + if Contains(last.root, path) then {one} else {};
      OneMoreOwner(front, last, path);
    }
  }

  lemma OneMoreOwner(components: set<Component>, c: Component, path: string)
    ensures Owners(components + {c}, path) ==
      Owners(components, path) + if Contains(c.root, path) then {Candidate(Depth(c.root), c.id)} else {}
  {
    var after := Owners(components + {c}, path);
    forall x | x in Owners(components, path)
      ensures x in after
    {
      var d :| d in components && Contains(d.root, path) && x == Candidate(Depth(d.root), d.id);
      assert d in components + {c};
    }
    if Contains(c.root, path) {
      assert c in components + {c};
    }
  }

  lemma LargestResolves(components: set<Component>, path: string, best: Candidate)
    requires IsLargest(Owners(components, path), best)
    ensures Resolves(components, path, Some(best.id))
  {
    assert best.depth in DepthsOf(components, path);
  }

  // `resolve_component`
  method ResolveComponent(components: seq<Component>, path: string) returns (r: Option<string>)
    ensures Resolves(ToSet(components), path, r)
  {
    var candidates: seq<Candidate> := [];
    for i := 0 to |components|
      invariant candidates == CandidatesOf(components, path, i)
    {
      if components[i].root == "." {
        candidates := candidates + [Candidate(0, components[i].id)];
      } else if path == components[i].root || components[i].root + "/" <= path {
        candidates := candidates + [Candidate(Slashes(components[i].root) + 1, components[i].id)];
      }
    }
    CandidatesAreOwners(components, path, |components|);
    assert components[..|components|] == components;
    if candidates == [] {
      return None;
    }
    LargestIsLargest(candidates);
    LargestResolves(ToSet(components), path, Largest(candidates));
    r := Some(Largest(candidates).id);
  }

  // A profile's services: the root of each identifier.
  function Listed(services: map<string, string>): set<Component> {
    set id | id in services :: Component(id, services[id])
  }

  lemma ListedOwners(services: map<string, string>, path: string, x: Candidate)
    ensures x in Owners(Listed(services), path) <==>
      x.id in services && Contains(services[x.id], path) && x.depth == Depth(services[x.id])
  {
    if x.id in services {
      assert Component(x.id, services[x.id]) in Listed(services);
    }
  }

  // `resolve_service`; the order in which the services are met does not matter.
  method ResolveService(services: map<string, string>, path: string) returns (r: Option<string>)
    ensures Resolves(Listed(services), path, r)
  {
    var candidates: seq<Candidate> := [];
    var todo := services.Keys;
    while todo != {}
      invariant todo <= services.Keys
      invariant forall x :: x in candidates <==>
        x.id in services && x.id !in todo && Contains(services[x.id], path) && x.depth == Depth(services[x.id])
      decreases |todo|
    {
      var id :| id in todo;
      if services[id] == "." {
        candidates := candidates + [Candidate(0, id)];
      } else if path == services[id] || services[id] + "/" <= path {
        candidates := candidates + [Candidate(Slashes(services[id]) + 1, id)];
      }
      todo := todo - {id};
    }
    forall x
      ensures x in candidates <==> x in Owners(Listed(services), path)
    {
      ListedOwners(services, path, x);
    }
    assert ToSet(candidates) == Owners(Listed(services), path);
    if candidates == [] {
      return None;
    }
    LargestIsLargest(candidates);
    LargestResolves(Listed(services), path, Largest(candidates));
    r := Some(Largest(candidates).id);
  }

  // ---- the profile builder ----

  // Component j is the last of the first n under its identifier.
  predicate LastUnderItsId(components: seq<Component>, n: nat, j: nat)
    requires j < n <= |components|
  {
    forall k :: j < k < n ==> components[k].id != components[j].id
  }

  // The services list the last component under each identifier, and nothing else.
  predicate ListsLast(components: seq<Component>, n: nat, services: map<string, string>)
    requires n <= |components|
  {
    && (forall j :: 0 <= j < n && LastUnderItsId(components, n, j) ==>
          components[j].id in services && services[components[j].id] == components[j].root)
    && (forall id :: id in services ==> exists j :: 0 <= j < n && components[j] == Component(id, services[id]))
  }

  lemma OneMoreListed(components: seq<Component>, n: nat, services: map<string, string>)
    requires n < |components| && ListsLast(components, n, services)
    ensures ListsLast(components, n + 1, services[components[n].id := components[n].root])
  {
    var after := services[components[n].id := components[n].root];
    forall j | 0 <= j < n + 1 && LastUnderItsId(components, n + 1, j)
      ensures components[j].id in after && after[components[j].id] == components[j].root
    {
      if j < n {
        assert LastUnderItsId(components, n, j);
      }
    }
    forall id | id in after
      ensures exists j :: 0 <= j < n + 1 && components[j] == Component(id, after[id])
    {
      if id == components[n].id {
        assert components[n] == Component(id, after[id]);
      }
    }
  }

  lemma DistinctAreListed(components: seq<Component>, services: map<string, string>)
    requires DistinctIds(components) && ListsLast(components, |components|, services)
    ensures Listed(services) == ToSet(components)
  {
    forall c
      ensures c in Listed(services) <==> c in components
    {
      if c in components {
        var j :| 0 <= j < |components| && components[j] == c;
        assert LastUnderItsId(components, |components|, j);
      }
    }
  }

  // The services of a profile built without a base profile, by identifier.
  method BuildServices(components: seq<Component>) returns (services: map<string, string>)
    ensures ListsLast(components, |components|, services)
    ensures DistinctIds(components) ==> Listed(services) == ToSet(components)
  {
    services := map[];
    for i := 0 to |components|
      invariant ListsLast(components, i, services)
    {
      OneMoreListed(components, i, services);
      services := services[components[i].id := components[i].root];
    }
    if DistinctIds(components) {
      DistinctAreListed(components, services);
    }
  }

  // One answer per file: whatever resolves, resolves alike.
  lemma ResolvesIsUnique(components: set<Component>, path: string, a: Option<string>, b: Option<string>)
    requires Resolves(components, path, a) && Resolves(components, path, b)
    ensures a == b
  {
    if a.Some? && b.Some? {
      var m: nat :| m in DepthsOf(components, path) && IsLargest(Owners(components, path), Candidate(m, a.value));
      var n: nat :| n in DepthsOf(components, path) && IsLargest(Owners(components, path), Candidate(n, b.value));
      LargestIsUnique(Owners(components, path), Candidate(m, a.value), Candidate(n, b.value));
    }
  }

  // The deepest root that contains the file, and no other root is as deep.
  predicate DeepestOwner(components: set<Component>, path: string, c: Component) {
    && c in components && Contains(c.root, path)
    && forall d :: d in components && d != c && Contains(d.root, path) ==> Depth(d.root) < Depth(c.root)
  }

  predicate RootsDiffer(components: set<Component>) {
    forall c, d :: c in components && d in components && c != d ==> c.root != d.root
  }

  lemma OthersAreShallower(components: set<Component>, path: string, c: Component, d: Component)
    requires RootsDiffer(components) && c in components && d in components && d != c
    requires Contains(c.root, path) && Contains(d.root, path)
    requires IsLargest(Owners(components, path), Candidate(Depth(c.root), c.id))
    ensures Depth(d.root) < Depth(c.root)
  {
    DepthsDiffer(d.root, c.root, path);
    assert Candidate(Depth(d.root), d.id) in Owners(components, path);
  }

  // With distinct roots the answer is the owner with the unique deepest root:
  // the comparison of identifiers never decides.
  lemma AnswerIsDeepest(components: set<Component>, path: string, r: Option<string>)
    requires RootsDiffer(components) && Resolves(components, path, r)
    ensures match r
      case None => forall c :: c in components ==> !Contains(c.root, path)
      case Some(id) => exists c :: DeepestOwner(components, path, c) && c.id == id
  {
    match r {
      case None =>
        forall c | c in components
          ensures !Contains(c.root, path)
        {
          assert Contains(c.root, path) ==> Candidate(Depth(c.root), c.id) in Owners(components, path);
        }
      case Some(id) =>
        var depth: nat :| depth in DepthsOf(components, path)
                          && IsLargest(Owners(components, path), Candidate(depth, id));
        var c :| c in components && Contains(c.root, path) && Candidate(Depth(c.root), c.id) == Candidate(depth, id);
        forall d | d in components && d != c && Contains(d.root, path)
          ensures Depth(d.root) < Depth(c.root)
        {
          OthersAreShallower(components, path, c, d);
        }
        assert DeepestOwner(components, path, c);
    }
  }

  // The component's root is the repository, the file, or a directory above it.
  predicate Owns(c: Component, path: string) {
    || c.root == "."
    || c.root == path
    || (|c.root| < |path| && path[..|c.root|] == c.root && path[|c.root|] == '/')
  }

  // d's root lies above c's, or is the same under the same or a smaller identifier.
  predicate YieldsTo(d: Component, c: Component) {
    if d.root == c.root then d.id == c.id || TextBefore(d.id, c.id) else Owns(d, c.root)
  }

  lemma OthersYield(components: set<Component>, path: string, c: Component, d: Component)
    requires c in components && d in components && Owns(c, path) && Owns(d, path)
    requires IsLargest(Owners(components, path), Candidate(Depth(c.root), c.id))
    ensures YieldsTo(d, c)
  {
    OwnsMeans(c, path);
    OwnsMeans(d, path);
    assert Candidate(Depth(d.root), d.id) in Owners(components, path);
    if d.root != c.root {
      DepthsDiffer(d.root, c.root, path);
      OwnsMeans(d, c.root);
    }
  }

  // For any components: nobody answers for a file nobody owns; otherwise an owner
  // does whose root lies below every other owner's root, or at the same root has
  // the greater identifier.
  lemma OwnerIsAnswered(components: set<Component>, path: string, r: Option<string>)
    requires Resolves(components, path, r)
    ensures match r
      case None => forall c :: c in components ==> !Owns(c, path)
      case Some(id) =>
        exists c :: c in components && Owns(c, path) && c.id == id &&
          forall d :: d in components && Owns(d, path) ==> YieldsTo(d, c)
  {
    if r.Some? {
      var depth: nat :| depth in DepthsOf(components, path)
                        && IsLargest(Owners(components, path), Candidate(depth, r.value));
      var c :| c in components && Contains(c.root, path) && Candidate(Depth(c.root), c.id) == Candidate(depth, r.value);
      OwnsMeans(c, path);
      forall d | d in components && Owns(d, path)
        ensures YieldsTo(d, c)
      {
        OthersYield(components, path, c, d);
      }
    } else {
      forall c | c in components
        ensures !Owns(c, path)
      {
        OwnsMeans(c, path);
        assert Contains(c.root, path) ==> Candidate(Depth(c.root), c.id) in Owners(components, path);
      }
    }
  }

  lemma OwnsMeans(c: Component, path: string)
    ensures Owns(c, path) <==> Contains(c.root, path)
  {
    if |c.root| < |path| && path[..|c.root|] == c.root && path[|c.root|] == '/' {
      assert path == c.root + "/" + path[|c.root| + 1..];
    }
    if c.root + "/" <= path {
      assert path[..|c.root| + 1] == c.root + "/";
      assert path[..|c.root|] == path[..|c.root| + 1][..|c.root|];
    }
  }

  // Profile building preserves ownership: for components with distinct
  // identifiers and roots, as the resolver builds them, the service a file
  // resolves to is the component it resolved to before.
  lemma BuildingPreservesOwnership(components: seq<Component>, services: map<string, string>, path: string,
                                   component: Option<string>, service: Option<string>)
    requires DistinctIds(components) && DistinctRoots(components)
    requires Listed(services) == ToSet(components)
    requires Resolves(ToSet(components), path, component) && Resolves(Listed(services), path, service)
    ensures component == service
    ensures service.Some? ==> exists c :: DeepestOwner(ToSet(components), path, c) && c.id == service.value
  {
    var all := ToSet(components);
    ResolvesIsUnique(all, path, component, service);
    forall c, d | c in all && d in all && c != d
      ensures c.root != d.root
    {
      var i :| 0 <= i < |components| && components[i] == c;
      var j :| 0 <= j < |components| && components[j] == d;
    }
    AnswerIsDeepest(all, path, service);
  }
}
