/**
  The shared resource budget of api/scheduler.py: a counting budget in three
  dimensions and the leases drawn from it.
 */
module Resources {
  datatype Request = Request(sandboxes: int, cpu: real, memory: int)

  const NOTHING := Request(0, 0.0, 0)

  predicate NonNegative(r: Request) {
    0 <= r.sandboxes && 0.0 <= r.cpu && 0 <= r.memory
  }

  predicate Within(r: Request, bound: Request) {
    r.sandboxes <= bound.sandboxes && r.cpu <= bound.cpu && r.memory <= bound.memory
  }

  function Plus(a: Request, b: Request): Request {
    Request(a.sandboxes + b.sandboxes, a.cpu + b.cpu, a.memory + b.memory)
  }

  function Minus(a: Request, b: Request): Request {
    Request(a.sandboxes - b.sandboxes, a.cpu - b.cpu, a.memory - b.memory)
  }

  function Clamp(r: Request): (c: Request)
    ensures 0 <= c.sandboxes && r.sandboxes <= c.sandboxes && (c.sandboxes == 0 || c.sandboxes == r.sandboxes)
    ensures 0.0 <= c.cpu && r.cpu <= c.cpu && (c.cpu == 0.0 || c.cpu == r.cpu)
    ensures 0 <= c.memory && r.memory <= c.memory && (c.memory == 0 || c.memory == r.memory)
  {
    Request(if r.sandboxes < 0 then 0 else r.sandboxes,
            if r.cpu < 0.0 then 0.0 else r.cpu,
            if r.memory < 0 then 0 else r.memory)
  }

  // The condition `_validate_request` checks before any waiting.
  predicate Admissible(capacity: Request, r: Request) {
    NonNegative(r) && Within(r, capacity)
  }

  predicate Fits(capacity: Request, used: Request, r: Request) {
    Within(Plus(used, r), capacity)
  }

  // The sum of the first n requests.
  function Total(requests: seq<Request>, n: nat): Request
    requires n <= |requests|
  {
    if n == 0 then NOTHING else Plus(Total(requests, n - 1), requests[n - 1])
  }

  // Replacing one summand moves the total by exactly the difference.
  lemma {:induction false} TotalUpdate(requests: seq<Request>, n: nat, i: nat, r: Request)
    requires i < |requests| && n <= |requests|
    ensures Total(requests[i := r], n) ==
      if i < n then Plus(Minus(Total(requests, n), requests[i]), r) else Total(requests, n)
  {
    if n > 0 {
      TotalUpdate(requests, n - 1, i, r);
    }
  }

  lemma {:induction false} TotalNonNegative(requests: seq<Request>, n: nat)
    requires n <= |requests| && forall i :: 0 <= i < |requests| ==> NonNegative(requests[i])
    ensures NonNegative(Total(requests, n))
  {
    if n > 0 {
      TotalNonNegative(requests, n - 1);
    }
  }

  lemma {:induction false} TotalPrefix(requests: seq<Request>, r: Request, n: nat)
    requires n <= |requests|
    ensures Total(requests + [r], n) == Total(requests, n)
  {
    if n > 0 {
      TotalPrefix(requests, r, n - 1);
    }
  }

  // `used` is what the leases hold, and the capacity is respected.
  ghost predicate Accounts(capacity: Request, used: Request, held: seq<Request>) {
    && (forall i :: 0 <= i < |held| ==> NonNegative(held[i]))
    && used == Total(held, |held|)
    && Within(used, capacity)
  }

  lemma GrantAccounts(capacity: Request, used: Request, held: seq<Request>, r: Request)
    requires Accounts(capacity, used, held) && NonNegative(r) && Fits(capacity, used, r)
    ensures Accounts(capacity, Plus(used, r), held + [r])
  {
    TotalPrefix(held, r, |held|);
  }

  // Giving one share back: the clamp at zero never fires.
  lemma ReleaseAccounts(capacity: Request, used: Request, held: seq<Request>, i: nat)
    requires Accounts(capacity, used, held) && i < |held|
    ensures Clamp(Minus(used, held[i])) == Minus(used, held[i])
    ensures Accounts(capacity, Minus(used, held[i]), held[i := NOTHING])
  {
    var rest := held[i := NOTHING];
    TotalUpdate(held, |held|, i, NOTHING);
    TotalNonNegative(rest, |rest|);
    Remainder(used, held[i], Total(rest, |rest|));
  }

  lemma Remainder(used: Request, r: Request, rest: Request)
    requires rest == Plus(Minus(used, r), NOTHING) && NonNegative(rest) && NonNegative(r)
    ensures rest == Minus(used, r) == Clamp(Minus(used, r)) && Within(rest, used)
  {
  }

  datatype Outcome = Granted | MustWait | Refused | StoppedByToken

  class ResourceLease {
    const request: Request
    var released: bool

    constructor (request: Request)
      ensures this.request == request && !released
    {
      this.request := request;
      released := false;
    }
  }

  class ResourceBudget {
    const capacity: Request
    var used: Request
    ghost var leases: seq<ResourceLease>   // every lease ever granted
    ghost var held: seq<Request>           // what each of them still holds

    ghost predicate Valid()
      reads this, leases
    {
      && 1 <= capacity.sandboxes && 0.0 < capacity.cpu && 1 <= capacity.memory
      && (forall i, j :: 0 <= i < j < |leases| ==> leases[i] != leases[j])
      && |held| == |leases|
      && (forall i :: 0 <= i < |leases| ==> held[i] == if leases[i].released then NOTHING else leases[i].request)
      && Accounts(capacity, used, held)
    }

    constructor (capacity: Request)
      requires 1 <= capacity.sandboxes && 0.0 < capacity.cpu && 1 <= capacity.memory
      ensures Valid() && this.capacity == capacity && leases == [] && used == Request(0, 0.0, 0)
    {
      this.capacity := capacity;
      used := NOTHING;
      leases, held := [], [];
    }

    // One turn of the `acquire` loop under the condition lock. A waiting caller
    // comes back with a fresh turn after `wait`.
    method TryAcquire(request: Request, cancelled: bool) returns (outcome: Outcome, lease: ResourceLease?)
      requires Valid()
      modifies this
      ensures Valid()
      ensures outcome.Refused? <==>
        || request.sandboxes < 0 || request.cpu < 0.0 || request.memory < 0
        || capacity.sandboxes < request.sandboxes || capacity.cpu < request.cpu || capacity.memory < request.memory
      ensures !outcome.Refused? ==> (outcome.StoppedByToken? <==> cancelled)
      ensures !outcome.Refused? && !cancelled ==>
        (outcome.Granted? <==>
           && old(used).sandboxes + request.sandboxes <= capacity.sandboxes
           && old(used).cpu + request.cpu <= capacity.cpu && old(used).memory + request.memory <= capacity.memory)
      ensures outcome.Granted? ==>
        && lease != null && fresh(lease) && lease.request == request && !lease.released
        && leases == old(leases) + [lease]
        && used == Request(old(used).sandboxes + request.sandboxes, old(used).cpu + request.cpu,
                           old(used).memory + request.memory)
      ensures !outcome.Granted? ==> lease == null && used == old(used) && leases == old(leases)
    {
      lease := null;
      if !Admissible(capacity, request) {
        return Refused, null;
      }
      if cancelled {
        return StoppedByToken, null;
      }
      if !Fits(capacity, used, request) {
        return MustWait, null;
      }
      GrantAccounts(capacity, used, held, request);
      used := Plus(used, request);
      lease := new ResourceLease(request);
      leases, held := leases + [lease], held + [request];
      outcome := Granted;
    }

    // `ResourceLease.release`: the flag, then the subtraction. The clamp at zero
    // never changes the result, and a second release changes nothing.
    method Release(lease: ResourceLease)
      requires Valid() && lease in leases
      modifies this, lease
      ensures Valid() && lease.released && leases == old(leases)
      ensures old(lease.released) ==> used == old(used)
      ensures !old(lease.released) ==>
        used == Request(old(used).sandboxes - lease.request.sandboxes, old(used).cpu - lease.request.cpu,
                        old(used).memory - lease.request.memory)
    {
      if lease.released {
        return;
      }
      ghost var i :| 0 <= i < |leases| && leases[i] == lease;
      ReleaseAccounts(capacity, used, held, i);
      held := held[i := NOTHING];
      lease.released := true;
      used := Clamp(Minus(used, lease.request));
    }
  }
}
