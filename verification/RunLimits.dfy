/**
  The run limiter of executor/sandbox.py: how often each action may run and how
  many actions may run at once.
 */
module RunLimits {
  // How often an action has been counted.
  function Count(counts: map<string, nat>, id: string): nat {
    if id in counts then counts[id] else 0
  }

  // ---- the limiter, one caller at a time ----

  class RunLimiter {
    const maxRuns: int
    const maxConcurrent: nat
    var counts: map<string, nat>
    var free: nat

    ghost predicate Valid()
      reads this
    {
      free <= maxConcurrent
    }

    constructor (maxRuns: int, maxConcurrent: nat)
      ensures Valid() && this.maxRuns == maxRuns && this.maxConcurrent == maxConcurrent
      ensures counts == map[] && free == maxConcurrent
    {
      this.maxRuns, this.maxConcurrent := maxRuns, maxConcurrent;
      counts, free := map[], maxConcurrent;
    }

    predicate CanGrant(id: string)
      reads this
    {
      Count(counts, id) < maxRuns && 0 < free
    }

    // A grant costs one run and one permit; a refusal costs neither.
    method Acquire(id: string) returns (granted: bool)
      requires Valid()
      modifies this
      ensures Valid()
      ensures granted == old(CanGrant(id))
      ensures free == old(free) - if granted then 1 else 0
      ensures forall other ::
        Count(counts, other) == old(Count(counts, other)) + (if granted && other == id then 1 else 0)
    {
      if Count(counts, id) >= maxRuns {
        return false;
      }
      counts := counts[id := Count(counts, id) + 1];
      if free == 0 {
        counts := counts[id := Count(counts, id) - 1];
        return false;
      }
      free := free - 1;
      granted := true;
    }

    // Releasing more often than acquiring changes nothing.
    method Release()
      requires Valid()
      modifies this`free
      ensures Valid()
      ensures free == if old(free) < maxConcurrent then old(free) + 1 else maxConcurrent
    {
      if free < maxConcurrent {
        free := free + 1;
      }
    }
  }

  // ---- the same two methods, interleaved ----

  datatype Caller = Away | Reserved(id: string) | TurnedAway(id: string) | Holding(id: string)

  datatype Limits = Limits(maxRuns: int, maxConcurrent: nat)

  // `granted` counts every grant ever made; the limiter itself does not keep it.
  datatype State = State(counts: map<string, nat>, free: nat, callers: seq<Caller>, granted: map<string, nat>)

  datatype Event =
    | Reserve(caller: nat, id: string)
    | TakePermit(caller: nat)
    | RollBack(caller: nat)
    | Release(caller: nat)

  function Fresh(l: Limits, callers: nat): State {
    State(map[], l.maxConcurrent, seq(callers, _ => Away), map[])
  }

  // One lock region each: the count check, the permit, the rollback, the release.
  function Step(l: Limits, s: State, e: Event): State {
    if e.caller >= |s.callers| then s
    else
      match (e, s.callers[e.caller])
      case (Reserve(c, id), Away) =>
        if Count(s.counts, id) >= l.maxRuns then s
        else s.(counts := s.counts[id := Count(s.counts, id) + 1], callers := s.callers[c := Reserved(id)])
      case (TakePermit(c), Reserved(id)) =>
        if s.free == 0 then s.(callers := s.callers[c := TurnedAway(id)])
        else s.(free := s.free - 1, callers := s.callers[c := Holding(id)],
                granted := s.granted[id := Count(s.granted, id) + 1])
      case (RollBack(c), TurnedAway(id)) =>
        if Count(s.counts, id) == 0 then s
        else s.(counts := s.counts[id := Count(s.counts, id) - 1], callers := s.callers[c := Away])
      case (Release(c), Holding(_)) =>
        s.(free := if s.free < l.maxConcurrent then s.free + 1 else s.free, callers := s.callers[c := Away])
      case _ => s
  }

  function Run(l: Limits, callers: nat, events: seq<Event>): State {
    if events == [] then Fresh(l, callers)
    else Step(l, Run(l, callers, events[..|events| - 1]), events[|events| - 1])
  }

  // ---- what a caller meets ----

  lemma OneMoreEvent(l: Limits, callers: nat, events: seq<Event>, e: Event)
    ensures Run(l, callers, events + [e]) == Step(l, Run(l, callers, events), e)
  {
    assert (events + [e])[..|events|] == events;
  }

  // The caller is there, does this, and only its own place in the list changes.
  predicate Becomes(s: State, t: State, c: nat, next: Caller) {
    c < |s.callers| && t.callers == s.callers[c := next]
  }

  ghost predicate CountsOneMore(counts: map<string, nat>, more: map<string, nat>, id: string) {
    && Count(more, id) == Count(counts, id) + 1
    && forall other :: other != id ==> Count(more, other) == Count(counts, other)
  }

  lemma CallerReserves(l: Limits, s: State, c: nat, id: string)
    requires c < |s.callers| && s.callers[c] == Away && Count(s.counts, id) < l.maxRuns
    ensures var t := Step(l, s, Reserve(c, id));
      && Becomes(s, t, c, Reserved(id)) && CountsOneMore(s.counts, t.counts, id)
      && t.free == s.free && t.granted == s.granted
  {
  }

  lemma CallerTakes(l: Limits, s: State, c: nat, id: string)
    requires c < |s.callers| && s.callers[c] == Reserved(id)
    ensures var t := Step(l, s, TakePermit(c));
      && t.counts == s.counts
      && (s.free > 0 ==> Becomes(s, t, c, Holding(id)) && t.free == s.free - 1
                         && CountsOneMore(s.granted, t.granted, id))
      && (s.free == 0 ==> Becomes(s, t, c, TurnedAway(id)) && t.free == 0 && t.granted == s.granted)
  {
  }

  lemma CallerRollsBack(l: Limits, s: State, c: nat, id: string)
    requires c < |s.callers| && s.callers[c] == TurnedAway(id) && Count(s.counts, id) > 0
    ensures var t := Step(l, s, RollBack(c));
      && Becomes(s, t, c, Away) && CountsOneMore(t.counts, s.counts, id)
      && t.free == s.free && t.granted == s.granted
  {
  }

  // While runs and permits are left a caller that asks gets one of each.
  lemma CallerIsGranted(l: Limits, callers: nat, events: seq<Event>, c: nat, id: string)
    requires c < |Run(l, callers, events).callers| && Run(l, callers, events).callers[c] == Away
    requires Count(Run(l, callers, events).counts, id) < l.maxRuns && Run(l, callers, events).free > 0
    ensures var s, t := Run(l, callers, events), Run(l, callers, events + [Reserve(c, id)] + [TakePermit(c)]);
      && Becomes(s, t, c, Holding(id)) && t.free == s.free - 1
      && CountsOneMore(s.counts, t.counts, id) && CountsOneMore(s.granted, t.granted, id)
  {
    var s := Run(l, callers, events);
    OneMoreEvent(l, callers, events, Reserve(c, id));
    OneMoreEvent(l, callers, events + [Reserve(c, id)], TakePermit(c));
    CallerReserves(l, s, c, id);
    CallerTakes(l, Step(l, s, Reserve(c, id)), c, id);
  }

  // Without a permit the reservation is taken back, and nothing has changed.
  lemma CallerIsTurnedAway(l: Limits, callers: nat, events: seq<Event>, c: nat, id: string)
    requires c < |Run(l, callers, events).callers| && Run(l, callers, events).callers[c] == Away
    requires Count(Run(l, callers, events).counts, id) < l.maxRuns && Run(l, callers, events).free == 0
    ensures var s := Run(l, callers, events);
      var t := Run(l, callers, events + [Reserve(c, id)] + [TakePermit(c)] + [RollBack(c)]);
      && t.callers == s.callers && t.free == 0 && t.granted == s.granted
      && forall other :: Count(t.counts, other) == Count(s.counts, other)
  {
    var s := Run(l, callers, events);
    var reserved := Step(l, s, Reserve(c, id));
    var refused := Step(l, reserved, TakePermit(c));
    OneMoreEvent(l, callers, events, Reserve(c, id));
    OneMoreEvent(l, callers, events + [Reserve(c, id)], TakePermit(c));
    OneMoreEvent(l, callers, events + [Reserve(c, id)] + [TakePermit(c)], RollBack(c));
    CallerReserves(l, s, c, id);
    CallerTakes(l, reserved, c, id);
    CallerRollsBack(l, refused, c, id);
    ComesAndGoes(s, reserved, refused, Step(l, refused, RollBack(c)), c, id);
  }

  lemma ComesAndGoes(s: State, reserved: State, refused: State, t: State, c: nat, id: string)
    requires c < |s.callers| && s.callers[c] == Away
    requires Becomes(s, reserved, c, Reserved(id)) && Becomes(reserved, refused, c, TurnedAway(id))
    requires Becomes(refused, t, c, Away)
    requires CountsOneMore(s.counts, reserved.counts, id) && refused.counts == reserved.counts
    requires CountsOneMore(t.counts, refused.counts, id)
    ensures t.callers == s.callers && forall other :: Count(t.counts, other) == Count(s.counts, other)
  {
  }

  // Without runs left nothing happens at all.
  lemma CallerIsRefused(l: Limits, callers: nat, events: seq<Event>, c: nat, id: string)
    requires c < |Run(l, callers, events).callers| && Run(l, callers, events).callers[c] == Away
    requires Count(Run(l, callers, events).counts, id) >= l.maxRuns
    ensures Run(l, callers, events + [Reserve(c, id)]) == Run(l, callers, events)
  {
    OneMoreEvent(l, callers, events, Reserve(c, id));
  }

  // A permit goes back, and the run it was for stays counted.
  lemma PermitGoesBack(l: Limits, callers: nat, events: seq<Event>, c: nat)
    requires c < |Run(l, callers, events).callers| && Run(l, callers, events).callers[c].Holding?
    ensures var s, t := Run(l, callers, events), Run(l, callers, events + [Release(c)]);
      Becomes(s, t, c, Away) && t.free == s.free + 1 && t.counts == s.counts && t.granted == s.granted
  {
    OneMoreEvent(l, callers, events, Release(c));
    NothingIsClamped(l, callers, events, c);
  }

  predicate InFlight(c: Caller, id: string) {
    c == Reserved(id) || c == TurnedAway(id)
  }

  // Among the first n callers: reservations of `id` not yet granted or undone.
  function Pending(callers: seq<Caller>, id: string, n: nat): nat
    requires n <= |callers|
  {
    if n == 0 then 0 else Pending(callers, id, n - 1) + if InFlight(callers[n - 1], id) then 1 else 0
  }

  function Holders(callers: seq<Caller>, n: nat): nat
    requires n <= |callers|
  {
    if n == 0 then 0 else Holders(callers, n - 1) + if callers[n - 1].Holding? then 1 else 0
  }

  lemma {:induction false} PendingUpdate(callers: seq<Caller>, id: string, n: nat, c: nat, next: Caller)
    requires n <= |callers| && c < |callers|
    ensures Pending(callers[c := next], id, n) ==
      Pending(callers, id, n)
      - (if c < n && InFlight(callers[c], id) then 1 else 0) + (if c < n && InFlight(next, id) then 1 else 0)
  {
    if n > 0 {
      PendingUpdate(callers, id, n - 1, c, next);
    }
  }

  lemma {:induction false} HoldersUpdate(callers: seq<Caller>, n: nat, c: nat, next: Caller)
    requires n <= |callers| && c < |callers|
    ensures Holders(callers[c := next], n) ==
      Holders(callers, n)
      - (if c < n && callers[c].Holding? then 1 else 0) + (if c < n && next.Holding? then 1 else 0)
  {
    if n > 0 {
      HoldersUpdate(callers, n - 1, c, next);
    }
  }

  lemma {:induction false} NobodyAtFirst(callers: nat, id: string, n: nat)
    requires n <= callers
    ensures Pending(seq(callers, _ => Away), id, n) == 0 && Holders(seq(callers, _ => Away), n) == 0
  {
    if n > 0 {
      NobodyAtFirst(callers, id, n - 1);
    }
  }

  predicate CountAdds(l: Limits, s: State, id: string) {
    && Count(s.counts, id) == Count(s.granted, id) + Pending(s.callers, id, |s.callers|)
    && (Count(s.counts, id) > 0 ==> Count(s.counts, id) <= l.maxRuns)
  }

  predicate PermitsAdd(l: Limits, s: State) {
    Holders(s.callers, |s.callers|) + s.free == l.maxConcurrent
  }

  lemma StepKeepsCount(l: Limits, s: State, e: Event, id: string)
    requires CountAdds(l, s, id)
    ensures CountAdds(l, Step(l, s, e), id)
  {
    if e.caller < |s.callers| {
      PendingUpdate(s.callers, id, |s.callers|, e.caller, Step(l, s, e).callers[e.caller]);
      assert Step(l, s, e).callers == s.callers[e.caller := Step(l, s, e).callers[e.caller]];
    }
  }

  lemma StepKeepsPermits(l: Limits, s: State, e: Event)
    requires PermitsAdd(l, s)
    ensures PermitsAdd(l, Step(l, s, e))
  {
    if e.caller < |s.callers| {
      HoldersUpdate(s.callers, |s.callers|, e.caller, Step(l, s, e).callers[e.caller]);
      assert Step(l, s, e).callers == s.callers[e.caller := Step(l, s, e).callers[e.caller]];
      if e.Release? && s.callers[e.caller].Holding? {
        HolderCounts(s.callers, |s.callers|, e.caller);
      }
    }
  }

  lemma {:induction false} HolderCounts(callers: seq<Caller>, n: nat, c: nat)
    requires c < n <= |callers| && callers[c].Holding?
    ensures Holders(callers, n) > 0
  {
    if c < n - 1 {
      HolderCounts(callers, n - 1, c);
    }
  }

  // Over every interleaving: what is counted against an action is what was
  // granted plus what is in flight, and never exceeds the limit.
  lemma {:induction false} CountsAddUp(l: Limits, callers: nat, events: seq<Event>, id: string)
    ensures CountAdds(l, Run(l, callers, events), id)
  {
    if events == [] {
      NobodyAtFirst(callers, id, callers);
    } else {
      CountsAddUp(l, callers, events[..|events| - 1], id);
      StepKeepsCount(l, Run(l, callers, events[..|events| - 1]), events[|events| - 1], id);
    }
  }

  // Over every interleaving: permits are held or free, never lost or created.
  lemma {:induction false} PermitsAddUp(l: Limits, callers: nat, events: seq<Event>)
    ensures PermitsAdd(l, Run(l, callers, events))
  {
    if events == [] {
      NobodyAtFirst(callers, "", callers);
    } else {
      PermitsAddUp(l, callers, events[..|events| - 1]);
      StepKeepsPermits(l, Run(l, callers, events[..|events| - 1]), events[|events| - 1]);
    }
  }

  // What the limiter is for.
  lemma LimitsHold(l: Limits, callers: nat, events: seq<Event>, id: string)
    ensures var s := Run(l, callers, events);
      && (Count(s.granted, id) > 0 ==> Count(s.granted, id) <= l.maxRuns)
      && Holders(s.callers, |s.callers|) <= l.maxConcurrent
  {
    CountsAddUp(l, callers, events, id);
    PermitsAddUp(l, callers, events);
  }

  // A rollback always finds the count it has to take back, and a release
  // always finds its permit missing: neither guard ever changes the outcome.
  lemma {:induction false} PendingCounts(callers: seq<Caller>, id: string, n: nat, c: nat)
    requires c < n <= |callers| && InFlight(callers[c], id)
    ensures Pending(callers, id, n) > 0
  {
    if c < n - 1 {
      PendingCounts(callers, id, n - 1, c);
    }
  }

  lemma NothingIsClamped(l: Limits, callers: nat, events: seq<Event>, c: nat)
    requires c < |Run(l, callers, events).callers|
    ensures var s := Run(l, callers, events);
      && (s.callers[c].TurnedAway? ==> Count(s.counts, s.callers[c].id) > 0)
      && (s.callers[c].Holding? ==> s.free < l.maxConcurrent)
  {
    var s := Run(l, callers, events);
    PermitsAddUp(l, callers, events);
    if s.callers[c].TurnedAway? {
      CountsAddUp(l, callers, events, s.callers[c].id);
      PendingCounts(s.callers, s.callers[c].id, |s.callers|, c);
    }
    if s.callers[c].Holding? {
      HolderCounts(s.callers, |s.callers|, c);
    }
  }
}
