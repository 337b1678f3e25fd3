/**
  The lifecycle of a Compose session and of the managed session around it:
  executor/sandbox_session.py and executor/sandbox_manager.py.
 */
module SandboxSessions {
  import opened Wrappers

  // What a docker command comes to. During a teardown cancellation is
  // suspended, so `Interrupted` belongs to the start only; `Broke` is any
  // exception the session does not expect, such as a missing executable.
  datatype Outcome = Done(code: int, ids: seq<string>) | TimedOut | Interrupted | Broke

  datatype Error = SessionError | SessionTimeout | CleanupUnconfirmed | RunCancelled | Unexpected

  datatype Status = Created | Preparing | Starting | Ready | TearingDown | Closed | Failed | Expired

  const KINDS: nat := 3

  // The commands one teardown may issue: `down`, and for each kind of resource
  // the query and removal of the fallback and the query of the final check.
  datatype Cleanup = Cleanup(down: Outcome, find: seq<Outcome>, remove: seq<Outcome>, check: seq<Outcome>)

  predicate Complete(w: Cleanup) {
    && |w.find| == |w.remove| == |w.check| == KINDS
    && !w.down.Interrupted?
    && forall k :: 0 <= k < KINDS ==> !w.find[k].Interrupted? && !w.remove[k].Interrupted? && !w.check[k].Interrupted?
  }

  predicate Succeeds(o: Outcome) {
    o.Done? && o.code == 0
  }

  predicate FallsBack(w: Cleanup) {
    !Succeeds(w.down) && !w.down.Broke?
  }

  // The fallback for one kind is broken off, or leaves an error behind.
  predicate FallbackBreaks(w: Cleanup, k: nat)
    requires Complete(w) && k < KINDS
  {
    w.find[k].Broke? || (Succeeds(w.find[k]) && w.find[k].ids != [] && w.remove[k].Broke?)
  }

  predicate FallbackErrs(w: Cleanup, k: nat)
    requires Complete(w) && k < KINDS
  {
    !Succeeds(w.find[k]) || (w.find[k].ids != [] && w.remove[k].TimedOut?)
  }

  // An unexpected exception leaves the teardown before it is over.
  predicate Escapes(w: Cleanup)
    requires Complete(w)
  {
    || w.down.Broke?
    || (FallsBack(w) && exists k :: 0 <= k < KINDS && FallbackBreaks(w, k))
    || exists k :: 0 <= k < KINDS && w.check[k].Broke?
  }

  // Nothing is left for sure: all three final queries succeeded and came back
  // empty, and the fallback, if there was one, met no error.
  predicate Confirmed(w: Cleanup)
    requires Complete(w)
  {
    && (forall k :: 0 <= k < KINDS ==> Succeeds(w.check[k]) && w.check[k].ids == [])
    && (FallsBack(w) ==> forall k :: 0 <= k < KINDS ==> !FallbackErrs(w, k))
  }

  // What a start meets: the preparation, the first `up`, the clean-up between
  // two tries, the second `up`, the wait for readiness, the state query, and
  // the teardown a failure leads to.
  datatype Launch = Launch(
    prepare: Option<Error>,
    up: Outcome,
    down: Outcome,
    again: Outcome,
    wait: Option<Error>,
    collect: Option<Error>,
    cleanup: Cleanup)

  // The error `_command` raises; a non-zero code counts unless it is allowed.
  function CommandError(o: Outcome, allowFailure: bool): Option<Error> {
    match o
    case Done(code, _) => if code != 0 && !allowFailure then Some(SessionError) else None
    case TimedOut => Some(SessionTimeout)
    case Interrupted => Some(RunCancelled)
    case Broke => Some(Unexpected)
  }

  // The errors of the session's own class.
  predicate IsSessionError(e: Error) {
    e == SessionError || e == SessionTimeout || e == CleanupUnconfirmed
  }

  // `_start_compose`: one more try after a failed one.
  function ComposeError(w: Launch): Option<Error> {
    var first := CommandError(w.up, false);
    if first.None? || !IsSessionError(first.value) then first
    else
      var between := CommandError(w.down, true);
      if between.Some? then between else CommandError(w.again, false)
  }

  function StartError(w: Launch): Option<Error> {
    if w.prepare.Some? then w.prepare
    else if ComposeError(w).Some? then ComposeError(w)
    else if w.wait.Some? then w.wait
    else w.collect
  }

  // The two tries, from what their outcomes mean: the services are up exactly
  // when one `up` succeeded and no command in between stopped the session.
  lemma ComposeUpExactly(w: Launch)
    ensures ComposeError(w).None? <==>
      || Succeeds(w.up)
      || ((w.up.TimedOut? || w.up.Done?) && w.down.Done? && Succeeds(w.again))
  {
  }

  // The error of a command nothing is forgiven.
  predicate Raises(o: Outcome, e: Option<Error>) {
    match o
    case Done(code, _) => e == if code == 0 then None else Some(SessionError)
    case TimedOut => e == Some(SessionTimeout)
    case Interrupted => e == Some(RunCancelled)
    case Broke => e == Some(Unexpected)
  }

  // The error that comes out: of the first try if it was interrupted or broke, else
  // of the clean-up between the two if that did not come to an end, else of the
  // second try.
  lemma ComposeErrorIs(w: Launch)
    ensures match w.up
      case Done(0, _) => ComposeError(w).None?
      case Interrupted => ComposeError(w) == Some(RunCancelled)
      case Broke => ComposeError(w) == Some(Unexpected)
      case _ => if w.down.Done? then Raises(w.again, ComposeError(w)) else Raises(w.down, ComposeError(w))
  {
  }

  // A start raises the first of its four stages' errors.
  lemma StartErrorIs(w: Launch)
    ensures w.prepare.Some? ==> StartError(w) == w.prepare
    ensures w.prepare.None? && ComposeError(w).Some? ==> StartError(w) == ComposeError(w)
    ensures w.prepare.None? && ComposeError(w).None? && w.wait.Some? ==> StartError(w) == w.wait
    ensures w.prepare.None? && ComposeError(w).None? && w.wait.None? ==> StartError(w) == w.collect
  {
  }

  // A teardown is left early exactly when `down`, one of the final queries or, after
  // a `down` that failed, a query or a needed removal breaks.
  lemma EscapesExactly(w: Cleanup)
    requires Complete(w)
    ensures Escapes(w) <==>
      || w.down.Broke?
      || w.check[0].Broke? || w.check[1].Broke? || w.check[2].Broke?
      || (!(w.down.Done? && w.down.code == 0)
          && exists k :: 0 <= k < 3 &&
               (w.find[k].Broke?
                || (w.find[k].Done? && w.find[k].code == 0 && w.find[k].ids != [] && w.remove[k].Broke?)))
  {
    if FallsBack(w) && exists k :: 0 <= k < 3 && FallbackBreaks(w, k) {
      var k :| 0 <= k < 3 && FallbackBreaks(w, k);
      assert w.find[k].Broke?
             || (w.find[k].Done? && w.find[k].code == 0 && w.find[k].ids != [] && w.remove[k].Broke?);
    }
    if !w.down.Broke? && !(w.down.Done? && w.down.code == 0)
       && exists k :: 0 <= k < 3 && (w.find[k].Broke? || (w.find[k].Done? && w.find[k].code == 0
                                                         && w.find[k].ids != [] && w.remove[k].Broke?)) {
      var k :| 0 <= k < 3 && (w.find[k].Broke? || (w.find[k].Done? && w.find[k].code == 0
                                                   && w.find[k].ids != [] && w.remove[k].Broke?));
      assert FallsBack(w) && FallbackBreaks(w, k);
    }
    assert w.check[0].Broke? || w.check[1].Broke? || w.check[2].Broke? ==> Escapes(w);
  }

  // The status a teardown body leaves behind.
  function Ending(w: Cleanup): Status
    requires Complete(w)
  {
    if Escapes(w) then TearingDown else if Confirmed(w) then Closed else Failed
  }

  class SandboxSession {
    var status: Status
    var tornDown: bool
    var bodies: nat     // how often the teardown body was entered

    constructor ()
      ensures status == Created && !tornDown && bodies == 0
    {
      status, tornDown, bodies := Created, false, 0;
    }

    // `teardown`: the body runs at most once to its end; CLOSED is reached
    // exactly when the clean-up is confirmed.
    method Teardown(w: Cleanup, raiseOnFailure: bool) returns (error: Option<Error>)
      requires Complete(w)
      modifies this
      ensures old(tornDown) ==>
        error.None? && status == old(status) && tornDown && bodies == old(bodies)
      ensures !old(tornDown) ==>
        && bodies == old(bodies) + 1
        && tornDown == !Escapes(w)
        && status == Ending(w)
        && error == (if Escapes(w) then Some(Unexpected)
                     else if raiseOnFailure && !Confirmed(w) then Some(CleanupUnconfirmed)
                     else None)
    {
      if tornDown {
        return None;
      }
      bodies := bodies + 1;
      status := TearingDown;
      if w.down.Broke? {
        return Some(Unexpected);
      }
      var errors := false;
      if !Succeeds(w.down) {
        var k := 0;
        while k < KINDS
          invariant 0 <= k <= KINDS
          invariant forall i :: 0 <= i < k ==> !FallbackBreaks(w, i)
          invariant errors <==> exists i :: 0 <= i < k && FallbackErrs(w, i)
          invariant status == TearingDown && !tornDown && bodies == old(bodies) + 1
        {
          if w.find[k].Broke? {
            assert FallbackBreaks(w, k);
            return Some(Unexpected);
          }
          if !Succeeds(w.find[k]) {
            assert FallbackErrs(w, k);
            errors := true;
          } else if w.find[k].ids != [] {
            if w.remove[k].Broke? {
              assert FallbackBreaks(w, k);
              return Some(Unexpected);
            }
            if w.remove[k].TimedOut? {
              assert FallbackErrs(w, k);
              errors := true;
            }
          }
          k := k + 1;
        }
      }
      var clean := true;
      var k := 0;
      while k < KINDS
        invariant 0 <= k <= KINDS
        invariant forall i :: 0 <= i < k ==> !w.check[i].Broke?
        invariant clean <==> forall i :: 0 <= i < k ==> Succeeds(w.check[i]) && w.check[i].ids == []
        invariant status == TearingDown && !tornDown && bodies == old(bodies) + 1
      {
        if w.check[k].Broke? {
          return Some(Unexpected);
        }
        if !(Succeeds(w.check[k]) && w.check[k].ids == []) {
          clean := false;
        }
        k := k + 1;
      }
      tornDown := true;
      if !clean || errors {
        status := Failed;
        return if raiseOnFailure then Some(CleanupUnconfirmed) else None;
      }
      status := Closed;
      error := None;
    }

    // `start`: a failing start tears its own session down before it raises.
    method Start(w: Launch) returns (error: Option<Error>)
      requires Complete(w.cleanup) && !tornDown
      modifies this
      ensures StartError(w).None? ==> error.None? && status == Ready && !tornDown && bodies == old(bodies)
      ensures StartError(w).Some? ==>
        && bodies == old(bodies) + 1
        && tornDown == !Escapes(w.cleanup)
        && error == (if Escapes(w.cleanup) then Some(Unexpected) else StartError(w))
        && status == Ending(w.cleanup)
    {
      status := Preparing;
      error := w.prepare;
      if error.None? {
        status := Starting;
        error := StartCompose(w);
      }
      if error.None? {
        error := w.wait;
      }
      if error.None? {
        status := Ready;
        error := w.collect;
      }
      if error.None? {
        return;
      }
      status := if error == Some(SessionTimeout) then Expired else Failed;
      var escaped := Teardown(w.cleanup, false);
      if escaped.Some? {
        error := escaped;
      }
    }

    // `_start_compose`
    method StartCompose(w: Launch) returns (error: Option<Error>)
      ensures error.None? <==>
        || Succeeds(w.up)
        || ((w.up.TimedOut? || w.up.Done?) && w.down.Done? && Succeeds(w.again))
      ensures error == ComposeError(w)
    {
      error := CommandError(w.up, false);
      if error.Some? && IsSessionError(error.value) {
        error := CommandError(w.down, true);
        if error.None? {
          error := CommandError(w.again, false);
        }
      }
    }
  }

  // The last teardown body that runs when a managed session is used.
  function Decisive(w: Launch, second: Cleanup, exit: Cleanup): Cleanup
    requires Complete(w.cleanup)
  {
    if StartError(w).None? then exit else if Escapes(w.cleanup) then second else w.cleanup
  }

  // CLOSED is reached exactly when nothing broke off the teardown, all three
  // final label queries succeeded empty, and a fallback met no error; FAILED when it
  // was not, and the teardown came to its end.
  lemma ClosedExactly(w: Cleanup)
    requires Complete(w)
    ensures Ending(w) == Closed <==>
      && !w.down.Broke?
      && w.check == [Done(0, []), Done(0, []), Done(0, [])]
      && ((w.down.Done? && w.down.code == 0) || forall k :: 0 <= k < 3 ==>
            w.find[k].Done? && w.find[k].code == 0 && (w.find[k].ids == [] || w.remove[k].Done?))
    ensures Ending(w) == (if Escapes(w) then TearingDown else if Ending(w) == Closed then Closed else Failed)
  {
    if FallsBack(w) && Confirmed(w) && !Escapes(w) {
      forall k | 0 <= k < 3
        ensures Succeeds(w.find[k]) && (w.find[k].ids == [] || w.remove[k].Done?)
      {
        assert !FallbackErrs(w, k) && !FallbackBreaks(w, k);
      }
    }
    if Confirmed(w) {
      assert w.check == [Done(0, []), Done(0, []), Done(0, [])] by {
        assert forall k :: 0 <= k < 3 ==> w.check[k] == Done(0, []);
      }
    }
  }

  datatype ManagedStatus = New | Launching | InUse | Timeout | Broken | Cleaning | Over

  class ManagedSession {
    const session: SandboxSession
    var status: ManagedStatus
    var ready: bool
    var closed: bool

    constructor (session: SandboxSession)
      ensures this.session == session && status == New && !ready && !closed
    {
      this.session, status, ready, closed := session, New, false, false;
    }

    // `start`: after a failure the session is torn down once more, which is a
    // no-op unless the first teardown was broken off; `second` is what that
    // second attempt meets.
    method Start(w: Launch, second: Cleanup) returns (error: Option<Error>)
      requires Complete(w.cleanup) && Complete(second) && !session.tornDown && !closed && !ready
      modifies this, session
      ensures StartError(w).None? ==>
        error.None? && ready && !closed && status == InUse && !session.tornDown && session.bodies == old(session.bodies)
      ensures StartError(w).Some? ==>
        && error.Some? && !ready
        && session.bodies == old(session.bodies) + (if Escapes(w.cleanup) then 2 else 1)
        && session.tornDown == closed == !(Escapes(w.cleanup) && Escapes(second))
        && (!Escapes(w.cleanup) ==> error == StartError(w))
        && session.status == Ending(if Escapes(w.cleanup) then second else w.cleanup)
        && status == (if !Escapes(w.cleanup) && StartError(w) == Some(SessionTimeout) then Timeout else Broken)
    {
      status := Launching;
      error := session.Start(w);
      if error.None? {
        status, ready := InUse, true;
        return;
      }
      status := if error == Some(SessionTimeout) then Timeout else Broken;
      var escaped := session.Teardown(second, false);
      if escaped.Some? {
        return escaped;
      }
      closed := true;
    }

    // `teardown`: whatever the session's own teardown does, this one is over.
    method Teardown(w: Cleanup) returns (error: Option<Error>)
      requires Complete(w)
      modifies this, session
      ensures closed && (old(closed) ==> error.None? && status == old(status) && ready == old(ready))
      ensures old(closed) || old(session.tornDown) ==>
        session.bodies == old(session.bodies) && session.status == old(session.status)
        && session.tornDown == old(session.tornDown)
      ensures !old(closed) ==> !ready && status == Over
      ensures !old(closed) && !old(session.tornDown) ==>
        && session.bodies == old(session.bodies) + 1
        && session.tornDown == !Escapes(w)
        && session.status == Ending(w)
        && error == (if Escapes(w) then Some(Unexpected) else None)
    {
      if closed {
        return None;
      }
      status := Cleaning;
      error := session.Teardown(w, false);
      closed, ready, status := true, false, Over;
    }

    // The `with` statement: enter, use, exit. Counting both layers, a failing
    // start and a normal exit each run the teardown body exactly once, unless
    // an unexpected exception broke off the first one; then it runs once more.
    method Use(w: Launch, second: Cleanup, exit: Cleanup) returns (error: Option<Error>)
      requires Complete(w.cleanup) && Complete(second) && Complete(exit)
      requires !session.tornDown && session.bodies == 0 && !closed && !ready
      modifies this, session
      ensures session.bodies == (if StartError(w).Some? && Escapes(w.cleanup) then 2 else 1)
      ensures session.status == Ending(Decisive(w, second, exit))
      ensures session.tornDown == !Escapes(Decisive(w, second, exit))
      ensures status == Over <==> StartError(w).None?
      ensures status == Over ==> closed && (session.status == Closed <==> Ending(exit) == Closed)
      ensures !ready
    {
      error := Start(w, second);
      if error.None? {
        error := Teardown(exit);
      }
    }
  }
}
