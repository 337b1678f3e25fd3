/**
  What closing the scheduler does to unfinished runs: exactly when a run loses
  its last job unfinished, and what becomes of it.
 */
module RunStranding {
  import opened Wrappers
  import opened RunStore
  import opened Resources
  import opened Scheduler
  import opened RunProtocol
  import opened RunInvariant
  import opened RunLocated
  import opened RunKept
  import opened RunTheorems

  ghost predicate HasJob(s: State, run: RunId) {
    exists place :: SeenAt(s, run, place)
  }

  lemma JobIsPlace(s: State, run: RunId)
    requires Located(s)
    ensures HasJob(s, run) <==> run in s.past.place
  {
    if run in s.past.place {
      RecordedIsSeen(s, run);
    } else if HasJob(s, run) {
      var place :| SeenAt(s, run, place);
      SeenWhereRecorded(s, run, place);
    }
  }

  // With or without a close: an unfinished run has a job unless it was stranded.
  lemma UnfinishedHasJobExactly(c: Config, events: seq<Event>, run: RunId)
    requires Happens(c, events) && (After(c, events).boot.Restoring? || After(c, events).boot.Serving?)
    requires run in After(c, events).rows && !Terminal(After(c, events).rows[run].status)
    ensures HasJob(After(c, events), run) <==> run !in After(c, events).past.stranded
  {
    Reached(c, events);
    JobIsPlace(After(c, events), run);
  }

  // --- how a run is stranded ---

  // The submit of the run is about to be refused.
  predicate RefusedNext(s: State, run: RunId, k: nat) {
    k in s.callers && s.callers[k] == Submitting(run) && !s.sched.accepting
  }

  // The worker is about to drop the token of its run, and the run is not over.
  predicate LeftNext(s: State, run: RunId, w: nat) {
    Stands(s, w) && s.workers[w] == Busy(s.workers[w].job, Leaving) && s.workers[w].job.run == run
    && run in s.rows && !Terminal(s.rows[run].status)
  }

  // A run is stranded by a refused submit, by a worker that leaves it unfinished,
  // and by nothing else; the end of the process clears the mark.
  lemma StrandedExactly(c: Config, events: seq<Event>, e: Event, run: RunId)
    requires Happens(c, events + [e]) && Happens(c, events)
    ensures run in After(c, events + [e]).past.stranded <==>
      || (run in After(c, events).past.stranded && !e.Crash?)
      || (e.Continue? && RefusedNext(After(c, events), run, e.caller))
      || (e.Advance? && LeftNext(After(c, events), run, e.worker))
  {
    Reached(c, events);
    Extended(c, events, e);
    StepStrands(c, After(c, events), e, run);
  }

  lemma WorkerStrands(c: Config, s: State, e: Event, run: RunId)
    requires OfWorker(e) && WorkerEvent(c, s, e).Some?
    ensures run in WorkerEvent(c, s, e).value.past.stranded <==>
      run in s.past.stranded || (e.Advance? && LeftNext(s, run, e.worker))
  {
  }

  lemma CallerStrands(s: State, e: Event, run: RunId)
    requires CallersAt(s) && CallerEvent(s, e).Some?
    ensures run in CallerEvent(s, e).value.past.stranded <==>
      run in s.past.stranded || (e.Continue? && RefusedNext(s, run, e.caller))
  {
    assert e.Continue? ==> CallerAt(s, e.caller);
  }

  lemma BootStrands(c: Config, s: State, e: Event)
    requires Shaped(c, s) && BootEvent(c, s, e).Some?
    ensures BootEvent(c, s, e).value.past.stranded == if e.Crash? then {} else s.past.stranded
  {
  }

  lemma StepStrands(c: Config, s: State, e: Event, run: RunId)
    requires CallersAt(s) && Shaped(c, s) && Step(c, s, e).Some?
    ensures run in Step(c, s, e).value.past.stranded <==>
      || (run in s.past.stranded && !e.Crash?)
      || (e.Continue? && RefusedNext(s, run, e.caller))
      || (e.Advance? && LeftNext(s, run, e.worker))
  {
    match e
    case Advance(_) | Raise(_) | PipelineReturns(_, _) | PipelineStops(_) | Report(_, _, _) => WorkerStrands(c, s, e, run);
    case Create(_, _, _) | CancelRun(_, _, _) | Continue(_) => CallerStrands(s, e, run);
    case Close(_) | CloserStep =>
    case _ => BootStrands(c, s, e);
  }

  // The last step of a callback, or skipping it under a set token, leaves the run
  // terminal exactly when it was not cancelled or the store had stopped it
  // before: the guard of `mark_cancelled` is the whole difference.
  lemma LeavesFinishedExactly(c: Config, events: seq<Event>, w: nat)
    requires Happens(c, events) && Happens(c, events + [Advance(w)]) && Stands(After(c, events), w)
    requires After(c, events).workers[w].stage.Taken? || After(c, events).workers[w].stage.Settling?
    requires After(c, events + [Advance(w)]).workers[w].stage.Leaving?
    ensures var before, after := After(c, events), After(c, events + [Advance(w)]);
      var run, stage := before.workers[w].job.run, before.workers[w].stage;
      && run in after.rows
      && (Terminal(after.rows[run].status) <==> stage == Settling(false) || Stopped(before.rows, run))
  {
    Reached(c, events);
    Extended(c, events, Advance(w));
    assert StagedAt(After(c, events), w);
  }

  // --- running rows and leases ---

  predicate WorksOn(s: State, run: RunId, w: nat) {
    Stands(s, w) && s.workers[w].job.run == run && Active(s.workers[w].stage) && HoldsLease(s.workers[w])
  }

  // On the way out after a cancellation, or past `mark_cancelled`.
  predicate GivesUp(stage: Stage) {
    match stage
    case Finishing(_, stop) => stop
    case Flagged(stop) => stop
    case Settling(stop) => stop
    case Leaving => true
    case _ => false
  }

  predicate GivesUpOn(s: State, run: RunId, w: nat) {
    Stands(s, w) && s.workers[w].job.run == run && GivesUp(s.workers[w].stage)
  }

  // A running row has a worker that holds its lease exactly when the run was not
  // stranded and its worker is not on the way out after a cancellation.
  lemma RunningHeldExactly(c: Config, events: seq<Event>, run: RunId)
    requires Happens(c, events) && (After(c, events).boot.Restoring? || After(c, events).boot.Serving?)
    requires HasStatus(After(c, events).rows, run, {Running})
    ensures var s := After(c, events);
      (exists w :: WorksOn(s, run, w)) <==> run !in s.past.stranded && forall w :: !GivesUpOn(s, run, w)
  {
    var s := After(c, events);
    Reached(c, events);
    if run in s.past.place {
      assert PlaceBacked(s, run) && s.past.place[run].AtWorker?;
      RunningAtWorker(s, run, s.past.place[run].worker);
    } else {
      forall w: nat | Stands(s, w)
        ensures s.workers[w].job.run != run
      {
        assert JobAt(s, s.workers[w].job, AtWorker(w));
      }
    }
  }

  lemma RunningAtWorker(s: State, run: RunId, w: nat)
    requires Located(s) && Staged(s) && HasStatus(s.rows, run, {Running})
    requires Stands(s, w) && s.workers[w].job.run == run
    ensures WorksOn(s, run, w) <==> !GivesUpOn(s, run, w)
    ensures forall v: nat :: v != w ==> !WorksOn(s, run, v) && !GivesUpOn(s, run, v)
  {
    assert StagedAt(s, w) && JobAt(s, s.workers[w].job, AtWorker(w));
    forall v: nat | Stands(s, v) && s.workers[v].job.run == run
      ensures v == w
    {
      assert JobAt(s, s.workers[v].job, AtWorker(v));
    }
  }

  // --- what becomes of a stranded run ---

  // Inserting a row and submitting its job are two steps: the run gets its job
  // exactly when the scheduler still accepts, and is stranded otherwise.
  lemma SubmittedExactly(c: Config, events: seq<Event>, k: nat, run: RunId)
    requires Happens(c, events) && k in After(c, events).callers && After(c, events).callers[k] == Submitting(run)
    ensures Happens(c, events + [Continue(k)])
    ensures var before, after := After(c, events), After(c, events + [Continue(k)]);
      && (HasJob(after, run) <==> before.sched.accepting)
      && (run in after.past.stranded <==> !before.sched.accepting)
      && after.rows == before.rows && HasStatus(after.rows, run, {Queued, Cancelled})
  {
    var s := After(c, events);
    Reached(c, events);
    Extended(c, events, Continue(k));
    Reached(c, events + [Continue(k)]);
    assert CallerAt(s, k) && RunAt(s, run, InSubmit(k));
    JobIsPlace(After(c, events + [Continue(k)]), run);
  }

  ghost predicate SameProcess(events: seq<Event>) {
    forall i :: 0 <= i < |events| ==> !events[i].Crash?
  }

  ghost predicate Uncancelled(events: seq<Event>, run: RunId) {
    forall i :: 0 <= i < |events| && events[i].CancelRun? ==> events[i].run != run
  }

  lemma WorkerSpares(c: Config, s: State, e: Event, run: RunId)
    requires WorkersAt(s) && OfWorker(e) && WorkerEvent(c, s, e).Some? && run in s.rows && run !in s.past.place
    ensures var s' := WorkerEvent(c, s, e).value;
      run in s'.rows && s'.rows[run] == s.rows[run]
  {
    if Stands(s, e.worker) && MoveOf(c, s, e).Some? {
      assert JobAt(s, s.workers[e.worker].job, AtWorker(e.worker));
      MoveOneRow(c, s, e);
    }
  }

  // A row without a job is changed by cancel requests and by a new process only.
  lemma StepSparesRow(c: Config, s: State, e: Event, run: RunId)
    requires WorkersAt(s) && Shaped(c, s) && StrandedApart(s) && Step(c, s, e).Some? && run in s.past.stranded
    ensures var s' := Step(c, s, e).value;
      && run in s.rows && run in s'.rows
      && (s'.rows[run] == s.rows[run] || (e.CancelRun? && e.run == run))
  {
    match e
    case Advance(_) | Raise(_) | PipelineReturns(_, _) | PipelineStops(_) | Report(_, _, _) => WorkerSpares(c, s, e, run);
    case Create(_, _, _) | CancelRun(_, _, _) | Continue(_) =>
    case Close(_) | CloserStep =>
    case _ =>
  }

  // For the rest of the process a stranded run never has a job again, and only a
  // cancel request changes its row.
  lemma {:induction false} StrandedStays(c: Config, before: seq<Event>, later: seq<Event>, run: RunId)
    requires Happens(c, before + later) && Happens(c, before) && SameProcess(later)
    requires run in After(c, before).past.stranded
    ensures run in After(c, before + later).past.stranded && !HasJob(After(c, before + later), run)
    ensures run in After(c, before).rows && run in After(c, before + later).rows
    ensures Uncancelled(later, run) ==> After(c, before + later).rows[run] == After(c, before).rows[run]
    decreases later
  {
    Reached(c, before + later);
    JobIsPlace(After(c, before + later), run);
    if later == [] {
      assert before + later == before;
    } else {
      var rest, e := later[..|later| - 1], later[|later| - 1];
      assert before + later == (before + rest) + [e];
      PrefixHappens(c, before + rest, [e]);
      Extended(c, before + rest, e);
      StrandedStays(c, before, rest, run);
      Reached(c, before + rest);
      StepStrands(c, After(c, before + rest), e, run);
      StepSparesRow(c, After(c, before + rest), e, run);
    }
  }

  // --- a submit that comes too late ---

  const TOO_LATE := BOOTED + [Create(0, 7, 0)] + [Close([])] + [Continue(0)]
  const TOO_LATE_STATE := BOOTED_STATE.(
    rows := map[7 := FreshRow(0)], sched := Sched(false, map[], [], 0, {}), closer := Firing([]),
    past := NO_PAST.(stranded := {7}))

  // The row was inserted, the scheduler closed, the submit was refused: the row
  // stays queued and no job is left for it.
  lemma LateSubmitStaysQueued()
    ensures Happens(SMALL, TOO_LATE) && After(SMALL, TOO_LATE) == TOO_LATE_STATE
    ensures HasStatus(TOO_LATE_STATE.rows, 7, {Queued}) && !HasJob(TOO_LATE_STATE, 7)
  {
    BootedLeads();
    var s1 := CallerEvent(BOOTED_STATE, Create(0, 7, 0)).value;
    Goes(BOOTED, BOOTED_STATE, Create(0, 7, 0), s1);
    var none: seq<TokenId> := [];
    assert (set t | t in none) == s1.sched.tokens.Values;
    var s2 := s1.(sched := StopAccepting(s1.sched), closer := Firing([]));
    Goes(BOOTED + [Create(0, 7, 0)], s1, Close([]), s2);
    var s3 := CallerStep(s2, 0);
    assert s3.callers == map[] && s3.past == TOO_LATE_STATE.past && s3.sched == TOO_LATE_STATE.sched;
    Goes(BOOTED + [Create(0, 7, 0)] + [Close([])], s2, Continue(0), s3);
    assert forall w: nat :: !Stands(TOO_LATE_STATE, w);
  }
}
