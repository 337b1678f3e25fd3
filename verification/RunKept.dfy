/** Every event of the run protocol keeps the invariant. */
module RunKept {
  import opened Wrappers
  import opened RunStore
  import opened Resources
  import opened Scheduler
  import opened RunProtocol
  import opened RunInvariant
  import opened RunLocated

  // --- places and tokens ---

  lemma ApplySame(s: State, w: nat, m: Move)
    requires Stands(s, w)
    ensures SameJobs(s, Apply(s, w, m))
  {
  }

  lemma WorkerTracked(c: Config, s: State, e: Event)
    requires Tracked(s) && OfWorker(e) && WorkerEvent(c, s, e).Some?
    ensures Tracked(WorkerEvent(c, s, e).value)
  {
    var w := e.worker;
    if !Stands(s, w) {
      DequeueTracked(s, w);
    } else if e.Advance? && s.workers[w].stage.Leaving? {
      LeaveTracked(s, w);
    } else {
      ApplySame(s, w, MoveOf(c, s, e).value);
      FrameTracked(s, WorkerEvent(c, s, e).value);
    }
  }

  lemma SignalSame(s: State, k: nat)
    requires k in s.callers && !CarriesJob(s.callers[k])
    ensures SameJobs(s, CallerStep(s, k))
  {
  }

  // The steps of a caller that carry no job.
  lemma SignalTracked(s: State, k: nat)
    requires Tracked(s) && k in s.callers && !CarriesJob(s.callers[k])
    ensures Tracked(CallerStep(s, k))
  {
    SignalSame(s, k);
    FrameTracked(s, CallerStep(s, k));
  }

  lemma CallerTracked(s: State, e: Event)
    requires Tracked(s) && Staged(s) && CallerEvent(s, e).Some?
    ensures Tracked(CallerEvent(s, e).value)
  {
    match e
    case Create(k, run, created) => CreateTracked(s, k, run, created);
    case CancelRun(_, _, _) => FrameTracked(s, CallerEvent(s, e).value);
    case Continue(k) =>
      if s.callers[k].Submitting? {
        SubmitTracked(s, k);
      } else if s.callers[k].Enqueueing? {
        PutTracked(s, k);
      } else {
        SignalTracked(s, k);
      }
  }

  lemma CloseTracked(c: Config, s: State, e: Event)
    requires Tracked(s) && CloseEvent(c, s, e).Some?
    ensures Tracked(CloseEvent(c, s, e).value)
  {
    if e.CloserStep? && s.closer.Pilling? && s.closer.left > 0 {
      PillTracked(s, Pilling(s.closer.left - 1));
    } else {
      FrameTracked(s, CloseEvent(c, s, e).value);
    }
  }

  lemma BootTracked(c: Config, s: State, e: Event)
    requires Tracked(s) && Shaped(c, s) && BootEvent(c, s, e).Some?
    ensures Tracked(BootEvent(c, s, e).value)
  {
    match e
    case SkipRestore => SkipTracked(s, WithFailed(s.rows, s.boot.jobs[0]));
    case RestoreStep =>
      if s.boot.entering.Some? {
        RestorePutTracked(s);
      } else if s.boot.jobs == [] {
        RestoredTracked(s);
      } else if CanRegister(s.sched, s.boot.jobs[0]) {
        RestoreRegisterTracked(s);
      } else {
        SkipTracked(s, WithFailed(s.rows, s.boot.jobs[0]));
      }
    case List(jobs) => ListTracked(c, s, jobs);
    case Recover => FreshTracked(BootEvent(c, s, e).value);
    case Crash => FreshTracked(BootEvent(c, s, e).value);
    case Restart => FreshTracked(BootEvent(c, s, e).value);
  }

  lemma FreshTracked(s: State)
    requires s.sched == STARTED && s.callers == map[] && s.past.place == map[] && !s.boot.Restoring?
    requires forall w :: 0 <= w < |s.workers| ==> s.workers[w].Idle?
    ensures Tracked(s)
  {
    assert forall w: nat :: !Stands(s, w);
  }

  lemma ListTracked(c: Config, s: State, jobs: seq<RunId>)
    requires Shaped(c, s) && s.boot.Listing? && QueuedListing(s.rows, jobs)
    ensures Tracked(BootEvent(c, s, List(jobs)).value)
  {
    ListingDistinct(s.rows, jobs);
    assert forall w: nat :: !Stands(s, w);
  }

  lemma RestoredTracked(s: State)
    requires Tracked(s) && s.boot.Restoring? && s.boot.entering.None? && s.boot.jobs == []
    ensures Tracked(s.(boot := Serving))
  {
    var s' := s.(boot := Serving);
    forall w: nat | Stands(s', w)
      ensures JobAt(s', s'.workers[w].job, AtWorker(w))
    {
      assert Stands(s, w);
    }
    forall k | k in s'.callers
      ensures CallerAt(s', k)
    {
      assert CallerAt(s, k);
    }
    forall run | run in s'.past.place
      ensures PlaceBacked(s', run)
    {
      assert PlaceBacked(s, run);
    }
  }

  lemma StepTracked(c: Config, s: State, e: Event)
    requires Tracked(s) && Staged(s) && Shaped(c, s) && Step(c, s, e).Some?
    ensures Tracked(Step(c, s, e).value)
  {
    match e
    case Advance(_) | Raise(_) | PipelineReturns(_, _) | PipelineStops(_) | Report(_, _, _) => WorkerTracked(c, s, e);
    case Create(_, _, _) | CancelRun(_, _, _) | Continue(_) => CallerTracked(s, e);
    case Close(_) | CloserStep => CloseTracked(c, s, e);
    case _ => BootTracked(c, s, e);
  }

  // --- the store ---

  // One row may move to another, seen on its own.
  predicate LawfulRow(before: Row, after: Row) {
    && (Terminal(before.status) ==> after == before)
    && (before.status.Cancelling? ==> !after.status.Completed?)
    && (!before.status.Queued? && !before.status.Running? ==> !after.status.Queued? && !after.status.Running?)
    && (after.status.Queued? ==> before.status.Queued?)
    && after.created == before.created
    && (ExitCodeFits(before) ==> ExitCodeFits(after))
  }

  lemma RowLawful(rows: Rows, run: RunId, row: Row)
    requires run in rows && LawfulRow(rows[run], row)
    ensures Lawful(rows, rows[run := row])
  {
  }

  lemma FinishLawful(rows: Rows, run: RunId, exit: int, gate: Option<string>, failed: bool)
    ensures Lawful(rows, WithFinished(rows, run, exit, gate, failed))
  {
    if HasStatus(rows, run, {Running}) {
      RowLawful(rows, run, FinishedRow(rows[run], exit, gate, failed));
    }
  }

  lemma FailLawful(rows: Rows, run: RunId)
    ensures Lawful(rows, WithFailed(rows, run))
  {
    if HasStatus(rows, run, {Queued, Running, Status.Cancelling}) {
      RowLawful(rows, run, FailedRow(rows[run]));
    }
  }

  lemma CancelLawful(rows: Rows, run: RunId, reason: string)
    ensures Lawful(rows, WithCancelRequested(rows, run, reason))
    ensures Lawful(rows, WithCancelled(rows, run))
  {
    if run in rows {
      RowLawful(rows, run, rows[run]);
      if HasStatus(rows, run, {Queued, Running}) {
        RowLawful(rows, run, WithCancelRequested(rows, run, reason)[run]);
      } else if HasStatus(rows, run, {Status.Cancelling}) {
        RowLawful(rows, run, WithCancelled(rows, run)[run]);
      }
    }
  }

  lemma InsertLawful(rows: Rows, run: RunId, created: nat)
    requires run !in rows
    ensures Lawful(rows, rows[run := FreshRow(created)])
  {
  }

  lemma RecoveryLawful(rows: Rows)
    ensures Lawful(rows, WithRecovered(rows))
  {
  }

  lemma MoveLawful(c: Config, s: State, e: Event)
    requires OfWorker(e) && Stands(s, e.worker) && MoveOf(c, s, e).Some?
    ensures Lawful(s.rows, MoveOf(c, s, e).value.rows)
  {
    var run := s.workers[e.worker].job.run;
    match e
    case Advance(w) =>
      match s.workers[w].stage {
        case Failing(_) => FailLawful(s.rows, run);
        case Settling(_) => CancelLawful(s.rows, run, "");
        case Admitted =>
          if HasStatus(s.rows, run, {Queued}) {
            RowLawful(s.rows, run, WithRunning(s.rows, run)[run]);
          }
        case _ =>
      }
    case Report(w, gate, failed) => FinishLawful(s.rows, run, s.workers[w].stage.exit, gate, failed);
    case _ =>
  }

  lemma MoveOneRow(c: Config, s: State, e: Event)
    requires OfWorker(e) && Stands(s, e.worker) && MoveOf(c, s, e).Some?
    ensures ChangesOnly(s.rows, MoveOf(c, s, e).value.rows, s.workers[e.worker].job.run)
  {
  }

  lemma WorkerLawful(c: Config, s: State, e: Event)
    requires OfWorker(e) && WorkerEvent(c, s, e).Some?
    ensures Lawful(s.rows, WorkerEvent(c, s, e).value.rows)
  {
    if Stands(s, e.worker) && MoveOf(c, s, e).Some? {
      MoveLawful(c, s, e);
    }
  }

  lemma CallerLawful(s: State, e: Event)
    requires CallerEvent(s, e).Some?
    ensures Lawful(s.rows, CallerEvent(s, e).value.rows)
  {
    match e
    case Create(_, run, created) => InsertLawful(s.rows, run, created);
    case CancelRun(_, run, reason) => CancelLawful(s.rows, run, reason);
    case Continue(_) =>
  }

  lemma BootLawful(c: Config, s: State, e: Event)
    requires BootEvent(c, s, e).Some?
    ensures Lawful(s.rows, BootEvent(c, s, e).value.rows)
  {
    if e.Recover? {
      RecoveryLawful(s.rows);
    } else if s.boot.Restoring? && s.boot.jobs != [] {
      FailLawful(s.rows, s.boot.jobs[0]);
    }
  }

  // Each event changes the table by at most one lawful transaction.
  lemma StepLawful(c: Config, s: State, e: Event)
    requires Step(c, s, e).Some?
    ensures Lawful(s.rows, Step(c, s, e).value.rows)
  {
    match e
    case Advance(_) | Raise(_) | PipelineReturns(_, _) | PipelineStops(_) | Report(_, _, _) => WorkerLawful(c, s, e);
    case Create(_, _, _) | CancelRun(_, _, _) | Continue(_) => CallerLawful(s, e);
    case Close(_) | CloserStep =>
    case _ => BootLawful(c, s, e);
  }
}
