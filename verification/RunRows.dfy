/** Every event keeps each row fitting the place of its run's only job. */
module RunRows {
  import opened Wrappers
  import opened RunStore
  import opened Resources
  import opened Scheduler
  import opened RunProtocol
  import opened RunInvariant
  import opened RunLocated
  import opened RunKept

  // --- Staged ---

  // The stage a worker moves to fits the row it leaves behind.
  lemma OwnStage(c: Config, s: State, e: Event)
    requires OfWorker(e) && Stands(s, e.worker) && MoveOf(c, s, e).Some? && StagedAt(s, e.worker)
    requires TokenSet(s, s.workers[e.worker].job.run) && s.sched.accepting ==> Stopped(s.rows, s.workers[e.worker].job.run)
    requires JobAt(s, s.workers[e.worker].job, AtWorker(e.worker))
    ensures var m := MoveOf(c, s, e).value;
      var job := s.workers[e.worker].job;
      job.run in m.rows && StageFits(m.stage, m.rows[job.run].status, Spared(s, job.token))
  {
  }

  lemma ApplyStaged(s: State, w: nat, m: Move)
    requires Tracked(s) && Staged(s) && Stands(s, w) && ChangesOnly(s.rows, m.rows, s.workers[w].job.run)
    requires s.workers[w].job.run in m.rows
    requires StageFits(m.stage, m.rows[s.workers[w].job.run].status, Spared(s, s.workers[w].job.token))
    ensures Staged(Apply(s, w, m))
  {
    var s' := Apply(s, w, m);
    assert JobAt(s, s.workers[w].job, AtWorker(w));
    forall v: nat | Stands(s', v)
      ensures StagedAt(s', v)
    {
      if v != w {
        assert Stands(s, v) && StagedAt(s, v) && JobAt(s, s.workers[v].job, AtWorker(v));
      }
    }
  }

  lemma WorkerStaged(c: Config, s: State, e: Event)
    requires Tracked(s) && Staged(s) && Signalled(s) && OfWorker(e) && WorkerEvent(c, s, e).Some?
    ensures Staged(WorkerEvent(c, s, e).value)
  {
    var w := e.worker;
    if !Stands(s, w) {
      DequeueStaged(s, w);
    } else if e.Advance? && s.workers[w].stage.Leaving? {
      LeaveStaged(s, w);
    } else {
      assert StagedAt(s, w) && JobAt(s, s.workers[w].job, AtWorker(w));
      OwnStage(c, s, e);
      MoveOneRow(c, s, e);
      ApplyStaged(s, w, MoveOf(c, s, e).value);
    }
  }

  lemma DequeueStaged(s: State, w: nat)
    requires Tracked(s) && Staged(s) && w < |s.workers| && s.workers[w].Idle? && s.sched.queue != []
    ensures Staged(Dequeue(s, w))
  {
    var s' := Dequeue(s, w);
    assert s.sched.queue[0].Some? ==> JobAt(s, s.sched.queue[0].value, InQueue);
    forall v: nat | Stands(s', v)
      ensures StagedAt(s', v)
    {
      if v != w {
        assert Stands(s, v) && StagedAt(s, v);
      }
    }
  }

  lemma LeaveStaged(s: State, w: nat)
    requires Tracked(s) && Staged(s) && Stands(s, w)
    ensures Staged(Leave(s, w))
  {
    var s' := Leave(s, w);
    forall v: nat | Stands(s', v)
      ensures StagedAt(s', v)
    {
      assert Stands(s, v) && StagedAt(s, v);
    }
  }

  // A cancellation request moves a row to where every stage still fits.
  lemma CancelFits(rows: Rows, run: RunId, reason: string, stage: Stage, spared: bool)
    requires run in rows && StageFits(stage, rows[run].status, spared)
    ensures StageFits(stage, WithCancelRequested(rows, run, reason)[run].status, spared)
  {
  }

  lemma CancelStaged(s: State, e: Event)
    requires Staged(s) && e.CancelRun? && CallerEvent(s, e).Some?
    ensures Staged(CallerEvent(s, e).value)
  {
    var s' := CallerEvent(s, e).value;
    forall v: nat | Stands(s', v)
      ensures StagedAt(s', v)
    {
      assert Stands(s, v) && StagedAt(s, v);
      CancelFits(s.rows, s.workers[v].job.run, e.reason, s.workers[v].stage, Spared(s, s.workers[v].job.token));
    }
  }

  lemma CallerStaged(s: State, e: Event)
    requires Tracked(s) && Staged(s) && CallerEvent(s, e).Some?
    ensures Staged(CallerEvent(s, e).value)
  {
    if e.CancelRun? {
      CancelStaged(s, e);
      return;
    }
    var s' := CallerEvent(s, e).value;
    assert e.Continue? ==> CallerAt(s, e.caller);
    forall v: nat | Stands(s', v)
      ensures StagedAt(s', v)
    {
      assert Stands(s, v) && StagedAt(s, v) && JobAt(s, s.workers[v].job, AtWorker(v));
    }
  }

  lemma CloseStaged(c: Config, s: State, e: Event)
    requires Staged(s) && CloseEvent(c, s, e).Some?
    ensures Staged(CloseEvent(c, s, e).value)
  {
    var s' := CloseEvent(c, s, e).value;
    forall v: nat | Stands(s', v)
      ensures StagedAt(s', v)
    {
      assert Stands(s, v) && StagedAt(s, v);
    }
  }

  // The restore steps: the head of the list fails, or its job goes on its way.
  lemma RestoreStaged(s: State, s': State, run: RunId)
    requires Tracked(s) && Staged(s) && run in s.past.place && !s.past.place[run].AtWorker?
    requires s'.workers == s.workers
    requires s'.sched.accepting == s.sched.accepting && s'.sched.cancelled == s.sched.cancelled
    requires
      || (s'.rows == s.rows && run in s'.past.place && !s'.past.place[run].AtWorker?
          && s'.past.place == s.past.place[run := s'.past.place[run]])
      || (s'.rows == WithFailed(s.rows, run) && s'.past.place == s.past.place - {run})
    ensures Staged(s')
  {
    forall v: nat | Stands(s', v)
      ensures StagedAt(s', v)
    {
      assert Stands(s, v) && StagedAt(s, v) && JobAt(s, s.workers[v].job, AtWorker(v));
    }
  }

  lemma FreshStaged(s: State)
    requires forall w :: 0 <= w < |s.workers| ==> s.workers[w].Idle?
    requires forall run :: run in s.past.place ==> run in s.rows && Waits(s.rows[run].status)
    ensures Staged(s)
  {
    assert forall w: nat :: !Stands(s, w);
  }

  lemma BootStaged(c: Config, s: State, e: Event)
    requires Tracked(s) && Staged(s) && Shaped(c, s) && BootEvent(c, s, e).Some?
    ensures Staged(BootEvent(c, s, e).value)
  {
    var s' := BootEvent(c, s, e).value;
    match e
    case SkipRestore =>
      assert RunAt(s, s.boot.jobs[0], InRestore);
      RestoreStaged(s, s', s.boot.jobs[0]);
    case RestoreStep =>
      if s.boot.entering.Some? {
        RestoreStaged(s, s', s.boot.entering.value.run);
      } else if s.boot.jobs != [] {
        assert RunAt(s, s.boot.jobs[0], InRestore);
        RestoreStaged(s, s', s.boot.jobs[0]);
      } else {
        ServingStaged(s);
      }
    case _ => FreshStaged(s');
  }

  lemma ServingStaged(s: State)
    requires Staged(s)
    ensures Staged(s.(boot := Serving))
  {
    var s' := s.(boot := Serving);
    forall v: nat | Stands(s', v)
      ensures StagedAt(s', v)
    {
      assert Stands(s, v) && StagedAt(s, v);
    }
  }

  lemma StepStaged(c: Config, s: State, e: Event)
    requires Tracked(s) && Staged(s) && Signalled(s) && Shaped(c, s) && Step(c, s, e).Some?
    ensures Staged(Step(c, s, e).value)
  {
    match e
    case Advance(_) | Raise(_) | PipelineReturns(_, _) | PipelineStops(_) | Report(_, _, _) => WorkerStaged(c, s, e);
    case Create(_, _, _) | CancelRun(_, _, _) | Continue(_) => CallerStaged(s, e);
    case Close(_) | CloserStep => CloseStaged(c, s, e);
    case _ => BootStaged(c, s, e);
  }

  // --- Signalled ---

  // No token is set, none registered, and no caller moves towards one.
  ghost predicate SameSignals(s: State, s': State) {
    && (forall run :: run in s'.sched.tokens ==> run in s.sched.tokens && s'.sched.tokens[run] == s.sched.tokens[run])
    && s'.sched.cancelled == s.sched.cancelled && s'.sched.issued == s.sched.issued
    && (s'.sched.accepting ==> s.sched.accepting)
    && (forall k :: k in s'.callers && !CarriesJob(s'.callers[k]) ==> k in s.callers && s'.callers[k] == s.callers[k])
  }

  lemma FrameSignalled(s: State, s': State)
    requires Signalled(s) && SameSignals(s, s') && Lawful(s.rows, s'.rows)
    ensures Signalled(s')
  {
    forall run | s'.sched.accepting && TokenSet(s', run)
      ensures Stopped(s'.rows, run)
    {
      assert TokenSet(s, run) && Stopped(s.rows, run);
    }
    forall k, run | AboutToSet(s', k, run)
      ensures Stopped(s'.rows, run)
    {
      assert AboutToSet(s, k, run) && Stopped(s.rows, run);
    }
    forall k | k in s'.callers && s'.callers[k].Signalling?
      ensures Stopped(s'.rows, s'.callers[k].run)
    {
      assert Stopped(s.rows, s.callers[k].run);
    }
  }

  // A fresh token is not set, and nobody is about to set it.
  lemma RegisterSignalled(s: State, s': State, run: RunId)
    requires Signalled(s) && s'.rows == s.rows && s'.sched == Register(s.sched, run)
    requires forall k :: k in s'.callers && !CarriesJob(s'.callers[k]) ==> k in s.callers && s'.callers[k] == s.callers[k]
    ensures Signalled(s')
  {
    forall r | s'.sched.accepting && TokenSet(s', r)
      ensures Stopped(s'.rows, r)
    {
      assert r != run && TokenSet(s, r);
    }
    forall k, r | AboutToSet(s', k, r)
      ensures Stopped(s'.rows, r)
    {
      assert r != run && AboutToSet(s, k, r);
    }
  }

  lemma WorkerSignals(c: Config, s: State, e: Event)
    requires OfWorker(e) && WorkerEvent(c, s, e).Some?
    ensures SameSignals(s, WorkerEvent(c, s, e).value)
  {
  }

  lemma WorkerSignalled(c: Config, s: State, e: Event)
    requires Signalled(s) && OfWorker(e) && WorkerEvent(c, s, e).Some?
    ensures Signalled(WorkerEvent(c, s, e).value)
  {
    WorkerSignals(c, s, e);
    WorkerLawful(c, s, e);
    FrameSignalled(s, WorkerEvent(c, s, e).value);
  }

  lemma CreateSignalled(s: State, k: nat, run: RunId, created: nat)
    requires Signalled(s) && k !in s.callers && run !in s.rows
    ensures Signalled(Moved(s.(rows := s.rows[run := FreshRow(created)], callers := s.callers[k := Submitting(run)]),
                            run, InSubmit(k)))
  {
    InsertLawful(s.rows, run, created);
    FrameSignalled(s, Moved(s.(rows := s.rows[run := FreshRow(created)], callers := s.callers[k := Submitting(run)]),
                            run, InSubmit(k)));
  }

  lemma CancelSignalled(s: State, e: Event)
    requires Signalled(s) && e.CancelRun? && CallerEvent(s, e).Some?
    ensures Signalled(CallerEvent(s, e).value)
  {
    var s' := CallerEvent(s, e).value;
    CancelLawful(s.rows, e.run, e.reason);
    FrameSignalled(s, s'.(callers := s.callers));
    forall k, run | AboutToSet(s', k, run)
      ensures Stopped(s'.rows, run)
    {
      assert AboutToSet(s'.(callers := s.callers), k, run);
    }
    forall run | s'.sched.accepting && TokenSet(s', run)
      ensures Stopped(s'.rows, run)
    {
      assert TokenSet(s'.(callers := s.callers), run);
    }
  }

  lemma CallerStepSignalled(s: State, k: nat)
    requires Tracked(s) && Signalled(s) && k in s.callers
    ensures Signalled(CallerStep(s, k))
  {
    var s' := CallerStep(s, k);
    match s.callers[k]
    case Submitting(run) =>
      if CanRegister(s.sched, run) {
        RegisterSignalled(s, s', run);
      } else {
        FrameSignalled(s, s');
      }
    case Enqueueing(_) => FrameSignalled(s, s');
    case _ => SignalStepSignalled(s, k);
  }

  // Looking the token up and setting it: only the run it belongs to is meant.
  lemma SignalStepSignalled(s: State, k: nat)
    requires Tracked(s) && Signalled(s) && k in s.callers && !CarriesJob(s.callers[k])
    ensures Signalled(CallerStep(s, k))
  {
    var s' := CallerStep(s, k);
    forall run | s'.sched.accepting && TokenSet(s', run)
      ensures Stopped(s'.rows, run)
    {
      assert TokenSet(s, run) || AboutToSet(s, k, run);
    }
    forall j, run | AboutToSet(s', j, run)
      ensures Stopped(s'.rows, run)
    {
      assert AboutToSet(s, j, run) || (j == k && s.callers[k].Signalling? && run == s.callers[k].run);
    }
  }

  lemma CallerSignalled(s: State, e: Event)
    requires Tracked(s) && Signalled(s) && CallerEvent(s, e).Some?
    ensures Signalled(CallerEvent(s, e).value)
  {
    match e
    case Create(k, run, created) => CreateSignalled(s, k, run, created);
    case CancelRun(_, _, _) => CancelSignalled(s, e);
    case Continue(k) => CallerStepSignalled(s, k);
  }

  lemma CloseSignalled(c: Config, s: State, e: Event)
    requires Signalled(s) && ClosedDown(s) && CloseEvent(c, s, e).Some?
    ensures Signalled(CloseEvent(c, s, e).value)
  {
    var s' := CloseEvent(c, s, e).value;
    forall k, run | AboutToSet(s', k, run)
      ensures Stopped(s'.rows, run)
    {
      assert AboutToSet(s, k, run);
    }
  }

  lemma BootSignalled(c: Config, s: State, e: Event)
    requires Signalled(s) && Shaped(c, s) && BootEvent(c, s, e).Some?
    ensures Signalled(BootEvent(c, s, e).value)
  {
    var s' := BootEvent(c, s, e).value;
    BootLawful(c, s, e);
    if e.RestoreStep? && s.boot.entering.None? && s.boot.jobs != [] && CanRegister(s.sched, s.boot.jobs[0]) {
      RegisterSignalled(s, s', s.boot.jobs[0]);
    } else if e.SkipRestore? || e.RestoreStep? {
      FrameSignalled(s, s');
    } else {
      assert s'.sched == STARTED && s'.callers == map[];
    }
  }

  lemma StepSignalled(c: Config, s: State, e: Event)
    requires Tracked(s) && Signalled(s) && ClosedDown(s) && Shaped(c, s) && Step(c, s, e).Some?
    ensures Signalled(Step(c, s, e).value)
  {
    match e
    case Advance(_) | Raise(_) | PipelineReturns(_, _) | PipelineStops(_) | Report(_, _, _) => WorkerSignalled(c, s, e);
    case Create(_, _, _) | CancelRun(_, _, _) | Continue(_) => CallerSignalled(s, e);
    case Close(_) | CloserStep => CloseSignalled(c, s, e);
    case _ => BootSignalled(c, s, e);
  }
}
