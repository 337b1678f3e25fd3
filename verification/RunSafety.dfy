/** The invariant of the run protocol over every history of events. */
module RunSafety {
  import opened Wrappers
  import opened RunStore
  import opened Resources
  import opened Scheduler
  import opened RunProtocol
  import opened RunInvariant
  import opened RunLocated
  import opened RunKept
  import opened RunRows
  import opened RunOnce

  // --- Covered ---

  // No new rows, and nothing loses its job.
  lemma FrameCovered(s: State, s': State)
    requires Covered(s) && Lawful(s.rows, s'.rows) && !s'.boot.Listing?
    requires forall run :: run in s'.rows ==> run in s.rows
    requires s'.boot == s.boot || s.boot.Restoring?
    requires forall run :: run in s.past.place ==>
      run in s'.past.place || run in s'.past.stranded || (run in s'.rows && Terminal(s'.rows[run].status))
    requires s.past.stranded <= s'.past.stranded
    requires s'.past.stranded != {} ==> !s'.sched.accepting
    ensures Covered(s')
  {
  }

  lemma DequeueCovered(s: State, w: nat)
    requires Covered(s) && !s.boot.Listing? && w < |s.workers| && s.sched.queue != []
    ensures Covered(Dequeue(s, w))
  {
    FrameCovered(s, Dequeue(s, w));
  }

  lemma LeaveCovered(s: State, w: nat)
    requires Staged(s) && Covered(s) && !s.boot.Listing? && Stands(s, w) && s.workers[w].stage.Leaving?
    ensures Covered(Leave(s, w))
  {
    assert StagedAt(s, w);
    FrameCovered(s, Leave(s, w));
  }

  lemma ApplyCovered(s: State, w: nat, m: Move)
    requires Covered(s) && !s.boot.Listing? && Stands(s, w) && Lawful(s.rows, m.rows) && m.rows.Keys == s.rows.Keys
    ensures Covered(Apply(s, w, m))
  {
    FrameCovered(s, Apply(s, w, m));
  }

  lemma WorkerCovered(c: Config, s: State, e: Event)
    requires Staged(s) && Shaped(c, s) && Covered(s) && OfWorker(e) && WorkerEvent(c, s, e).Some?
    ensures Covered(WorkerEvent(c, s, e).value)
  {
    var w := e.worker;
    if !Stands(s, w) {
      DequeueCovered(s, w);
    } else if e.Advance? && s.workers[w].stage.Leaving? {
      LeaveCovered(s, w);
    } else {
      MoveLawful(c, s, e);
      MoveOneRow(c, s, e);
      ApplyCovered(s, w, MoveOf(c, s, e).value);
    }
  }

  lemma CreateCovered(c: Config, s: State, e: Event)
    requires Shaped(c, s) && Covered(s) && e.Create? && CallerEvent(s, e).Some?
    ensures Covered(CallerEvent(s, e).value)
  {
  }

  // Only a refused submit loses a job, and only a closed scheduler refuses one.
  lemma CallerCovered(c: Config, s: State, e: Event)
    requires Located(s) && Shaped(c, s) && Covered(s) && CallerEvent(s, e).Some?
    ensures Covered(CallerEvent(s, e).value)
  {
    if e.Create? {
      CreateCovered(c, s, e);
    } else {
      CallerLawful(s, e);
      assert e.Continue? ==> CallerAt(s, e.caller);
      FrameCovered(s, CallerEvent(s, e).value);
    }
  }

  lemma CloseCovered(c: Config, s: State, e: Event)
    requires Covered(s) && Shaped(c, s) && CloseEvent(c, s, e).Some?
    ensures Covered(CloseEvent(c, s, e).value)
  {
  }

  // The head of the restore list becomes terminal, or gets a token.
  lemma RestoreCovered(s: State, s': State, run: RunId)
    requires Staged(s) && Covered(s) && s.boot.Restoring? && !s'.boot.Listing?
    requires run in s.past.place && !s.past.place[run].AtWorker?
    requires s'.past.stranded == s.past.stranded && s'.sched.accepting == s.sched.accepting
    requires
      || (s'.rows == s.rows && s.past.place.Keys == s'.past.place.Keys)
      || (s'.rows == WithFailed(s.rows, run) && s'.past.place == s.past.place - {run})
    ensures Covered(s')
  {
    FailLawful(s.rows, run);
    FrameCovered(s, s');
  }

  lemma BootCovered(c: Config, s: State, e: Event)
    requires Located(s) && Staged(s) && Shaped(c, s) && Covered(s) && BootEvent(c, s, e).Some?
    ensures Covered(BootEvent(c, s, e).value)
  {
    var s' := BootEvent(c, s, e).value;
    if e.SkipRestore? {
      assert RunAt(s, s.boot.jobs[0], InRestore);
      RestoreCovered(s, s', s.boot.jobs[0]);
    } else if e.RestoreStep? {
      if s.boot.entering.Some? {
        RestoreCovered(s, s', s.boot.entering.value.run);
      } else if s.boot.jobs != [] {
        assert RunAt(s, s.boot.jobs[0], InRestore);
        RestoreCovered(s, s', s.boot.jobs[0]);
      }
    }
  }

  lemma StepCovered(c: Config, s: State, e: Event)
    requires Tracked(s) && Staged(s) && Shaped(c, s) && Covered(s) && Step(c, s, e).Some?
    ensures Covered(Step(c, s, e).value)
  {
    match e
    case Advance(_) | Raise(_) | PipelineReturns(_, _) | PipelineStops(_) | Report(_, _, _) => WorkerCovered(c, s, e);
    case Create(_, _, _) | CancelRun(_, _, _) | Continue(_) => CallerCovered(c, s, e);
    case Close(_) | CloserStep => CloseCovered(c, s, e);
    case _ => BootCovered(c, s, e);
  }

  // --- StartedOnce ---

  // Nothing starts, and nothing comes to stand before its start.
  lemma FrameStarted(s: State, s': State)
    requires StartedOnce(s) && Lawful(s.rows, s'.rows)
    requires s'.past.starts == s.past.starts && s'.past.droppedInQueue == s.past.droppedInQueue
    requires forall w: nat :: Stands(s', w) && s'.workers[w].stage.Starting? ==> Stands(s, w) && s'.workers[w] == s.workers[w]
    ensures StartedOnce(s')
  {
  }

  lemma DequeueStarted(s: State, w: nat)
    requires StartedOnce(s) && w < |s.workers| && s.sched.queue != []
    ensures StartedOnce(Dequeue(s, w))
  {
    FrameStarted(s, Dequeue(s, w));
  }

  lemma LeaveStarted(s: State, w: nat)
    requires StartedOnce(s) && Stands(s, w)
    ensures StartedOnce(Leave(s, w))
  {
    FrameStarted(s, Leave(s, w));
  }

  // The stage before the start is reached from a queued row, and left by a start.
  lemma MoveStarts(c: Config, s: State, e: Event)
    requires OfWorker(e) && Stands(s, e.worker) && MoveOf(c, s, e).Some?
    ensures var m := MoveOf(c, s, e).value;
      && (m.stage.Starting? ==> HasStatus(s.rows, s.workers[e.worker].job.run, {Queued}) && !m.starts)
      && (m.starts ==> s.workers[e.worker].stage.Starting? && m.rows == s.rows)
  {
  }

  lemma ApplyStarted(s: State, w: nat, m: Move)
    requires StartedOnce(s) && Stands(s, w) && Lawful(s.rows, m.rows) && !m.starts
    requires m.stage.Starting? ==> HasStatus(s.rows, s.workers[w].job.run, {Queued})
    ensures StartedOnce(Apply(s, w, m))
  {
    var s' := Apply(s, w, m);
    forall v: nat | Stands(s', v) && s'.workers[v].stage.Starting?
      ensures s'.past.starts[s'.workers[v].job.run] == 0
    {
      assert Stands(s, v);
    }
  }

  // The one move that starts a pipeline starts it for the first time.
  lemma PipelineStarted(s: State, w: nat, m: Move)
    requires Tracked(s) && Staged(s) && StartedOnce(s) && Stands(s, w) && s.workers[w].stage.Starting?
    requires m.starts && m.rows == s.rows && !m.stage.Starting?
    ensures StartedOnce(Apply(s, w, m))
  {
    var s' := Apply(s, w, m);
    assert StagedAt(s, w) && JobAt(s, s.workers[w].job, AtWorker(w));
    forall v: nat | Stands(s', v) && s'.workers[v].stage.Starting?
      ensures s'.past.starts[s'.workers[v].job.run] == 0
    {
      assert v != w && Stands(s, v) && JobAt(s, s.workers[v].job, AtWorker(v));
    }
  }

  lemma WorkerStarted(c: Config, s: State, e: Event)
    requires Tracked(s) && Staged(s) && StartedOnce(s) && OfWorker(e) && WorkerEvent(c, s, e).Some?
    ensures StartedOnce(WorkerEvent(c, s, e).value)
  {
    var w := e.worker;
    if !Stands(s, w) {
      DequeueStarted(s, w);
    } else if e.Advance? && s.workers[w].stage.Leaving? {
      LeaveStarted(s, w);
    } else {
      MoveStarts(c, s, e);
      MoveLawful(c, s, e);
      if MoveOf(c, s, e).value.starts {
        PipelineStarted(s, w, MoveOf(c, s, e).value);
      } else {
        ApplyStarted(s, w, MoveOf(c, s, e).value);
      }
    }
  }

  lemma CancelStarted(s: State, e: Event)
    requires StartedOnce(s) && e.CancelRun? && CallerEvent(s, e).Some?
    ensures StartedOnce(CallerEvent(s, e).value)
  {
    var s' := CallerEvent(s, e).value;
    CancelLawful(s.rows, e.run, e.reason);
    FrameStarted(s, s'.(past := s.past));
    assert forall w: nat :: Stands(s', w) ==> Stands(s'.(past := s.past), w);
  }

  lemma CallerStarted(s: State, e: Event)
    requires StartedOnce(s) && CallerEvent(s, e).Some?
    ensures StartedOnce(CallerEvent(s, e).value)
  {
    if e.CancelRun? {
      CancelStarted(s, e);
    } else {
      CallerLawful(s, e);
      FrameStarted(s, CallerEvent(s, e).value);
    }
  }

  lemma BootStarted(c: Config, s: State, e: Event)
    requires StartedOnce(s) && BootEvent(c, s, e).Some?
    ensures StartedOnce(BootEvent(c, s, e).value)
  {
    BootLawful(c, s, e);
    BootKeepsPast(c, s, e);
    FrameStarted(s, BootEvent(c, s, e).value);
  }

  lemma BootKeepsPast(c: Config, s: State, e: Event)
    requires BootEvent(c, s, e).Some?
    ensures var s' := BootEvent(c, s, e).value;
      && s'.past.starts == s.past.starts && s'.past.droppedInQueue == s.past.droppedInQueue
      && forall w: nat :: Stands(s', w) ==> Stands(s, w) && s'.workers[w] == s.workers[w]
  {
  }

  lemma CloseStarted(c: Config, s: State, e: Event)
    requires StartedOnce(s) && CloseEvent(c, s, e).Some?
    ensures StartedOnce(CloseEvent(c, s, e).value)
  {
    var s' := CloseEvent(c, s, e).value;
    assert s'.rows == s.rows && s'.workers == s.workers;
    FrameStarted(s, s');
  }

  lemma StepStarted(c: Config, s: State, e: Event)
    requires Tracked(s) && Staged(s) && StartedOnce(s) && Step(c, s, e).Some?
    ensures StartedOnce(Step(c, s, e).value)
  {
    match e
    case Advance(_) | Raise(_) | PipelineReturns(_, _) | PipelineStops(_) | Report(_, _, _) => WorkerStarted(c, s, e);
    case Create(_, _, _) | CancelRun(_, _, _) | Continue(_) => CallerStarted(s, e);
    case Close(_) | CloserStep => CloseStarted(c, s, e);
    case _ => BootStarted(c, s, e);
  }

  // --- Accounted ---

  lemma SharesUpdate(c: Config, workers: seq<Worker>, w: nat, worker: Worker)
    requires w < |workers|
    ensures Shares(c, workers[w := worker]) == Shares(c, workers)[w := Share(c, worker)]
  {
  }

  lemma GrantAt(c: Config, used: Request, shares: seq<Request>, w: nat)
    requires Accounts(c.capacity, used, shares) && w < |shares| && shares[w] == NOTHING
    requires Admissible(c.capacity, c.request) && Fits(c.capacity, used, c.request)
    ensures Accounts(c.capacity, Plus(used, c.request), shares[w := c.request])
  {
    TotalUpdate(shares, |shares|, w, c.request);
  }

  // How a move changes what the worker holds, and with it `used`.
  lemma MoveShares(c: Config, s: State, e: Event)
    requires OfWorker(e) && Stands(s, e.worker) && MoveOf(c, s, e).Some?
    ensures var m := MoveOf(c, s, e).value;
      var before, after := HoldsLease(s.workers[e.worker]), HoldsLease(Busy(s.workers[e.worker].job, m.stage));
      && (before == after ==> m.used == s.used)
      && (!before && after ==>
            && Admissible(c.capacity, c.request) && Fits(c.capacity, s.used, c.request)
            && m.used == Plus(s.used, c.request) && s.workers[e.worker].job.token !in s.sched.cancelled)
      && (before && !after ==> m.used == Clamp(Minus(s.used, c.request)))
  {
  }

  lemma WorkerAccounted(c: Config, s: State, e: Event)
    requires Accounted(c, s) && OfWorker(e) && WorkerEvent(c, s, e).Some?
    ensures Accounted(c, WorkerEvent(c, s, e).value)
  {
    var s', w := WorkerEvent(c, s, e).value, e.worker;
    var shares := Shares(c, s.workers);
    SharesUpdate(c, s.workers, w, s'.workers[w]);
    if Stands(s, w) && MoveOf(c, s, e).Some? {
      MoveShares(c, s, e);
      if !HoldsLease(s.workers[w]) && HoldsLease(s'.workers[w]) {
        GrantAt(c, s.used, shares, w);
      } else if HoldsLease(s.workers[w]) && !HoldsLease(s'.workers[w]) {
        ReleaseAccounts(c.capacity, s.used, shares, w);
      } else {
        assert shares[w := Share(c, s'.workers[w])] == shares;
      }
    } else {
      assert shares[w := Share(c, s'.workers[w])] == shares;
    }
  }

  lemma {:induction false} IdleShares(c: Config, workers: seq<Worker>, n: nat)
    requires n <= |workers| && forall w :: 0 <= w < |workers| ==> !HoldsLease(workers[w])
    ensures Total(Shares(c, workers), n) == NOTHING
  {
    if n > 0 {
      IdleShares(c, workers, n - 1);
    }
  }

  lemma BootAccounted(c: Config, s: State, e: Event)
    requires Accounted(c, s) && Shaped(c, s) && BootEvent(c, s, e).Some?
    requires Within(NOTHING, c.capacity)
    ensures Accounted(c, BootEvent(c, s, e).value)
  {
    var s' := BootEvent(c, s, e).value;
    if e.Crash? || e.Restart? {
      IdleShares(c, s'.workers, |s'.workers|);
    }
  }

  lemma StepAccounted(c: Config, s: State, e: Event)
    requires Accounted(c, s) && Shaped(c, s) && Step(c, s, e).Some? && Within(NOTHING, c.capacity)
    ensures Accounted(c, Step(c, s, e).value)
  {
    match e
    case Advance(_) | Raise(_) | PipelineReturns(_, _) | PipelineStops(_) | Report(_, _, _) => WorkerAccounted(c, s, e);
    case Create(_, _, _) | CancelRun(_, _, _) | Continue(_) =>
    case Close(_) | CloserStep =>
    case _ => BootAccounted(c, s, e);
  }

  // --- closing, order and shape ---

  // The registered tokens only shrink, and the closer stands still.
  lemma FrameClosed(s: State, s': State)
    requires ClosedDown(s) && s'.closer == s.closer && s'.sched.accepting == s.sched.accepting
    requires s.sched.cancelled <= s'.sched.cancelled && s.sched.issued <= s'.sched.issued
    requires !s.sched.accepting ==> forall run :: run in s'.sched.tokens ==>
      run in s.sched.tokens && s'.sched.tokens[run] == s.sched.tokens[run]
    ensures ClosedDown(s')
  {
  }

  lemma WorkerKeeps(c: Config, s: State, e: Event)
    requires OfWorker(e) && WorkerEvent(c, s, e).Some?
    ensures var s' := WorkerEvent(c, s, e).value;
      && s'.closer == s.closer && s'.boot == s.boot && s'.callers == s.callers
      && s'.sched.accepting == s.sched.accepting && |s'.workers| == |s.workers|
  {
  }

  lemma WorkerClosed(c: Config, s: State, e: Event)
    requires ClosedDown(s) && OfWorker(e) && WorkerEvent(c, s, e).Some?
    ensures ClosedDown(WorkerEvent(c, s, e).value)
  {
    WorkerSignals(c, s, e);
    WorkerKeeps(c, s, e);
    FrameClosed(s, WorkerEvent(c, s, e).value);
  }

  lemma CallerClosed(s: State, e: Event)
    requires ClosedDown(s) && CallerEvent(s, e).Some?
    ensures ClosedDown(CallerEvent(s, e).value)
  {
    FrameClosed(s, CallerEvent(s, e).value);
  }

  lemma CloseClosed(c: Config, s: State, e: Event)
    requires ClosedDown(s) && TokensHeld(s) && CloseEvent(c, s, e).Some?
    ensures ClosedDown(CloseEvent(c, s, e).value)
  {
    var s' := CloseEvent(c, s, e).value;
    if e.Close? {
      assert forall run :: run in s.sched.tokens ==> s.sched.tokens[run] in s.sched.tokens.Values;
      forall i | 0 <= i < |e.tokens|
        ensures e.tokens[i] < s.sched.issued
      {
        assert e.tokens[i] in s.sched.tokens.Values;
      }
    } else if s.closer.Firing? && s.closer.rest != [] {
      forall run | run in s'.sched.tokens
        ensures s'.sched.tokens[run] in s'.sched.cancelled || s'.sched.tokens[run] in s'.closer.rest
      {
        assert s.closer.rest == [s.closer.rest[0]] + s.closer.rest[1..];
      }
    }
  }

  lemma BootClosed(c: Config, s: State, e: Event)
    requires ClosedDown(s) && Shaped(c, s) && BootEvent(c, s, e).Some?
    ensures ClosedDown(BootEvent(c, s, e).value)
  {
  }

  lemma StepClosed(c: Config, s: State, e: Event)
    requires ClosedDown(s) && TokensHeld(s) && Shaped(c, s) && Step(c, s, e).Some?
    ensures ClosedDown(Step(c, s, e).value)
  {
    match e
    case Advance(_) | Raise(_) | PipelineReturns(_, _) | PipelineStops(_) | Report(_, _, _) => WorkerClosed(c, s, e);
    case Create(_, _, _) | CancelRun(_, _, _) | Continue(_) => CallerClosed(s, e);
    case Close(_) | CloserStep => CloseClosed(c, s, e);
    case _ => BootClosed(c, s, e);
  }

  lemma BusyOrdered(c: Config, s: State, e: Event)
    requires InOrder(s) && OfWorker(e) && WorkerEvent(c, s, e).Some? && Stands(s, e.worker)
    ensures InOrder(WorkerEvent(c, s, e).value)
  {
  }

  lemma IdleOrdered(c: Config, s: State, e: Event)
    requires InOrder(s) && OfWorker(e) && WorkerEvent(c, s, e).Some? && !Stands(s, e.worker)
    ensures InOrder(WorkerEvent(c, s, e).value)
  {
    assert s.sched.queue == [s.sched.queue[0]] + s.sched.queue[1..];
  }

  lemma WorkerOrdered(c: Config, s: State, e: Event)
    requires InOrder(s) && OfWorker(e) && WorkerEvent(c, s, e).Some?
    ensures InOrder(WorkerEvent(c, s, e).value)
  {
    if Stands(s, e.worker) {
      BusyOrdered(c, s, e);
    } else {
      IdleOrdered(c, s, e);
    }
  }

  lemma BootOrdered(c: Config, s: State, e: Event)
    requires InOrder(s) && Shaped(c, s) && BootEvent(c, s, e).Some?
    ensures InOrder(BootEvent(c, s, e).value)
  {
  }

  lemma CloseOrdered(c: Config, s: State, e: Event)
    requires InOrder(s) && CloseEvent(c, s, e).Some?
    ensures InOrder(CloseEvent(c, s, e).value)
  {
  }

  lemma CallerOrdered(s: State, e: Event)
    requires InOrder(s) && CallerEvent(s, e).Some?
    ensures InOrder(CallerEvent(s, e).value)
  {
  }

  lemma StepOrdered(c: Config, s: State, e: Event)
    requires InOrder(s) && Shaped(c, s) && Step(c, s, e).Some?
    ensures InOrder(Step(c, s, e).value)
  {
    match e
    case Advance(_) | Raise(_) | PipelineReturns(_, _) | PipelineStops(_) | Report(_, _, _) => WorkerOrdered(c, s, e);
    case Create(_, _, _) | CancelRun(_, _, _) | Continue(_) => CallerOrdered(s, e);
    case Close(_) | CloserStep => CloseOrdered(c, s, e);
    case _ => BootOrdered(c, s, e);
  }

  lemma WorkerShaped(c: Config, s: State, e: Event)
    requires Staged(s) && Covered(s) && ClosedDown(s) && Shaped(c, s) && OfWorker(e) && WorkerEvent(c, s, e).Some?
    ensures Shaped(c, WorkerEvent(c, s, e).value)
  {
    WorkerKeeps(c, s, e);
    WorkerCovered(c, s, e);
  }

  lemma BootShaped(c: Config, s: State, e: Event)
    requires ClosedDown(s) && Shaped(c, s) && BootEvent(c, s, e).Some?
    ensures Shaped(c, BootEvent(c, s, e).value)
  {
  }

  lemma ServingShaped(c: Config, s: State, e: Event)
    requires Shaped(c, s) && !OfWorker(e) && (CallerEvent(s, e).Some? || CloseEvent(c, s, e).Some?) && Step(c, s, e).Some?
    ensures Shaped(c, Step(c, s, e).value)
  {
  }

  lemma StepShaped(c: Config, s: State, e: Event)
    requires Staged(s) && Covered(s) && ClosedDown(s) && Shaped(c, s) && Step(c, s, e).Some?
    ensures Shaped(c, Step(c, s, e).value)
  {
    match e
    case Advance(_) | Raise(_) | PipelineReturns(_, _) | PipelineStops(_) | Report(_, _, _) => WorkerShaped(c, s, e);
    case Create(_, _, _) | CancelRun(_, _, _) | Continue(_) => ServingShaped(c, s, e);
    case Close(_) | CloserStep => ServingShaped(c, s, e);
    case _ => BootShaped(c, s, e);
  }

  lemma StepKeepsInv(c: Config, s: State, e: Event)
    requires Within(NOTHING, c.capacity) && Inv(c, s) && Step(c, s, e).Some?
    ensures Inv(c, Step(c, s, e).value)
  {
    StepTracked(c, s, e);
    StepStaged(c, s, e);
    StepSignalled(c, s, e);
    StepCovered(c, s, e);
    StepStarted(c, s, e);
    StepAccounted(c, s, e);
    StepClosed(c, s, e);
    StepOrdered(c, s, e);
    StepShaped(c, s, e);
    StepLawful(c, s, e);
    StepApart(c, s, e);
    StepEntered(c, s, e);
  }

  // Every state the system can be in, over any number of process lifetimes.
  lemma {:induction false} RunKeepsInv(c: Config, events: seq<Event>)
    requires Within(NOTHING, c.capacity) && Run(c, events).Some?
    ensures Inv(c, Run(c, events).value)
  {
    if events == [] {
      assert forall w: nat :: !Stands(INITIAL, w);
    } else {
      var prefix := events[..|events| - 1];
      RunKeepsInv(c, prefix);
      StepKeepsInv(c, Run(c, prefix).value, events[|events| - 1]);
    }
  }
}
