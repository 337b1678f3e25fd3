/** Every event keeps stranded runs without a job, and each token out of the queue once it was in. */
module RunOnce {
  import opened Wrappers
  import opened RunStore
  import opened Resources
  import opened Scheduler
  import opened RunProtocol
  import opened RunInvariant
  import opened RunLocated
  import opened RunKept

  // --- StrandedApart ---

  // No run is stranded, none gets a new place, and no row goes.
  lemma FrameApart(s: State, s': State)
    requires StrandedApart(s) && s'.past.stranded <= s.past.stranded
    requires forall run :: run in s'.past.place ==> run in s.past.place
    requires forall run :: run in s.rows ==> run in s'.rows
    ensures StrandedApart(s')
  {
  }

  lemma WorkerApart(c: Config, s: State, e: Event)
    requires Tracked(s) && StrandedApart(s) && OfWorker(e) && WorkerEvent(c, s, e).Some?
    ensures StrandedApart(WorkerEvent(c, s, e).value)
  {
    var w, s' := e.worker, WorkerEvent(c, s, e).value;
    if !Stands(s, w) {
      assert s.sched.queue[0].Some? ==> JobAt(s, s.sched.queue[0].value, InQueue);
      FrameApart(s, s');
    } else if !(e.Advance? && s.workers[w].stage.Leaving?) {
      MoveOneRow(c, s, e);
      FrameApart(s, s');
    }
  }

  lemma CallerApart(s: State, e: Event)
    requires Tracked(s) && Staged(s) && StrandedApart(s) && CallerEvent(s, e).Some?
    ensures StrandedApart(CallerEvent(s, e).value)
  {
    assert e.Continue? ==> CallerAt(s, e.caller);
  }

  lemma BootApart(c: Config, s: State, e: Event)
    requires Shaped(c, s) && StrandedApart(s) && BootEvent(c, s, e).Some?
    ensures StrandedApart(BootEvent(c, s, e).value)
  {
    assert BootEvent(c, s, e).value.past.stranded == {};
  }

  lemma StepApart(c: Config, s: State, e: Event)
    requires Tracked(s) && Staged(s) && Shaped(c, s) && StrandedApart(s) && Step(c, s, e).Some?
    ensures StrandedApart(Step(c, s, e).value)
  {
    match e
    case Advance(_) | Raise(_) | PipelineReturns(_, _) | PipelineStops(_) | Report(_, _, _) => WorkerApart(c, s, e);
    case Create(_, _, _) | CancelRun(_, _, _) | Continue(_) => CallerApart(s, e);
    case Close(_) | CloserStep => FrameApart(s, CloseEvent(c, s, e).value);
    case _ => BootApart(c, s, e);
  }

  // --- EnteredOnce ---

  // Nothing enters the queue, and no token comes to stand before it that was issued already.
  lemma FrameEntered(s: State, s': State)
    requires EnteredOnce(s) && s'.past.entered == s.past.entered && s.sched.issued <= s'.sched.issued
    requires forall k :: k in s'.callers && s'.callers[k].Enqueueing? ==>
      (k in s.callers && s'.callers[k] == s.callers[k]) || s.sched.issued <= s'.callers[k].job.token
    requires s'.boot.Restoring? && s'.boot.entering.Some? ==>
      s'.boot == s.boot || s.sched.issued <= s'.boot.entering.value.token
    ensures EnteredOnce(s')
  {
    assert forall token, i :: EnteredAt(s', token, i) ==> EnteredAt(s, token, i);
  }

  // A job that waited to be put into the queue is put there.
  lemma PutEntered(s: State, s': State, job: Job)
    requires Tracked(s) && EnteredOnce(s)
    requires job.run in s.past.place && JobAt(s, job, s.past.place[job.run])
    requires forall i :: !EnteredAt(s, job.token, i)
    requires s'.past.entered == s.past.entered + [Some(job)] && s'.sched.issued == s.sched.issued
    requires forall k :: k in s'.callers && s'.callers[k].Enqueueing? ==>
      k in s.callers && s'.callers[k] == s.callers[k] && s.callers[k].job.run != job.run
    requires s'.boot.Restoring? && s'.boot.entering.Some? ==> s'.boot == s.boot && s.boot.entering.value.run != job.run
    ensures EnteredOnce(s')
  {
    var n := |s.past.entered|;
    forall token, i | EnteredAt(s', token, i)
      ensures if i == n then token == job.token else EnteredAt(s, token, i)
    {
    }
    forall k, i | k in s'.callers && s'.callers[k].Enqueueing?
      ensures !EnteredAt(s', s'.callers[k].job.token, i)
    {
      assert CallerAt(s, k) && !EnteredAt(s, s.callers[k].job.token, i);
    }
  }

  lemma PillEntered(s: State, s': State)
    requires EnteredOnce(s) && s'.past.entered == s.past.entered + [None] && s'.sched.issued == s.sched.issued
    requires s'.callers == s.callers && s'.boot == s.boot
    ensures EnteredOnce(s')
  {
    assert forall token, i :: EnteredAt(s', token, i) ==> EnteredAt(s, token, i);
  }

  lemma WorkerEntered(c: Config, s: State, e: Event)
    requires EnteredOnce(s) && OfWorker(e) && WorkerEvent(c, s, e).Some?
    ensures EnteredOnce(WorkerEvent(c, s, e).value)
  {
    FrameEntered(s, WorkerEvent(c, s, e).value);
  }

  lemma CallerEntered(s: State, e: Event)
    requires Tracked(s) && EnteredOnce(s) && CallerEvent(s, e).Some?
    ensures EnteredOnce(CallerEvent(s, e).value)
  {
    var s' := CallerEvent(s, e).value;
    if e.Continue? && s.callers[e.caller].Enqueueing? {
      var job := s.callers[e.caller].job;
      assert CallerAt(s, e.caller);
      forall k | k in s.callers && s.callers[k].Enqueueing? && k != e.caller
        ensures s.callers[k].job.run != job.run
      {
        assert CallerAt(s, k);
      }
      PutEntered(s, s', job);
    } else {
      FrameEntered(s, s');
    }
  }

  lemma CloseEntered(c: Config, s: State, e: Event)
    requires EnteredOnce(s) && CloseEvent(c, s, e).Some?
    ensures EnteredOnce(CloseEvent(c, s, e).value)
  {
    var s' := CloseEvent(c, s, e).value;
    if e.CloserStep? && s.closer.Pilling? && s.closer.left > 0 {
      PillEntered(s, s');
    } else {
      FrameEntered(s, s');
    }
  }

  lemma BootEntered(c: Config, s: State, e: Event)
    requires Tracked(s) && Shaped(c, s) && EnteredOnce(s) && BootEvent(c, s, e).Some?
    ensures EnteredOnce(BootEvent(c, s, e).value)
  {
    var s' := BootEvent(c, s, e).value;
    if e.RestoreStep? && s.boot.entering.Some? {
      PutEntered(s, s', s.boot.entering.value);
    } else if e.Crash? {
      assert forall token, i :: !EnteredAt(s', token, i);
    } else {
      FrameEntered(s, s');
    }
  }

  lemma StepEntered(c: Config, s: State, e: Event)
    requires Tracked(s) && Shaped(c, s) && EnteredOnce(s) && Step(c, s, e).Some?
    ensures EnteredOnce(Step(c, s, e).value)
  {
    match e
    case Advance(_) | Raise(_) | PipelineReturns(_, _) | PipelineStops(_) | Report(_, _, _) => WorkerEntered(c, s, e);
    case Create(_, _, _) | CancelRun(_, _, _) | Continue(_) => CallerEntered(s, e);
    case Close(_) | CloserStep => CloseEntered(c, s, e);
    case _ => BootEntered(c, s, e);
  }
}
