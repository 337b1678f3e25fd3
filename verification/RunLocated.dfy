/** Every event keeps each run at one place, with one token. */
module RunLocated {
  import opened Wrappers
  import opened RunStore
  import opened Resources
  import opened Scheduler
  import opened RunProtocol
  import opened RunInvariant

  ghost predicate Tracked(s: State) { Located(s) && TokensHeld(s) }

  predicate CarriesJob(caller: Caller) { caller.Submitting? || caller.Enqueueing? }

  // Nothing that says where the jobs are has changed.
  ghost predicate SameJobs(s: State, s': State) {
    && |s'.workers| == |s.workers|
    && (forall w :: 0 <= w < |s.workers| ==> s'.workers[w].Busy? == s.workers[w].Busy?)
    && (forall w :: 0 <= w < |s.workers| && s.workers[w].Busy? ==> s'.workers[w].job == s.workers[w].job)
    && (forall k :: k in s.callers && CarriesJob(s.callers[k]) ==> k in s'.callers && s'.callers[k] == s.callers[k])
    && (forall k :: k in s'.callers && CarriesJob(s'.callers[k]) ==> k in s.callers && s'.callers[k] == s.callers[k])
    && s'.sched.tokens == s.sched.tokens && s'.sched.queue == s.sched.queue && s'.sched.issued == s.sched.issued
    && s'.boot == s.boot && s'.past.place == s.past.place
  }

  lemma FrameTracked(s: State, s': State)
    requires Tracked(s) && SameJobs(s, s')
    ensures Tracked(s')
  {
    forall w: nat | Stands(s', w)
      ensures JobAt(s', s'.workers[w].job, AtWorker(w))
    {
      assert Stands(s, w);
    }
    forall run | run in s'.past.place
      ensures PlaceBacked(s', run)
    {
      assert PlaceBacked(s, run);
    }
  }

  lemma DequeueTracked(s: State, w: nat)
    requires Tracked(s) && w < |s.workers| && s.workers[w].Idle? && s.sched.queue != []
    ensures Tracked(Dequeue(s, w))
  {
    DequeueQueue(s, w);
    DequeueWorkers(s, w);
    DequeueBacked(s, w);
    DequeueOthers(s, w);
  }

  lemma DequeueOthers(s: State, w: nat)
    requires Tracked(s) && w < |s.workers| && s.workers[w].Idle? && s.sched.queue != []
    ensures CallersAt(Dequeue(s, w)) && BootAt(Dequeue(s, w)) && TokensHeld(Dequeue(s, w))
  {
    var s' := Dequeue(s, w);
    assert s.sched.queue[0].Some? ==> JobAt(s, s.sched.queue[0].value, InQueue);
    forall k | k in s'.callers
      ensures CallerAt(s', k)
    {
      assert CallerAt(s, k);
    }
  }

  lemma DequeueQueue(s: State, w: nat)
    requires Tracked(s) && w < |s.workers| && s.workers[w].Idle? && s.sched.queue != []
    ensures QueueAt(Dequeue(s, w))
  {
    var s' := Dequeue(s, w);
    forall i | 0 <= i < |s'.sched.queue| && s'.sched.queue[i].Some?
      ensures JobAt(s', s'.sched.queue[i].value, InQueue)
    {
      assert s'.sched.queue[i] == s.sched.queue[i + 1];
      assert JobAt(s, s.sched.queue[i + 1].value, InQueue);
    }
  }

  lemma DequeueWorkers(s: State, w: nat)
    requires Tracked(s) && w < |s.workers| && s.workers[w].Idle? && s.sched.queue != []
    ensures WorkersAt(Dequeue(s, w))
  {
    var s' := Dequeue(s, w);
    assert s.sched.queue[0].Some? ==> JobAt(s, s.sched.queue[0].value, InQueue);
    forall v: nat | Stands(s', v)
      ensures JobAt(s', s'.workers[v].job, AtWorker(v))
    {
      if v != w {
        assert Stands(s, v) && JobAt(s, s.workers[v].job, AtWorker(v));
      }
    }
  }

  lemma DequeueBacked(s: State, w: nat)
    requires Tracked(s) && w < |s.workers| && s.workers[w].Idle? && s.sched.queue != []
    ensures PlacesBacked(Dequeue(s, w))
  {
    var s' := Dequeue(s, w);
    var q := s.sched.queue;
    assert q[0].Some? ==> JobAt(s, q[0].value, InQueue);
    forall run | run in s'.past.place
      ensures PlaceBacked(s', run)
    {
      if q[0].None? || run != q[0].value.run {
        assert PlaceBacked(s, run);
        if s.past.place[run].InQueue? {
          var i :| 0 <= i < |q| && q[i] == Some(Job(run, s.sched.tokens[run]));
          assert s'.sched.queue[i - 1] == q[i];
        }
      }
    }
  }

  lemma LeaveTracked(s: State, w: nat)
    requires Tracked(s) && Stands(s, w)
    ensures Tracked(Leave(s, w))
  {
    var s' := Leave(s, w);
    var job := s.workers[w].job;
    assert JobAt(s, job, AtWorker(w));
    OthersKept(s, s', job.run);
    forall v: nat | Stands(s', v)
      ensures JobAt(s', s'.workers[v].job, AtWorker(v))
    {
      assert Stands(s, v) && JobAt(s, s.workers[v].job, AtWorker(v));
    }
    LeaveBacked(s, w);
  }

  lemma LeaveBacked(s: State, w: nat)
    requires Tracked(s) && Stands(s, w)
    ensures PlacesBacked(Leave(s, w))
  {
    var s' := Leave(s, w);
    forall run | run in s'.past.place
      ensures PlaceBacked(s', run)
    {
      assert PlaceBacked(s, run);
    }
  }

  // A run that is at a worker is neither queued, nor at a caller, nor restored.
  lemma OthersKept(s: State, s': State, run: RunId)
    requires Tracked(s) && run in s.past.place && s.past.place[run].AtWorker?
    requires s'.sched == Drop(s.sched, run) && s'.past.place == s.past.place - {run}
    requires s'.callers == s.callers && s'.boot == s.boot
    ensures QueueAt(s') && CallersAt(s') && BootAt(s') && TokensHeld(s')
  {
    forall i | 0 <= i < |s.sched.queue| && s.sched.queue[i].Some?
      ensures JobAt(s', s.sched.queue[i].value, InQueue)
    {
      assert JobAt(s, s.sched.queue[i].value, InQueue);
    }
    forall k | k in s'.callers
      ensures CallerAt(s', k)
    {
      assert CallerAt(s, k);
    }
  }

  // A place for a run that had none, or a move of a caller's or the boot's run.
  lemma CreateTracked(s: State, k: nat, run: RunId, created: nat)
    requires Tracked(s) && k !in s.callers && run !in s.past.place
    ensures Tracked(Moved(s.(rows := s.rows[run := FreshRow(created)], callers := s.callers[k := Submitting(run)]),
                          run, InSubmit(k)))
  {
    var s' := Moved(s.(rows := s.rows[run := FreshRow(created)], callers := s.callers[k := Submitting(run)]),
                    run, InSubmit(k));
    forall w: nat | Stands(s', w)
      ensures JobAt(s', s'.workers[w].job, AtWorker(w))
    {
      assert Stands(s, w);
    }
    forall r | r in s'.past.place
      ensures PlaceBacked(s', r)
    {
      assert r == run || PlaceBacked(s, r);
    }
  }

  lemma SubmitTracked(s: State, k: nat)
    requires Tracked(s) && k in s.callers && s.callers[k].Submitting?
    ensures Tracked(CallerStep(s, k))
  {
    var s' := CallerStep(s, k);
    var run := s.callers[k].run;
    assert CallerAt(s, k);
    SubmitJobs(s, s', run);
    forall k' | k' in s'.callers
      ensures CallerAt(s', k')
    {
      assert CallerAt(s, k');
    }
    forall r | r in s'.past.place
      ensures PlaceBacked(s', r)
    {
      assert PlaceBacked(s, r);
    }
  }

  // Registering or dropping the run of a caller touches no other job.
  lemma SubmitJobs(s: State, s': State, run: RunId)
    requires Tracked(s) && run in s.past.place && s.past.place[run].InSubmit? && run !in s.sched.tokens
    requires s'.workers == s.workers && s'.boot == s.boot && s'.sched.queue == s.sched.queue
    requires
      || (s'.sched == s.sched && s'.past.place == s.past.place - {run})
      || (s'.sched == Register(s.sched, run) && run in s'.past.place && s'.past.place[run].InEnqueue?
          && s'.past.place == s.past.place[run := s'.past.place[run]])
    ensures WorkersAt(s') && QueueAt(s') && BootAt(s') && TokensHeld(s')
  {
    forall w: nat | Stands(s', w)
      ensures JobAt(s', s'.workers[w].job, AtWorker(w))
    {
      assert Stands(s, w) && JobAt(s, s.workers[w].job, AtWorker(w));
    }
    forall i | 0 <= i < |s.sched.queue| && s.sched.queue[i].Some?
      ensures JobAt(s', s.sched.queue[i].value, InQueue)
    {
      assert JobAt(s, s.sched.queue[i].value, InQueue);
    }
  }

  lemma PutTracked(s: State, k: nat)
    requires Tracked(s) && k in s.callers && s.callers[k].Enqueueing?
    ensures Tracked(CallerStep(s, k))
  {
    var s' := CallerStep(s, k);
    var job := s.callers[k].job;
    assert CallerAt(s, k);
    EnterTracked(s, s', job);
    forall k' | k' in s'.callers
      ensures CallerAt(s', k')
    {
      assert CallerAt(s, k');
    }
    forall r | r in s'.past.place
      ensures PlaceBacked(s', r)
    {
      assert PlaceBacked(s, r);
    }
  }

  // The queue and worker parts after a job goes to the end of the queue.
  lemma EnterTracked(s: State, s': State, job: Job)
    requires Tracked(s) && job.run in s.past.place && JobAt(s, job, s.past.place[job.run])
    requires s.past.place[job.run].InEnqueue? || s.past.place[job.run].InRestoreEnqueue?
    requires s'.sched == Put(s.sched, Some(job)) && s'.workers == s.workers
    requires s'.past.place == s.past.place[job.run := InQueue]
    ensures QueueAt(s') && TokensHeld(s')
    ensures WorkersAt(s')
    ensures s'.sched.queue[|s.sched.queue|] == Some(job)
    ensures forall entry :: entry in s.sched.queue ==> entry in s'.sched.queue
  {
    forall w: nat | Stands(s', w)
      ensures JobAt(s', s'.workers[w].job, AtWorker(w))
    {
      assert Stands(s, w);
    }
    forall i | 0 <= i < |s.sched.queue| && s.sched.queue[i].Some?
      ensures s.sched.queue[i].value.run != job.run
    {
      assert JobAt(s, s.sched.queue[i].value, InQueue);
    }
  }

  lemma PillTracked(s: State, closer: Closer)
    requires Tracked(s)
    ensures Tracked(Enter(s, None).(closer := closer))
  {
    var s' := Enter(s, None).(closer := closer);
    forall w: nat | Stands(s', w)
      ensures JobAt(s', s'.workers[w].job, AtWorker(w))
    {
      assert Stands(s, w);
    }
    forall run | run in s'.past.place
      ensures PlaceBacked(s', run)
    {
      assert PlaceBacked(s, run);
    }
  }

  // The head of the restore list leaves it, without a job.
  lemma SkipTracked(s: State, rows: Rows)
    requires Tracked(s) && s.boot.Restoring? && s.boot.entering.None? && s.boot.jobs != []
    ensures Tracked(Unplaced(s.(rows := rows, boot := Restoring(s.boot.jobs[1..], None)), s.boot.jobs[0]))
  {
    var run := s.boot.jobs[0];
    var s' := Unplaced(s.(rows := rows, boot := Restoring(s.boot.jobs[1..], None)), run);
    assert RunAt(s, run, InRestore);
    BootTailAt(s, s');
    forall w: nat | Stands(s', w)
      ensures JobAt(s', s'.workers[w].job, AtWorker(w))
    {
      assert Stands(s, w);
    }
    forall k | k in s'.callers
      ensures CallerAt(s', k)
    {
      assert CallerAt(s, k);
    }
    forall r | r in s'.past.place
      ensures PlaceBacked(s', r)
    {
      assert PlaceBacked(s, r);
    }
  }

  lemma BootTailAt(s: State, s': State)
    requires Located(s) && s.boot.Restoring? && s.boot.jobs != []
    requires s'.boot.Restoring? && s'.boot.jobs == s.boot.jobs[1..]
    requires forall i :: 1 <= i < |s.boot.jobs| ==> RunAt(s', s.boot.jobs[i], InRestore)
    ensures forall i :: 0 <= i < |s'.boot.jobs| ==> RunAt(s', s'.boot.jobs[i], InRestore)
    ensures forall i, j :: 0 <= i < j < |s'.boot.jobs| ==> s'.boot.jobs[i] != s'.boot.jobs[j]
    ensures forall run :: run in s.boot.jobs && run != s.boot.jobs[0] ==> run in s'.boot.jobs
  {
  }

  lemma RestoreRegisterTracked(s: State)
    requires Tracked(s) && s.boot.Restoring? && s.boot.entering.None? && s.boot.jobs != []
    requires CanRegister(s.sched, s.boot.jobs[0])
    ensures Tracked(Restore(s))
  {
    var run := s.boot.jobs[0];
    var s' := Restore(s);
    assert RunAt(s, run, InRestore);
    forall i | 1 <= i < |s.boot.jobs|
      ensures RunAt(s', s.boot.jobs[i], InRestore)
    {
      assert RunAt(s, s.boot.jobs[i], InRestore);
    }
    BootTailAt(s, s');
    forall w: nat | Stands(s', w)
      ensures JobAt(s', s'.workers[w].job, AtWorker(w))
    {
      assert Stands(s, w);
    }
    forall r | r in s'.past.place
      ensures PlaceBacked(s', r)
    {
      assert PlaceBacked(s, r);
    }
  }

  lemma RestorePutTracked(s: State)
    requires Tracked(s) && s.boot.Restoring? && s.boot.entering.Some?
    ensures Tracked(Restore(s))
  {
    var s' := Restore(s);
    var job := s.boot.entering.value;
    EnterTracked(s, s', job);
    forall k | k in s'.callers
      ensures CallerAt(s', k)
    {
      assert CallerAt(s, k);
    }
    forall r | r in s'.past.place
      ensures PlaceBacked(s', r)
    {
      assert PlaceBacked(s, r);
    }
  }
}
