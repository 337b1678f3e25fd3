/** What the run protocol promises, for every history of events. */
module RunTheorems {
  import opened Wrappers
  import opened RunStore
  import opened Resources
  import opened Scheduler
  import opened RunProtocol
  import opened RunInvariant
  import opened RunLocated
  import opened RunKept
  import opened RunSafety

  // A sandbox capacity as the budget constructor accepts it.
  predicate Sound(c: Config) {
    1 <= c.workers && 1 <= c.capacity.sandboxes && 0.0 < c.capacity.cpu && 1 <= c.capacity.memory
  }

  ghost predicate Happens(c: Config, events: seq<Event>) {
    Sound(c) && Run(c, events).Some?
  }

  ghost function After(c: Config, events: seq<Event>): State
    requires Happens(c, events)
  {
    Run(c, events).value
  }

  lemma Reached(c: Config, events: seq<Event>)
    requires Happens(c, events)
    ensures Inv(c, After(c, events))
  {
    RunKeepsInv(c, events);
  }

  lemma Extended(c: Config, events: seq<Event>, e: Event)
    requires Sound(c)
    ensures Run(c, events + [e]) == if Run(c, events).None? then None else Step(c, Run(c, events).value, e)
  {
    assert (events + [e])[..|events|] == events;
  }

  // A history that happens has only prefixes that happen.
  lemma {:induction false} PrefixHappens(c: Config, before: seq<Event>, later: seq<Event>)
    requires Happens(c, before + later)
    ensures Happens(c, before)
    decreases later
  {
    if later == [] {
      assert before + later == before;
    } else {
      var rest := later[..|later| - 1];
      assert (before + later)[..|before + later| - 1] == before + rest;
      PrefixHappens(c, before, rest);
    }
  }

  // --- a pipeline runs at most once, whatever crashes and restarts happen ---

  // How many events of the history started the pipeline of this run.
  ghost function StartsIn(c: Config, events: seq<Event>, run: RunId): nat {
    if events == [] then 0
    else
      var prefix, e := events[..|events| - 1], events[|events| - 1];
      StartsIn(c, prefix, run) +
      if Happens(c, prefix) && e.Advance? && Stands(After(c, prefix), e.worker)
         && After(c, prefix).workers[e.worker] == Busy(After(c, prefix).workers[e.worker].job, Starting)
         && After(c, prefix).workers[e.worker].job.run == run
      then 1 else 0
  }

  lemma {:induction false} StartsRecorded(c: Config, events: seq<Event>, run: RunId)
    requires Happens(c, events)
    ensures StartsIn(c, events, run) == After(c, events).past.starts[run]
  {
    if events != [] {
      var prefix, e := events[..|events| - 1], events[|events| - 1];
      StartsRecorded(c, prefix, run);
      StepStarts(c, After(c, prefix), e, run);
    }
  }

  lemma WorkerStarts(c: Config, s: State, e: Event)
    requires OfWorker(e) && Stands(s, e.worker) && MoveOf(c, s, e).Some?
    ensures MoveOf(c, s, e).value.starts <==> e.Advance? && s.workers[e.worker].stage.Starting?
  {
  }

  lemma StepStarts(c: Config, s: State, e: Event, run: RunId)
    requires Step(c, s, e).Some?
    ensures Step(c, s, e).value.past.starts[run] == s.past.starts[run] +
      if e.Advance? && Stands(s, e.worker) && s.workers[e.worker].stage.Starting? && s.workers[e.worker].job.run == run
      then 1 else 0
  {
    match e
    case Advance(_) | Raise(_) | PipelineReturns(_, _) | PipelineStops(_) | Report(_, _, _) =>
      if Stands(s, e.worker) && MoveOf(c, s, e).Some? {
        WorkerStarts(c, s, e);
      }
    case Create(_, _, _) | CancelRun(_, _, _) | Continue(_) =>
    case _ =>
  }

  lemma PipelineStartsAtMostOnce(c: Config, events: seq<Event>, run: RunId)
    requires Happens(c, events)
    ensures StartsIn(c, events, run) <= 1
  {
    Reached(c, events);
    StartsRecorded(c, events, run);
  }

  // Once recorded, a drop in the queue stays recorded, and so do starts.
  lemma {:induction false} DropRemembered(c: Config, before: seq<Event>, later: seq<Event>, run: RunId)
    requires Happens(c, before + later) && Happens(c, before) && run in After(c, before).past.droppedInQueue
    ensures run in After(c, before + later).past.droppedInQueue
    decreases later
  {
    if later == [] {
      assert before + later == before;
    } else {
      var rest, e := later[..|later| - 1], later[|later| - 1];
      assert before + later == (before + rest) + [e];
      Extended(c, before + rest, e);
      DropRemembered(c, before, rest, run);
      StepDrops(c, After(c, before + rest), e);
    }
  }

  lemma StepDrops(c: Config, s: State, e: Event)
    requires Step(c, s, e).Some?
    ensures s.past.droppedInQueue <= Step(c, s, e).value.past.droppedInQueue
  {
    match e
    case Advance(_) | Raise(_) | PipelineReturns(_, _) | PipelineStops(_) | Report(_, _, _) =>
    case Create(_, _, _) | CancelRun(_, _, _) | Continue(_) =>
    case _ =>
  }

  // A run cancelled while its row is queued never starts, neither before nor
  // after, not even when a worker already holds a lease for it.
  lemma CancelledInQueueNeverStarts(
      c: Config, before: seq<Event>, caller: nat, run: RunId, reason: string, later: seq<Event>)
    requires Happens(c, before + [CancelRun(caller, run, reason)] + later)
    requires Happens(c, before) && HasStatus(After(c, before).rows, run, {Queued})
    ensures StartsIn(c, before + [CancelRun(caller, run, reason)] + later, run) == 0
  {
    var cancelled := before + [CancelRun(caller, run, reason)];
    PrefixHappens(c, cancelled, later);
    Extended(c, before, CancelRun(caller, run, reason));
    DropRemembered(c, cancelled, later, run);
    Reached(c, cancelled + later);
    StartsRecorded(c, cancelled + later, run);
  }

  // --- the status column ---

  lemma {:induction false} RowsLawful(c: Config, before: seq<Event>, later: seq<Event>, run: RunId)
    requires Happens(c, before + later) && Happens(c, before) && run in After(c, before).rows
    ensures run in After(c, before + later).rows
    ensures Terminal(After(c, before).rows[run].status) ==>
      After(c, before + later).rows[run] == After(c, before).rows[run]
    ensures After(c, before).rows[run].status.Cancelling? ==>
      var status := After(c, before + later).rows[run].status;
      status.Cancelling? || status.Cancelled? || status.TechnicalFailure?
    decreases later
  {
    if later == [] {
      assert before + later == before;
    } else {
      var rest, e := later[..|later| - 1], later[|later| - 1];
      assert before + later == (before + rest) + [e];
      PrefixHappens(c, before + rest, [e]);
      Extended(c, before + rest, e);
      RowsLawful(c, before, rest, run);
      StepLawful(c, After(c, before + rest), e);
      assert Stopped(After(c, before + rest).rows, run) ==> Stopped(After(c, before + later).rows, run);
    }
  }

  // completed, technical_failure and cancelled are absorbing, with every column,
  // across crashes and restarts.
  lemma TerminalRowsNeverChange(c: Config, before: seq<Event>, later: seq<Event>, run: RunId)
    requires Happens(c, before + later) && Happens(c, before)
    requires run in After(c, before).rows
    requires After(c, before).rows[run].status in {Cancelled, Completed, TechnicalFailure}
    ensures run in After(c, before + later).rows
    ensures After(c, before + later).rows[run] == After(c, before).rows[run]
  {
    RowsLawful(c, before, later, run);
  }

  lemma CancellingNeverCompletes(c: Config, before: seq<Event>, later: seq<Event>, run: RunId)
    requires Happens(c, before + later) && Happens(c, before)
    requires HasStatus(After(c, before).rows, run, {Status.Cancelling})
    ensures HasStatus(After(c, before + later).rows, run, {Status.Cancelling, Cancelled, TechnicalFailure})
  {
    RowsLawful(c, before, later, run);
  }

  // While the scheduler accepts, a running row has a worker that holds its lease
  // between `mark_running` and the transaction that ends the run. RunStranding
  // has the exact condition for a closed one.
  lemma RunningHoldsItsLease(c: Config, events: seq<Event>, run: RunId) returns (w: nat)
    requires Happens(c, events) && After(c, events).sched.accepting
    requires After(c, events).boot.Restoring? || After(c, events).boot.Serving?
    requires HasStatus(After(c, events).rows, run, {Running})
    ensures Stands(After(c, events), w) && After(c, events).workers[w].job.run == run
    ensures Active(After(c, events).workers[w].stage) && HoldsLease(After(c, events).workers[w])
  {
    var s := After(c, events);
    Reached(c, events);
    assert PlaceBacked(s, run);
    w := s.past.place[run].worker;
    assert StagedAt(s, w);
  }

  // cancelling becomes cancelled only by a worker that has given its lease back,
  // when no worker holds a lease for the run.
  lemma CancelledOnlyAfterRelease(c: Config, events: seq<Event>, e: Event, run: RunId)
    requires Happens(c, events + [e]) && Happens(c, events)
    requires HasStatus(After(c, events).rows, run, {Status.Cancelling})
    requires HasStatus(After(c, events + [e]).rows, run, {Cancelled})
    ensures e.Advance? && Stands(After(c, events), e.worker)
    ensures After(c, events).workers[e.worker] == Busy(After(c, events).workers[e.worker].job, Settling(true))
    ensures After(c, events).workers[e.worker].job.run == run
    ensures forall v: nat :: Stands(After(c, events), v) && After(c, events).workers[v].job.run == run ==>
      !HoldsLease(After(c, events).workers[v])
  {
    var s := After(c, events);
    Extended(c, events, e);
    Reached(c, events);
    CancelledBy(c, s, e, run);
    assert JobAt(s, s.workers[e.worker].job, AtWorker(e.worker));
    forall v: nat | Stands(s, v) && s.workers[v].job.run == run
      ensures v == e.worker
    {
      assert JobAt(s, s.workers[v].job, AtWorker(v));
    }
  }

  lemma CancelledBy(c: Config, s: State, e: Event, run: RunId)
    requires Step(c, s, e).Some?
    requires HasStatus(s.rows, run, {Status.Cancelling}) && HasStatus(Step(c, s, e).value.rows, run, {Cancelled})
    ensures e.Advance? && Stands(s, e.worker) && s.workers[e.worker].stage == Settling(true)
    ensures s.workers[e.worker].job.run == run
  {
    match e
    case Advance(_) | Raise(_) | PipelineReturns(_, _) | PipelineStops(_) | Report(_, _, _) =>
      if Stands(s, e.worker) && MoveOf(c, s, e).Some? {
        MoveCancels(c, s, e, run);
      }
    case Create(_, _, _) | CancelRun(_, _, _) | Continue(_) =>
    case _ =>
  }

  lemma MoveCancels(c: Config, s: State, e: Event, run: RunId)
    requires OfWorker(e) && Stands(s, e.worker) && MoveOf(c, s, e).Some?
    requires HasStatus(s.rows, run, {Status.Cancelling}) && HasStatus(MoveOf(c, s, e).value.rows, run, {Cancelled})
    ensures e.Advance? && s.workers[e.worker].stage == Settling(true) && s.workers[e.worker].job.run == run
  {
  }

  // Exit codes: 2 marks exactly technical_failure and cancelled carries 130.
  lemma ExitCodesAgree(c: Config, events: seq<Event>, run: RunId)
    requires Happens(c, events) && run in After(c, events).rows
    ensures var row := After(c, events).rows[run];
      && (row.exitCode == Some(2) <==> row.status.TechnicalFailure?)
      && (row.status.Cancelled? ==> row.exitCode == Some(130))
      && (row.exitCode.Some? <==> row.status.Cancelled? || row.status.Completed? || row.status.TechnicalFailure?)
  {
    Reached(c, events);
  }

  // --- every unfinished run has exactly one job ---

  // The places where a job of the run can be seen, read off the state itself.
  ghost predicate SeenAt(s: State, run: RunId, place: Place) {
    match place
    case InSubmit(k) => k in s.callers && s.callers[k] == Submitting(run)
    case InEnqueue(k) => k in s.callers && s.callers[k].Enqueueing? && s.callers[k].job.run == run
    case InRestore => s.boot.Restoring? && run in s.boot.jobs
    case InRestoreEnqueue => s.boot.Restoring? && s.boot.entering.Some? && s.boot.entering.value.run == run
    case InQueue => exists i :: QueuedAt(s, run, i)
    case AtWorker(w) => Stands(s, w) && s.workers[w].job.run == run
  }

  ghost predicate QueuedAt(s: State, run: RunId, i: int) {
    0 <= i < |s.sched.queue| && s.sched.queue[i].Some? && s.sched.queue[i].value.run == run
  }

  lemma SeenWhereRecorded(s: State, run: RunId, place: Place)
    requires Located(s) && SeenAt(s, run, place)
    ensures run in s.past.place && s.past.place[run] == place
  {
    match place
    case InSubmit(k) => assert CallerAt(s, k);
    case InEnqueue(k) => assert CallerAt(s, k);
    case InRestore =>
      var i :| 0 <= i < |s.boot.jobs| && s.boot.jobs[i] == run;
      assert RunAt(s, s.boot.jobs[i], InRestore);
    case InRestoreEnqueue =>
    case InQueue =>
      var i :| QueuedAt(s, run, i);
      assert JobAt(s, s.sched.queue[i].value, InQueue);
    case AtWorker(w) => assert JobAt(s, s.workers[w].job, AtWorker(w));
  }

  lemma RecordedIsSeen(s: State, run: RunId)
    requires Located(s) && run in s.past.place
    ensures SeenAt(s, run, s.past.place[run])
  {
    assert PlaceBacked(s, run);
    if s.past.place[run].InQueue? {
      var i :| 0 <= i < |s.sched.queue| && s.sched.queue[i] == Some(Job(run, s.sched.tokens[run]));
      assert QueuedAt(s, run, i);
    }
  }

  // At any moment no run has two jobs: not two queue entries, not a queue entry
  // and a worker, not two workers.
  lemma AtMostOneJob(c: Config, events: seq<Event>, run: RunId, p: Place, q: Place)
    requires Happens(c, events) && SeenAt(After(c, events), run, p) && SeenAt(After(c, events), run, q)
    ensures p == q
    ensures forall i, j :: QueuedAt(After(c, events), run, i) && QueuedAt(After(c, events), run, j) ==> i == j
  {
    var s := After(c, events);
    Reached(c, events);
    SeenWhereRecorded(s, run, p);
    SeenWhereRecorded(s, run, q);
    assert QueueAt(s);
  }

  // From the moment the constructor has listed the queued runs, and while the
  // scheduler accepts, every unfinished run has a job (and no other).
  lemma UnfinishedRunHasJob(c: Config, events: seq<Event>, run: RunId) returns (place: Place)
    requires Happens(c, events) && After(c, events).sched.accepting
    requires After(c, events).boot.Restoring? || After(c, events).boot.Serving?
    requires run in After(c, events).rows && !Terminal(After(c, events).rows[run].status)
    ensures SeenAt(After(c, events), run, place)
    ensures !place.AtWorker? ==> After(c, events).rows[run].status.Queued?
  {
    var s := After(c, events);
    Reached(c, events);
    place := s.past.place[run];
    RecordedIsSeen(s, run);
  }

  // What a new process finds: exactly the unfinished runs are requeued, each
  // once, in the order they were created.
  lemma RestartRequeuesUnfinished(c: Config, events: seq<Event>, jobs: seq<RunId>)
    requires Happens(c, events + [List(jobs)]) && Happens(c, events)
    ensures var s := After(c, events + [List(jobs)]);
      && s.boot == Restoring(jobs, None)
      && (forall run :: run in jobs <==>
            run in s.rows && s.rows[run].status in {Queued, Running, Status.Cancelling})
      && (forall i, j :: 0 <= i < j < |jobs| ==>
            s.rows[jobs[i]].created < s.rows[jobs[j]].created
            || (s.rows[jobs[i]].created == s.rows[jobs[j]].created && jobs[i] < jobs[j]))
  {
    Extended(c, events, List(jobs));
    Reached(c, events);
    ListingIsUnfinished(c, After(c, events), jobs);
  }

  lemma ListingIsUnfinished(c: Config, s: State, jobs: seq<RunId>)
    requires Covered(s) && s.boot.Listing? && QueuedListing(s.rows, jobs)
    ensures forall run :: run in jobs <==> run in s.rows && !Terminal(s.rows[run].status)
    ensures forall i, j :: 0 <= i < j < |jobs| ==>
      s.rows[jobs[i]].created < s.rows[jobs[j]].created
      || (s.rows[jobs[i]].created == s.rows[jobs[j]].created && jobs[i] < jobs[j])
  {
    forall i | 0 <= i < |jobs|
      ensures jobs[i] in s.rows
    {
      assert jobs[i] in jobs;
    }
    forall i, j | 0 <= i < j < |jobs|
      ensures s.rows[jobs[i]].created < s.rows[jobs[j]].created
        || (s.rows[jobs[i]].created == s.rows[jobs[j]].created && jobs[i] < jobs[j])
    {
      assert ListedBefore(s.rows, jobs[i], jobs[j]);
    }
    forall run | run in s.rows && !Terminal(s.rows[run].status)
      ensures run in jobs
    {
      assert !InFlight(s.rows[run].status);
    }
  }

  // A worker leaves its run unfinished only when a closed scheduler set the token
  // of a run that was not cancelled in the store. RunStranding says exactly when.
  lemma LeftUnfinishedOnlyByClose(c: Config, events: seq<Event>, w: nat)
    requires Happens(c, events) && Stands(After(c, events), w) && After(c, events).workers[w].stage.Leaving?
    requires !HasStatus(After(c, events).rows, After(c, events).workers[w].job.run, {Cancelled, Completed, TechnicalFailure})
    ensures !After(c, events).sched.accepting
    ensures After(c, events).workers[w].job.token in After(c, events).sched.cancelled
  {
    Reached(c, events);
    assert StagedAt(After(c, events), w);
  }

  // --- the budget ---

  // The lease holders own `used` between them: it is their number of requests in
  // each dimension, within capacity, and returning one never meets the clamp.
  lemma BudgetConserved(c: Config, events: seq<Event>)
    requires Happens(c, events)
    ensures var s := After(c, events);
      && s.used == Total(Shares(c, s.workers), |s.workers|)
      && 0 <= s.used.sandboxes <= c.capacity.sandboxes && 0.0 <= s.used.cpu <= c.capacity.cpu
      && 0 <= s.used.memory <= c.capacity.memory
      && (forall w: nat :: Stands(s, w) && HoldsLease(s.workers[w]) ==> Clamp(Minus(s.used, c.request)) == Minus(s.used, c.request))
  {
    var s := After(c, events);
    Reached(c, events);
    TotalNonNegative(Shares(c, s.workers), |s.workers|);
    forall w: nat | Stands(s, w) && HoldsLease(s.workers[w])
      ensures Clamp(Minus(s.used, c.request)) == Minus(s.used, c.request)
    {
      ReleaseAccounts(c.capacity, s.used, Shares(c, s.workers), w);
    }
  }

  lemma BlockedByALease(c: Config, s: State, w: nat) returns (v: nat)
    requires Accounted(c, s) && Stands(s, w) && s.workers[w].stage.Waiting? && Turn(c, s, w).None?
    ensures Stands(s, v) && v != w && HoldsLease(s.workers[v])
  {
    if forall u :: 0 <= u < |s.workers| ==> !HoldsLease(s.workers[u]) {
      IdleShares(c, s.workers, |s.workers|);
      assert false;
    }
    v :| 0 <= v < |s.workers| && HoldsLease(s.workers[v]);
  }

  // A waiting worker with an admissible request and an unset token can only be
  // held up by another worker's lease.
  lemma WaitingMeansAnotherHolds(c: Config, events: seq<Event>, w: nat) returns (v: nat)
    requires Happens(c, events) && Stands(After(c, events), w) && After(c, events).workers[w].stage.Waiting?
    requires Turn(c, After(c, events), w).None?
    ensures Stands(After(c, events), v) && v != w && HoldsLease(After(c, events).workers[v])
  {
    Reached(c, events);
    v := BlockedByALease(c, After(c, events), w);
  }

  // --- the queue ---

  // Dequeue order is enqueue order.
  lemma QueueIsFifo(c: Config, events: seq<Event>)
    requires Happens(c, events)
    ensures After(c, events).past.left <= After(c, events).past.entered
    ensures After(c, events).past.entered[|After(c, events).past.left|..] == After(c, events).sched.queue
  {
    Reached(c, events);
  }

  // No token leaves the queue twice, so no accepted callback starts twice.
  lemma TokensLeaveOnce(c: Config, events: seq<Event>, i: nat, j: nat)
    requires Happens(c, events) && i < j < |After(c, events).past.left|
    requires After(c, events).past.left[i].Some? && After(c, events).past.left[j].Some?
    ensures After(c, events).past.left[i].value.token != After(c, events).past.left[j].value.token
  {
    var s := After(c, events);
    Reached(c, events);
    assert s.past.left <= s.past.entered;
    assert EnteredAt(s, s.past.left[i].value.token, i) && EnteredAt(s, s.past.left[j].value.token, j);
  }

  // Once the cancel loop of `close` is over, no callback starts any more, also
  // not for jobs that were put into the queue behind the poison pills.
  lemma NoCallbackAfterClose(c: Config, events: seq<Event>, w: nat)
    requires Happens(c, events) && (After(c, events).closer.Pilling? || After(c, events).closer.Shut?)
    requires Stands(After(c, events), w) && After(c, events).workers[w].stage.Taken?
    ensures Happens(c, events + [Advance(w)])
    ensures After(c, events + [Advance(w)]).workers[w].stage == Leaving
  {
    var s := After(c, events);
    Reached(c, events);
    Extended(c, events, Advance(w));
    assert JobAt(s, s.workers[w].job, AtWorker(w));
  }

  // A registered token belongs to a job that is being enqueued, queued or at a
  // worker, and every such job has its token registered.
  lemma TokensAreTheLiveJobs(c: Config, events: seq<Event>, run: RunId)
    requires Happens(c, events)
    ensures run in After(c, events).sched.tokens <==>
      exists place :: SeenAt(After(c, events), run, place) && !place.InSubmit? && !place.InRestore?
  {
    var s := After(c, events);
    Reached(c, events);
    if run in s.sched.tokens {
      RecordedIsSeen(s, run);
    } else {
      forall place | SeenAt(s, run, place)
        ensures place.InSubmit? || place.InRestore?
      {
        SeenWhereRecorded(s, run, place);
        if !place.InSubmit? && !place.InRestore? {
          TokenOfPlace(s, run);
        }
      }
    }
  }

  lemma TokenOfPlace(s: State, run: RunId)
    requires Located(s) && run in s.past.place && !s.past.place[run].InSubmit? && !s.past.place[run].InRestore?
    ensures run in s.sched.tokens
  {
    assert PlaceBacked(s, run);
    match s.past.place[run]
    case InEnqueue(k) => assert CallerAt(s, k);
    case AtWorker(w) => assert JobAt(s, s.workers[w].job, AtWorker(w));
    case _ =>
  }

  // --- where the source does not keep what it is for ---

  const ONE := Request(1, 1.0, 1)
  const SMALL := Config(1, ONE, ONE)

  // The history ends in this state.
  ghost predicate Leads(history: seq<Event>, s: State) {
    Run(SMALL, history) == Some(s)
  }

  lemma Goes(history: seq<Event>, s: State, e: Event, s': State)
    requires Leads(history, s) && Step(SMALL, s, e) == Some(s')
    ensures Leads(history + [e], s')
  {
    Extended(SMALL, history, e);
  }

  const A := Advance(0)

  lemma Turns(history: seq<Event>, s: State) returns (s': State)
    requires Leads(history, s) && Stands(s, 0) && Turn(SMALL, s, 0).Some?
    ensures s' == Apply(s, 0, Turn(SMALL, s, 0).value) && Leads(history + [A], s')
  {
    s' := Apply(s, 0, Turn(SMALL, s, 0).value);
    Goes(history, s, A, s');
  }

  const RUN_JOB := Job(7, 0)
  const BOOTED: seq<Event> := [] + [Restart] + [Recover] + [List([])] + [RestoreStep]
  const BOOTED_STATE := INITIAL.(workers := [Idle], boot := Serving)

  lemma BootedLeads()
    ensures Leads(BOOTED, BOOTED_STATE)
  {
    var s1 := INITIAL.(workers := [Idle], boot := Recovering);
    assert seq(1, i => Idle) == [Idle];
    Goes([], INITIAL, Restart, s1);
    var s2 := s1.(boot := Listing);
    assert WithRecovered(map[]) == map[];
    Goes([] + [Restart], s1, Recover, s2);
    var s3 := s2.(boot := Restoring([], None));
    assert Placed([]) == map[];
    Goes([] + [Restart] + [Recover], s2, List([]), s3);
    Goes([] + [Restart] + [Recover] + [List([])], s3, RestoreStep, BOOTED_STATE);
  }

  const SUBMITTED := BOOTED + [Create(0, 7, 0)] + [Continue(0)] + [Continue(0)]
  const SUBMITTED_STATE := State(
    map[7 := FreshRow(0)], Sched(true, map[7 := 0], [Some(RUN_JOB)], 1, {}), NOTHING,
    [Idle], map[], Open, Serving,
    History(multiset{}, {}, {}, [Some(RUN_JOB)], [], map[7 := InQueue]))

  lemma SubmittedLeads()
    ensures Leads(SUBMITTED, SUBMITTED_STATE)
  {
    BootedLeads();
    var s1 := CallerEvent(BOOTED_STATE, Create(0, 7, 0)).value;
    Goes(BOOTED, BOOTED_STATE, Create(0, 7, 0), s1);
    var s2 := CallerStep(s1, 0);
    Goes(BOOTED + [Create(0, 7, 0)], s1, Continue(0), s2);
    var s3 := CallerStep(s2, 0);
    Goes(BOOTED + [Create(0, 7, 0)] + [Continue(0)], s2, Continue(0), s3);
    assert s3.sched == SUBMITTED_STATE.sched && s3.callers == map[] && s3.past == SUBMITTED_STATE.past;
  }

  const GRANTED := SUBMITTED + [A] + [A] + [A] + [A]
  const GRANTED_STATE := State(
    map[7 := FreshRow(0)], Sched(true, map[7 := 0], [], 1, {}), ONE,
    [Busy(RUN_JOB, Stage.Granted)], map[], Open, Serving,
    History(multiset{}, {}, {}, [Some(RUN_JOB)], [Some(RUN_JOB)], map[7 := AtWorker(0)]))

  const TAKEN_STATE := GRANTED_STATE.(used := NOTHING, workers := [Busy(RUN_JOB, Taken)])

  lemma TakenLeads()
    ensures Leads(SUBMITTED + [A], TAKEN_STATE)
  {
    SubmittedLeads();
    var s1 := Dequeue(SUBMITTED_STATE, 0);
    Goes(SUBMITTED, SUBMITTED_STATE, A, s1);
    assert s1.sched == TAKEN_STATE.sched && s1.past == TAKEN_STATE.past && s1.workers == TAKEN_STATE.workers;
  }

  lemma GrantedLeads()
    ensures Leads(GRANTED, GRANTED_STATE)
  {
    TakenLeads();
    var s2 := Turns(SUBMITTED + [A], TAKEN_STATE);
    var s3 := Turns(SUBMITTED + [A] + [A], s2);
    var s4 := Turns(SUBMITTED + [A] + [A] + [A], s3);
    assert s4.sched == GRANTED_STATE.sched && s4.past == GRANTED_STATE.past && s4.workers == GRANTED_STATE.workers;
  }

  const PIPING := GRANTED + [A] + [A] + [A]
  const PIPING_STATE := GRANTED_STATE.(
    rows := map[7 := FreshRow(0).(status := Running)], workers := [Busy(RUN_JOB, Piping)],
    past := GRANTED_STATE.past.(starts := multiset{7}))

  lemma PipingLeads()
    ensures Leads(PIPING, PIPING_STATE)
  {
    GrantedLeads();
    var s1 := Turns(GRANTED, GRANTED_STATE);
    var s2 := Turns(GRANTED + [A], s1);
    var s3 := Turns(GRANTED + [A] + [A], s2);
    assert s3.rows == PIPING_STATE.rows && s3.past.starts == multiset{7} && s3.workers == PIPING_STATE.workers;
  }

  const STOPPED := PIPING + [Close([0])] + [CloserStep] + [PipelineStops(0)]
  const STOPPED_STATE := PIPING_STATE.(
    sched := Sched(false, map[7 := 0], [], 1, {0}), closer := Firing([]),
    workers := [Busy(RUN_JOB, Finishing(true, true))])

  lemma StoppedLeads()
    ensures Leads(STOPPED, STOPPED_STATE)
  {
    PipingLeads();
    assert 0 in PIPING_STATE.sched.tokens.Values by { assert PIPING_STATE.sched.tokens[7] == 0; }
    assert (set t | t in [0]) == PIPING_STATE.sched.tokens.Values;
    var s1 := PIPING_STATE.(sched := StopAccepting(PIPING_STATE.sched), closer := Firing([0]));
    Goes(PIPING, PIPING_STATE, Close([0]), s1);
    var s2 := s1.(sched := Fire(s1.sched, 0), closer := Firing([]));
    var rest: seq<TokenId> := [0];
    assert rest[1..] == [];
    Goes(PIPING + [Close([0])], s1, CloserStep, s2);
    assert s2.sched.cancelled == {0} && Apply(s2, 0, To(s2, Finishing(true, true))).workers == STOPPED_STATE.workers;
    Goes(PIPING + [Close([0])] + [CloserStep], s2, PipelineStops(0), STOPPED_STATE);
  }

  // One worker: a run is created and started, the scheduler closes, its token is
  // set without a cancel request, the pipeline stops, and the worker goes idle.
  const CLOSE_RACE: seq<Event> := STOPPED + [A] + [A] + [A] + [A]
  const LEAVING_STATE := STOPPED_STATE.(used := NOTHING, workers := [Busy(RUN_JOB, Leaving)])
  const STRANDED_STATE := LEAVING_STATE.(
    sched := Sched(false, map[], [], 1, {0}), workers := [Idle],
    past := LEAVING_STATE.past.(stranded := {7}, place := map[]))

  lemma LeavingLeads()
    ensures Leads(STOPPED + [A] + [A] + [A], LEAVING_STATE)
  {
    StoppedLeads();
    var s1 := Turns(STOPPED, STOPPED_STATE);
    var s2 := Turns(STOPPED + [A], s1);
    var s3 := Turns(STOPPED + [A] + [A], s2);
    assert s3.workers == LEAVING_STATE.workers && s3.used == NOTHING;
  }

  lemma StrandedLeads()
    ensures Leads(CLOSE_RACE, STRANDED_STATE)
  {
    LeavingLeads();
    var s1 := Leave(LEAVING_STATE, 0);
    assert s1.sched.tokens == map[] && s1.past.place == map[] && s1.workers == [Idle];
    assert s1 == STRANDED_STATE;
    Goes(STOPPED + [A] + [A] + [A], LEAVING_STATE, A, STRANDED_STATE);
  }

  // The row stays `running`, with no worker, no lease and no job for it.
  lemma CloseCanStrandARunningRun()
    ensures Happens(SMALL, CLOSE_RACE) && After(SMALL, CLOSE_RACE) == STRANDED_STATE
    ensures HasStatus(STRANDED_STATE.rows, 7, {Running}) && STRANDED_STATE.used == NOTHING
    ensures forall place :: !SeenAt(STRANDED_STATE, 7, place)
  {
    StrandedLeads();
    assert forall w: nat :: !Stands(STRANDED_STATE, w);
  }
}
