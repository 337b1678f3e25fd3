/** How a process of the API begins and ends: taking up the queued runs, and closing. */
module RunBoots {
  import opened Wrappers
  import opened RunStore
  import opened Resources
  import opened Scheduler
  import opened RunProtocol
  import opened RunInvariant
  import opened RunTheorems
  import opened RunProgress

  // --- a new process ---

  function Steps(n: nat, e: Event): seq<Event> {
    seq(n, i => e)
  }

  lemma OneMoreStep(n: nat, e: Event)
    ensures Steps(n + 1, e) == Steps(n, e) + [e]
  {
  }

  function Recovered(rows: Rows): Rows {
    map run | run in rows ::
      if rows[run].status == Running || rows[run].status == Status.Cancelling then FailedWith2(rows[run]) else rows[run]
  }

  // The first n of the listed jobs are in the queue, in order, under new tokens.
  function Requeued(s: State, jobs: seq<RunId>, n: nat): State
    requires n <= |jobs|
  {
    if n == 0 then s.(boot := Restoring(jobs, None), past := s.past.(place := map run | run in jobs :: InRestore))
    else Enqueued(Requeued(s, jobs, n - 1), jobs[n - 1]).(boot := Restoring(jobs[n..], None))
  }

  lemma {:induction false} RequeuedTokens(s: State, jobs: seq<RunId>, n: nat)
    requires n <= |jobs| && s.sched == STARTED
    ensures var t := Requeued(s, jobs, n);
      && t.sched.accepting && t.sched.issued == n && t.sched.cancelled == {}
      && t.sched.tokens.Keys == (set i | 0 <= i < n :: jobs[i])
      && t.sched.queue == seq(n, i requires 0 <= i < n => Some(Job(jobs[i], i)))
      && t.rows == s.rows && t.boot == Restoring(jobs[n..], None) && t.workers == s.workers
  {
    if n > 0 {
      RequeuedTokens(s, jobs, n - 1);
    }
  }

  lemma RequeueOne(c: Config, events: seq<Event>, s: State, run: RunId)
    requires LeadsTo(c, events, s) && s.boot.Restoring? && s.boot.entering.None? && s.boot.jobs != []
    requires s.boot.jobs[0] == run && s.sched.accepting && run !in s.sched.tokens
    ensures LeadsTo(c, events + [RestoreStep] + [RestoreStep],
                    Enqueued(s, run).(boot := Restoring(s.boot.jobs[1..], None)))
  {
    var job := Job(run, s.sched.issued);
    var mid := s.(sched := s.sched.(tokens := s.sched.tokens[run := job.token], issued := s.sched.issued + 1),
                  boot := Restoring(s.boot.jobs[1..], Some(job)),
                  past := s.past.(place := s.past.place[run := InRestoreEnqueue]));
    Then(c, events, s, RestoreStep, mid);
    assert mid.past.place[run := InQueue] == s.past.place[run := InQueue];
    Then(c, events + [RestoreStep], mid, RestoreStep, Enqueued(s, run).(boot := Restoring(s.boot.jobs[1..], None)));
  }

  lemma RequeueNext(c: Config, events: seq<Event>, s: State, jobs: seq<RunId>, n: nat)
    requires n < |jobs| && s.sched == STARTED && LeadsTo(c, events, Requeued(s, jobs, n))
    requires forall i, j :: 0 <= i < j < |jobs| ==> jobs[i] != jobs[j]
    ensures LeadsTo(c, events + [RestoreStep] + [RestoreStep], Requeued(s, jobs, n + 1))
  {
    RequeuedTokens(s, jobs, n);
    RequeueOne(c, events, Requeued(s, jobs, n), jobs[n]);
    assert jobs[n..][1..] == jobs[n + 1..];
  }

  ghost predicate RequeuedAfter(c: Config, events: seq<Event>, s: State, jobs: seq<RunId>, n: nat) {
    n <= |jobs| && LeadsTo(c, events + Steps(2 * n, RestoreStep), Requeued(s, jobs, n))
  }

  lemma OneMoreRequeued(c: Config, events: seq<Event>, s: State, jobs: seq<RunId>, n: nat)
    requires n < |jobs| && s.sched == STARTED && RequeuedAfter(c, events, s, jobs, n)
    requires forall i, j :: 0 <= i < j < |jobs| ==> jobs[i] != jobs[j]
    ensures RequeuedAfter(c, events, s, jobs, n + 1)
  {
    RequeueNext(c, events + Steps(2 * n, RestoreStep), s, jobs, n);
    TwoMoreSteps(events, 2 * n, RestoreStep);
  }

  lemma {:induction false} RequeueSteps(c: Config, events: seq<Event>, s: State, jobs: seq<RunId>, n: nat)
    requires n <= |jobs| && s.sched == STARTED && RequeuedAfter(c, events, s, jobs, 0)
    requires forall i, j :: 0 <= i < j < |jobs| ==> jobs[i] != jobs[j]
    ensures RequeuedAfter(c, events, s, jobs, n)
  {
    if n > 0 {
      RequeueSteps(c, events, s, jobs, n - 1);
      OneMoreRequeued(c, events, s, jobs, n - 1);
    }
  }

  lemma TwoMoreSteps(events: seq<Event>, n: nat, e: Event)
    ensures events + Steps(n, e) + [e] + [e] == events + Steps(n + 2, e)
  {
  }

  lemma ProcessLists(c: Config, events: seq<Event>, s: State, jobs: seq<RunId>)
    requires LeadsTo(c, events, s) && s.boot == Off && QueuedListing(Recovered(s.rows), jobs)
    ensures var t := s.(workers := seq(c.workers, i => Idle), rows := Recovered(s.rows), boot := Listing);
      LeadsTo(c, events + [Restart] + [Recover] + [List(jobs)], Requeued(t, jobs, 0))
  {
    var s1 := s.(workers := seq(c.workers, i => Idle), boot := Recovering);
    Then(c, events, s, Restart, s1);
    var s2 := s1.(rows := Recovered(s.rows), boot := Listing);
    assert WithRecovered(s.rows) == Recovered(s.rows);
    Then(c, events + [Restart], s1, Recover, s2);
    assert jobs[0..] == jobs && Placed(jobs) == map run | run in jobs :: InRestore;
    Then(c, events + [Restart] + [Recover], s2, List(jobs), Requeued(s2, jobs, 0));
  }

  lemma OffHasNothing(c: Config, events: seq<Event>)
    requires Happens(c, events) && After(c, events).boot == Off
    ensures After(c, events).sched == STARTED && After(c, events).used == NOTHING
  {
    Reached(c, events);
  }

  // A new process fails the runs that were active, and queues those that were
  // queued, in order of creation, before it serves.
  lemma NewProcessTakesUp(c: Config, events: seq<Event>, jobs: seq<RunId>)
    requires Happens(c, events) && After(c, events).boot == Off
    requires QueuedListing(Recovered(After(c, events).rows), jobs)
    ensures var s := After(c, events);
      var all := events + [Restart] + [Recover] + [List(jobs)] + Steps(2 * |jobs|, RestoreStep) + [RestoreStep];
      && Happens(c, all) && After(c, all).boot == Serving && After(c, all).rows == Recovered(s.rows)
      && After(c, all).sched.accepting && After(c, all).sched.cancelled == {}
      && After(c, all).sched.queue == seq(|jobs|, i requires 0 <= i < |jobs| => Some(Job(jobs[i], i)))
      && After(c, all).workers == seq(c.workers, i => Idle) && After(c, all).used == NOTHING
  {
    var s := After(c, events);
    var t := s.(workers := seq(c.workers, i => Idle), rows := Recovered(s.rows), boot := Listing);
    OffHasNothing(c, events);
    ProcessLists(c, events, s, jobs);
    ListingDistinct(Recovered(s.rows), jobs);
    ListedJobsAreQueued(c, events + [Restart] + [Recover] + [List(jobs)], t, jobs);
    RequeuedTokens(t, jobs, |jobs|);
    RequeuedKeepsUsed(t, jobs, |jobs|);
  }

  lemma ListedJobsAreQueued(c: Config, events: seq<Event>, s: State, jobs: seq<RunId>)
    requires s.sched == STARTED && LeadsTo(c, events, Requeued(s, jobs, 0))
    requires forall i, j :: 0 <= i < j < |jobs| ==> jobs[i] != jobs[j]
    ensures LeadsTo(c, events + Steps(2 * |jobs|, RestoreStep) + [RestoreStep],
                    Requeued(s, jobs, |jobs|).(boot := Serving))
  {
    var t := Requeued(s, jobs, |jobs|);
    assert events + Steps(0, RestoreStep) == events;
    RequeueSteps(c, events, s, jobs, |jobs|);
    RequeuedTokens(s, jobs, |jobs|);
    Then(c, events + Steps(2 * |jobs|, RestoreStep), t, RestoreStep, t.(boot := Serving));
  }

  lemma {:induction false} RequeuedKeepsUsed(s: State, jobs: seq<RunId>, n: nat)
    requires n <= |jobs|
    ensures Requeued(s, jobs, n).used == s.used
  {
    if n > 0 {
      RequeuedKeepsUsed(s, jobs, n - 1);
    }
  }

  // A listed run whose target is gone fails instead.
  lemma SkippedRestoreFails(c: Config, events: seq<Event>)
    requires Happens(c, events) && After(c, events).boot.Restoring? && After(c, events).boot.entering.None?
    requires After(c, events).boot.jobs != []
    ensures var s := After(c, events);
      var run := s.boot.jobs[0];
      && run in s.rows && s.rows[run].status == Queued ==>
           LeadsTo(c, events + [SkipRestore],
                   s.(rows := s.rows[run := FailedWith2(s.rows[run])], boot := Restoring(s.boot.jobs[1..], None),
                      past := s.past.(place := s.past.place - {run})))
  {
    var s := After(c, events);
    var run := s.boot.jobs[0];
    if run in s.rows && s.rows[run].status == Queued {
      Then(c, events, s, SkipRestore,
           s.(rows := s.rows[run := FailedWith2(s.rows[run])], boot := Restoring(s.boot.jobs[1..], None),
              past := s.past.(place := s.past.place - {run})));
    }
  }

  // --- closing, with nobody in between ---

  lemma {:induction false} FireSteps(c: Config, events: seq<Event>, s: State, rest: seq<TokenId>)
    requires LeadsTo(c, events, s) && s.closer == Firing(rest)
    ensures LeadsTo(c, events + Steps(|rest|, CloserStep),
                    s.(sched := s.sched.(cancelled := s.sched.cancelled + (set t | t in rest)), closer := Firing([])))
    decreases |rest|
  {
    if rest == [] {
      assert events + Steps(0, CloserStep) == events;
      assert s.sched.cancelled + (set t | t in rest) == s.sched.cancelled;
    } else {
      var t := s.(sched := s.sched.(cancelled := s.sched.cancelled + {rest[0]}), closer := Firing(rest[1..]));
      Then(c, events, s, CloserStep, t);
      FireSteps(c, events + [CloserStep], t, rest[1..]);
      assert events + [CloserStep] + Steps(|rest| - 1, CloserStep) == events + Steps(|rest|, CloserStep);
      assert rest == [rest[0]] + rest[1..];
      assert t.sched.cancelled + (set x | x in rest[1..]) == s.sched.cancelled + (set x | x in rest);
    }
  }

  lemma {:induction false} PillSteps(c: Config, events: seq<Event>, s: State, n: nat)
    requires LeadsTo(c, events, s) && s.closer == Pilling(n)
    ensures LeadsTo(c, events + Steps(n, CloserStep),
                    s.(sched := s.sched.(queue := s.sched.queue + Pills(n)), closer := Pilling(0),
                       past := s.past.(entered := s.past.entered + Pills(n))))
    decreases n
  {
    if n == 0 {
      assert events + Steps(0, CloserStep) == events;
      assert s.sched.queue + Pills(0) == s.sched.queue && s.past.entered + Pills(0) == s.past.entered;
    } else {
      var t := s.(sched := s.sched.(queue := s.sched.queue + [None]), closer := Pilling(n - 1),
                  past := s.past.(entered := s.past.entered + [None]));
      Then(c, events, s, CloserStep, t);
      PillSteps(c, events + [CloserStep], t, n - 1);
      assert events + [CloserStep] + Steps(n - 1, CloserStep) == events + Steps(n, CloserStep);
      assert [None] + Pills<Job>(n - 1) == Pills(n);
      assert s.sched.queue + [None] + Pills(n - 1) == s.sched.queue + Pills(n);
      assert s.past.entered + [None] + Pills(n - 1) == s.past.entered + Pills(n);
    }
  }

  // The steps of a close add up to stopping, setting every registered token and
  // a pill per worker.
  lemma CloseShutsDown(c: Config, events: seq<Event>, tokens: seq<TokenId>)
    requires Happens(c, events) && After(c, events).boot.Serving? && After(c, events).sched.accepting
    requires forall t :: t in tokens <==> t in After(c, events).sched.tokens.Values
    ensures var s := After(c, events);
      var all := events + [Close(tokens)] + Steps(|tokens|, CloserStep) + [CloserStep] + Steps(c.workers, CloserStep)
                 + [CloserStep];
      Happens(c, all) && After(c, all).closer == Shut && After(c, all).sched == ShutDown(s.sched, c.workers)
  {
    var s := After(c, events);
    assert (set t | t in tokens) == s.sched.tokens.Values;
    var s1 := s.(sched := s.sched.(accepting := false), closer := Firing(tokens));
    Then(c, events, s, Close(tokens), s1);
    FireSteps(c, events + [Close(tokens)], s1, tokens);
    var fired := events + [Close(tokens)] + Steps(|tokens|, CloserStep);
    var s2 := s1.(sched := s1.sched.(cancelled := s1.sched.cancelled + (set t | t in tokens)), closer := Firing([]));
    Then(c, fired, s2, CloserStep, s2.(closer := Pilling(c.workers)));
    PillSteps(c, fired + [CloserStep], s2.(closer := Pilling(c.workers)), c.workers);
    var s3 := s2.(sched := s2.sched.(queue := s2.sched.queue + Pills(c.workers)), closer := Pilling(0),
                  past := s2.past.(entered := s2.past.entered + Pills(c.workers)));
    Then(c, fired + [CloserStep] + Steps(c.workers, CloserStep), s3, CloserStep, s3.(closer := Shut));
  }

  // --- the end of a process ---

  // A running process can end at any moment. Its rows are all that is left, and the
  // next one starts from them.
  lemma CrashKeepsTheRows(c: Config, events: seq<Event>)
    requires Happens(c, events)
    ensures Happens(c, events + [Crash]) <==> After(c, events).boot != Off
    ensures After(c, events).boot != Off ==>
      var s, t := After(c, events), After(c, events + [Crash]);
      && t.rows == s.rows && t.past.starts == s.past.starts && t.past.droppedInQueue == s.past.droppedInQueue
      && t.boot == Off && t.workers == [] && t.callers == map[] && t.used == NOTHING
      && t.sched == Sched(true, map[], [], 0, {}) && t.closer == Open && t.past.place == map[] && t.past.stranded == {}
  {
    Extended(c, events, Crash);
  }

  // --- what cannot happen ---

  // A scheduler is closed once, and an idle worker does nothing but take the head of
  // the queue.
  lemma NothingElseHappens(c: Config, events: seq<Event>, e: Event)
    requires Happens(c, events)
    ensures e.Close? && !After(c, events).sched.accepting ==> !Happens(c, events + [e])
    ensures var s := After(c, events);
      (OfWorker(e) && e.worker < |s.workers| && s.workers[e.worker] == Idle && !(e.Advance? && s.sched.queue != [])) ==>
        !Happens(c, events + [e])
  {
    Extended(c, events, e);
  }
}
