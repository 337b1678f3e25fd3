/**
  What the run protocol does when nothing gets in its way: jobs run to their end,
  cancellations arrive, and a new process takes up the queued runs.
 */
module RunProgress {
  import opened Wrappers
  import opened RunStore
  import opened Resources
  import opened Scheduler
  import opened RunProtocol
  import opened RunInvariant
  import opened RunLocated
  import opened RunKept
  import RunRows
  import opened RunSafety
  import opened RunTheorems

  // The history ends in this state.
  ghost predicate LeadsTo(c: Config, events: seq<Event>, s: State) {
    Happens(c, events) && After(c, events) == s
  }

  lemma Then(c: Config, events: seq<Event>, s: State, e: Event, t: State)
    requires LeadsTo(c, events, s) && Step(c, s, e) == Some(t)
    ensures LeadsTo(c, events + [e], t)
  {
    Extended(c, events, e);
  }

  // The same state with the worker at another stage of its job.
  function At(s: State, w: nat, stage: Stage): State
    requires Stands(s, w)
  {
    s.(workers := s.workers[w := Busy(s.workers[w].job, stage)])
  }

  lemma AtAgain(s: State, w: nat, a: Stage, b: Stage)
    requires Stands(s, w)
    ensures Stands(At(s, w, a), w) && At(At(s, w, a), w, b) == At(s, w, b)
  {
    assert At(s, w, a).workers[w := Busy(s.workers[w].job, b)] == s.workers[w := Busy(s.workers[w].job, b)];
  }

  // One step of the worker to another stage; rows, budget and starts as given.
  lemma Moves(c: Config, events: seq<Event>, s: State, w: nat, from: Stage, e: Event, m: Move)
    requires Stands(s, w) && LeadsTo(c, events, At(s, w, from)) && OfWorker(e) && e.worker == w
    requires !from.Leaving? && MoveOf(c, At(s, w, from), e) == Some(m) && !m.starts
    ensures LeadsTo(c, events + [e], At(s.(rows := m.rows, used := m.used), w, m.stage))
  {
    AtAgain(s, w, from, m.stage);
    var t := At(s.(rows := m.rows, used := m.used), w, m.stage);
    assert Apply(At(s, w, from), w, m).workers == t.workers;
    Then(c, events, At(s, w, from), e, t);
  }

  // --- a job that nothing disturbs ---

  // The worker has just dequeued a queued run, nobody has cancelled it, and there
  // is room for its request in all three dimensions.
  predicate ReadyToRun(c: Config, s: State, w: nat) {
    && Stands(s, w) && s.workers[w].stage == Taken
    && s.workers[w].job.token !in s.sched.cancelled
    && s.workers[w].job.run in s.rows && s.rows[s.workers[w].job.run].status == Queued
    && 0 <= c.request.sandboxes && 0.0 <= c.request.cpu && 0 <= c.request.memory
    && 0 <= s.used.sandboxes <= c.capacity.sandboxes - c.request.sandboxes
    && 0.0 <= s.used.cpu <= c.capacity.cpu - c.request.cpu
    && 0 <= s.used.memory <= c.capacity.memory - c.request.memory
  }

  function Drawn(c: Config, s: State): Request {
    Request(s.used.sandboxes + c.request.sandboxes, s.used.cpu + c.request.cpu, s.used.memory + c.request.memory)
  }

  function Returned(c: Config, s: State): Request {
    Request(s.used.sandboxes - c.request.sandboxes, s.used.cpu - c.request.cpu, s.used.memory - c.request.memory)
  }

  function Started(c: Config, s: State, w: nat): State
    requires ReadyToRun(c, s, w)
  {
    var run := s.workers[w].job.run;
    At(s.(rows := s.rows[run := s.rows[run].(status := Running, failed := false)], used := Drawn(c, s),
          past := s.past.(starts := s.past.starts + multiset{run})), w, Piping)
  }

  // Six steps lead from the queue into the pipeline: the row is running, the
  // request is drawn, and the pipeline has been started once more.
  lemma UndisturbedJobStarts(c: Config, events: seq<Event>, w: nat)
    requires Happens(c, events) && ReadyToRun(c, After(c, events), w)
    ensures var a := Advance(w);
      LeadsTo(c, events + [a] + [a] + [a] + [a] + [a] + [a], Started(c, After(c, events), w))
  {
    var s, a := After(c, events), Advance(w);
    var run := s.workers[w].job.run;
    assert At(s, w, Taken).workers == s.workers;
    Moves(c, events, s, w, Taken, a, Move(Entering, s.rows, s.used, false));
    Moves(c, events + [a], s, w, Entering, a, Move(Waiting, s.rows, s.used, false));
    Moves(c, events + [a] + [a], s, w, Waiting, a, Move(Stage.Granted, s.rows, Drawn(c, s), false));
    var drawn := s.(used := Drawn(c, s));
    Moves(c, events + [a] + [a] + [a], drawn, w, Stage.Granted, a, Move(Admitted, s.rows, drawn.used, false));
    var rows := s.rows[run := s.rows[run].(status := Running, failed := false)];
    Moves(c, events + [a] + [a] + [a] + [a], drawn, w, Admitted, a, Move(Starting, rows, drawn.used, false));
    PipelineBegins(c, events + [a] + [a] + [a] + [a] + [a], drawn.(rows := rows), w);
  }

  lemma PipelineBegins(c: Config, events: seq<Event>, s: State, w: nat)
    requires Stands(s, w) && LeadsTo(c, events, At(s, w, Starting))
    ensures LeadsTo(c, events + [Advance(w)],
      At(s.(past := s.past.(starts := s.past.starts + multiset{s.workers[w].job.run})), w, Piping))
  {
    var t := At(s.(past := s.past.(starts := s.past.starts + multiset{s.workers[w].job.run})), w, Piping);
    AtAgain(s, w, Starting, Piping);
    assert Apply(At(s, w, Starting), w, Move(Piping, s.rows, s.used, true)).workers == t.workers;
    Then(c, events, At(s, w, Starting), Advance(w), t);
  }

  // The run is over for the worker: its job, token and place are gone.
  function Free(s: State, w: nat): State
    requires Stands(s, w)
  {
    var run := s.workers[w].job.run;
    s.(workers := s.workers[w := Idle], sched := s.sched.(tokens := s.sched.tokens - {run}),
       past := s.past.(place := s.past.place - {run}))
  }

  // What `mark_cancelled` makes of the run's row.
  function Settled(s: State, run: RunId): Rows
    requires run in s.rows
  {
    if s.rows[run].status == Status.Cancelling
    then s.rows[run := s.rows[run].(status := Cancelled, exitCode := Some(130), gate := None)] else s.rows
  }

  predicate Holdable(c: Config, s: State) {
    && 0 <= s.used.sandboxes - c.request.sandboxes && 0.0 <= s.used.cpu - c.request.cpu
    && 0 <= s.used.memory - c.request.memory
  }

  // The same, with the run left over if its row is not.
  function Freed(s: State, w: nat): State
    requires Stands(s, w) && s.workers[w].job.run in s.rows
  {
    var run := s.workers[w].job.run;
    if s.rows[run].status in {Cancelled, Completed, TechnicalFailure} then Free(s, w)
    else Free(s.(past := s.past.(stranded := s.past.stranded + {run})), w)
  }

  lemma WorkerLeaves(c: Config, events: seq<Event>, s: State, w: nat)
    requires Stands(s, w) && LeadsTo(c, events, At(s, w, Leaving)) && s.workers[w].job.run in s.rows
    ensures LeadsTo(c, events + [Advance(w)], Freed(s, w))
  {
    AtAgain(s, w, Leaving, Leaving);
    assert Leave(At(s, w, Leaving), w).workers == Freed(s, w).workers;
    Then(c, events, At(s, w, Leaving), Advance(w), Freed(s, w));
  }

  // The lease goes back if there is one, then `mark_cancelled` runs if the run was
  // cancelled, and the worker is free again.
  lemma HeldJobWindsUp(c: Config, events: seq<Event>, s: State, w: nat, stop: bool)
    requires Stands(s, w) && LeadsTo(c, events, At(s, w, Finishing(true, stop))) && Holdable(c, s)
    requires s.workers[w].job.run in s.rows && (!stop ==> s.rows[s.workers[w].job.run].status != Status.Cancelling)
    ensures var a := Advance(w);
      LeadsTo(c, events + [a] + [a] + [a] + [a],
              Freed(s.(rows := Settled(s, s.workers[w].job.run), used := Returned(c, s)), w))
  {
    var a, run := Advance(w), s.workers[w].job.run;
    Moves(c, events, s, w, Finishing(true, stop), a, Move(Flagged(stop), s.rows, s.used, false));
    Moves(c, events + [a], s, w, Flagged(stop), a, Move(Settling(stop), s.rows, Returned(c, s), false));
    SettledLeaves(c, events + [a] + [a], s.(used := Returned(c, s)), w, stop);
  }

  lemma SettledLeaves(c: Config, events: seq<Event>, s: State, w: nat, stop: bool)
    requires Stands(s, w) && LeadsTo(c, events, At(s, w, Settling(stop)))
    requires s.workers[w].job.run in s.rows && (!stop ==> s.rows[s.workers[w].job.run].status != Status.Cancelling)
    ensures LeadsTo(c, events + [Advance(w)] + [Advance(w)], Freed(s.(rows := Settled(s, s.workers[w].job.run)), w))
  {
    var rows := Settled(s, s.workers[w].job.run);
    Moves(c, events, s, w, Settling(stop), Advance(w), Move(Leaving, rows, s.used, false));
    WorkerLeaves(c, events + [Advance(w)], s.(rows := rows), w);
  }

  lemma UnheldJobWindsUp(c: Config, events: seq<Event>, s: State, w: nat, stop: bool)
    requires Stands(s, w) && LeadsTo(c, events, At(s, w, Finishing(false, stop)))
    requires s.workers[w].job.run in s.rows && (!stop ==> s.rows[s.workers[w].job.run].status != Status.Cancelling)
    ensures var a := Advance(w);
      LeadsTo(c, events + [a] + [a] + [a], Freed(s.(rows := Settled(s, s.workers[w].job.run)), w))
  {
    Moves(c, events, s, w, Finishing(false, stop), Advance(w), Move(Settling(stop), s.rows, s.used, false));
    SettledLeaves(c, events + [Advance(w)], s, w, stop);
  }

  predicate InPipeline(c: Config, s: State, w: nat, status: Status) {
    && Stands(s, w) && s.workers[w].stage == Piping
    && s.workers[w].job.run in s.rows && s.rows[s.workers[w].job.run].status == status && Holdable(c, s)
  }

  // What the report of an undisturbed pipeline makes of its row.
  function Reported(row: Row, exit: int, gate: Option<string>, failed: bool): Row {
    Row(if exit == 2 then TechnicalFailure else Completed, Some(exit), gate, row.reason, failed, row.created)
  }

  // A pipeline that returns while nobody has cancelled it ends its run with the
  // code, gate and error it reports, gives the request back and frees the worker.
  lemma UndisturbedJobFinishes(c: Config, events: seq<Event>, s: State, w: nat,
                               exit: int, gate: Option<string>, failed: bool)
    requires LeadsTo(c, events, s) && InPipeline(c, s, w, Running) && s.workers[w].job.token !in s.sched.cancelled
    ensures var a, run := Advance(w), s.workers[w].job.run;
      LeadsTo(c, events + [PipelineReturns(w, exit)] + [a] + [Report(w, gate, failed)] + [a] + [a] + [a] + [a],
              Free(s.(rows := s.rows[run := Reported(s.rows[run], exit, gate, failed)], used := Returned(c, s)), w))
  {
    var a, returning, run := Advance(w), PipelineReturns(w, exit), s.workers[w].job.run;
    assert At(s, w, Piping).workers == s.workers;
    Moves(c, events, s, w, Piping, returning, Move(Stage.Returned(exit), s.rows, s.used, false));
    Moves(c, events + [returning], s, w, Stage.Returned(exit), a, Move(Reporting(exit), s.rows, s.used, false));
    ReportEnds(c, events + [returning] + [a], s, w, exit, gate, failed);
  }

  lemma ReportEnds(c: Config, events: seq<Event>, s: State, w: nat, exit: int, gate: Option<string>, failed: bool)
    requires Stands(s, w) && LeadsTo(c, events, At(s, w, Reporting(exit))) && Holdable(c, s)
    requires s.workers[w].job.run in s.rows && s.rows[s.workers[w].job.run].status == Running
    ensures var a, run := Advance(w), s.workers[w].job.run;
      LeadsTo(c, events + [Report(w, gate, failed)] + [a] + [a] + [a] + [a],
              Free(s.(rows := s.rows[run := Reported(s.rows[run], exit, gate, failed)], used := Returned(c, s)), w))
  {
    var run, report := s.workers[w].job.run, Report(w, gate, failed);
    var rows := s.rows[run := Reported(s.rows[run], exit, gate, failed)];
    Moves(c, events, s, w, Reporting(exit), report, Move(Finishing(true, false), rows, s.used, false));
    HeldJobWindsUp(c, events + [report], s.(rows := rows), w, false);
  }

  // A pipeline stopped by its token after a cancel request leaves a cancelled run,
  // and the request goes back as well.
  lemma CancelledJobSettles(c: Config, events: seq<Event>, w: nat)
    requires Happens(c, events) && InPipeline(c, After(c, events), w, Status.Cancelling)
    requires After(c, events).workers[w].job.token in After(c, events).sched.cancelled
    ensures var s, a := After(c, events), Advance(w);
      var run := s.workers[w].job.run;
      var row := s.rows[run].(status := Cancelled, exitCode := Some(130), gate := None);
      LeadsTo(c, events + [PipelineStops(w)] + [a] + [a] + [a] + [a],
              Free(s.(rows := s.rows[run := row], used := Returned(c, s)), w))
  {
    var s := After(c, events);
    assert At(s, w, Piping).workers == s.workers;
    Moves(c, events, s, w, Piping, PipelineStops(w), Move(Finishing(true, true), s.rows, s.used, false));
    HeldJobWindsUp(c, events + [PipelineStops(w)], s, w, true);
  }

  // So does a pipeline that returned before it noticed: the token is looked at
  // again, and without it the report finds the row cancelling.
  lemma LateCancelSettles(c: Config, events: seq<Event>, w: nat, exit: int, gate: Option<string>, failed: bool)
    requires Happens(c, events) && InPipeline(c, After(c, events), w, Status.Cancelling)
    ensures var s, a := After(c, events), Advance(w);
      var run := s.workers[w].job.run;
      var row := s.rows[run].(status := Cancelled, exitCode := Some(130), gate := None);
      var over := Free(s.(rows := s.rows[run := row], used := Returned(c, s)), w);
      if s.workers[w].job.token in s.sched.cancelled
      then LeadsTo(c, events + [PipelineReturns(w, exit)] + [a] + [a] + [a] + [a] + [a], over)
      else LeadsTo(c, events + [PipelineReturns(w, exit)] + [a] + [Report(w, gate, failed)] + [a] + [a] + [a] + [a] + [a], over)
  {
    var s, a, returning, report := After(c, events), Advance(w), PipelineReturns(w, exit), Report(w, gate, failed);
    assert At(s, w, Piping).workers == s.workers;
    Moves(c, events, s, w, Piping, returning, Move(Stage.Returned(exit), s.rows, s.used, false));
    if s.workers[w].job.token in s.sched.cancelled {
      Moves(c, events + [returning], s, w, Stage.Returned(exit), a, Move(Finishing(true, true), s.rows, s.used, false));
      HeldJobWindsUp(c, events + [returning] + [a], s, w, true);
    } else {
      Moves(c, events + [returning], s, w, Stage.Returned(exit), a, Move(Reporting(exit), s.rows, s.used, false));
      Moves(c, events + [returning] + [a], s, w, Reporting(exit), report, Move(Stage.Refused, s.rows, s.used, false));
      Moves(c, events + [returning] + [a] + [report], s, w, Stage.Refused, a, Move(Finishing(true, true), s.rows, s.used, false));
      HeldJobWindsUp(c, events + [returning] + [a] + [report] + [a], s, w, true);
    }
  }

  function FailedWith2(row: Row): Row {
    Row(TechnicalFailure, Some(2), Some("fail"), row.reason, true, row.created)
  }

  // An exception before, in or after the pipeline fails the run with code 2 and
  // gate fail, and gives the request back.
  lemma RaisingJobFails(c: Config, events: seq<Event>, s: State, w: nat, stage: Stage)
    requires stage.Starting? || stage.Piping? || stage.Reporting?
    requires Stands(s, w) && LeadsTo(c, events, At(s, w, stage)) && Holdable(c, s)
    requires s.workers[w].job.run in s.rows && s.rows[s.workers[w].job.run].status in {Running, Status.Cancelling}
    ensures var a, run := Advance(w), s.workers[w].job.run;
      LeadsTo(c, events + [Raise(w)] + [a] + [a] + [a] + [a] + [a],
              Free(s.(rows := s.rows[run := FailedWith2(s.rows[run])], used := Returned(c, s)), w))
  {
    var a, run := Advance(w), s.workers[w].job.run;
    var rows := s.rows[run := FailedWith2(s.rows[run])];
    Moves(c, events, s, w, stage, Raise(w), Move(Failing(true), s.rows, s.used, false));
    Moves(c, events + [Raise(w)], s, w, Failing(true), a, Move(Finishing(true, false), rows, s.used, false));
    HeldJobWindsUp(c, events + [Raise(w)] + [a], s.(rows := rows), w, false);
  }

  // --- a job that does not reach the pipeline ---

  // Its token was set before the callback: the callback is skipped.
  lemma SkippedJobLeaves(c: Config, events: seq<Event>, w: nat)
    requires Happens(c, events) && Stands(After(c, events), w) && After(c, events).workers[w].stage == Taken
    requires After(c, events).workers[w].job.token in After(c, events).sched.cancelled
    ensures var s := After(c, events);
      s.workers[w].job.run in s.rows && LeadsTo(c, events + [Advance(w)] + [Advance(w)], Freed(s, w))
  {
    var s := After(c, events);
    Reached(c, events);
    assert StagedAt(s, w) && At(s, w, Taken).workers == s.workers;
    Moves(c, events, s, w, Taken, Advance(w), Move(Leaving, s.rows, s.used, false));
    WorkerLeaves(c, events + [Advance(w)], s, w);
  }

  // Its token is found set on entering, while it waits, or once it has its lease.
  lemma StoppedJobLeaves(c: Config, events: seq<Event>, s: State, w: nat, stage: Stage)
    requires stage.Entering? || stage.Waiting? || stage.Granted?
    requires Stands(s, w) && LeadsTo(c, events, At(s, w, stage)) && s.workers[w].job.token in s.sched.cancelled
    requires s.workers[w].job.run in s.rows && s.rows[s.workers[w].job.run].status in {Queued, Cancelled}
    requires stage.Waiting? ==>
      && 0 <= c.request.sandboxes <= c.capacity.sandboxes && 0.0 <= c.request.cpu <= c.capacity.cpu
      && 0 <= c.request.memory <= c.capacity.memory
    requires stage.Granted? ==> Holdable(c, s)
    ensures var a := Advance(w);
      if stage.Granted? then LeadsTo(c, events + [a] + [a] + [a] + [a] + [a], Freed(s.(used := Returned(c, s)), w))
      else LeadsTo(c, events + [a] + [a] + [a] + [a], Freed(s, w))
  {
    var a := Advance(w);
    Moves(c, events, s, w, stage, a, Move(Finishing(stage.Granted?, true), s.rows, s.used, false));
    if stage.Granted? {
      HeldJobWindsUp(c, events + [a], s, w, true);
    } else {
      UnheldJobWindsUp(c, events + [a], s, w, true);
    }
  }

  // Its row was cancelled in the queue: `mark_running` refuses, and the lease goes
  // back.
  lemma CancelledRowIsRefused(c: Config, events: seq<Event>, s: State, w: nat)
    requires Stands(s, w) && LeadsTo(c, events, At(s, w, Admitted)) && Holdable(c, s)
    requires s.workers[w].job.run in s.rows && s.rows[s.workers[w].job.run].status == Cancelled
    ensures var a := Advance(w);
      LeadsTo(c, events + [a] + [a] + [a] + [a] + [a], Free(s.(used := Returned(c, s)), w))
  {
    Moves(c, events, s, w, Admitted, Advance(w), Move(Finishing(true, false), s.rows, s.used, false));
    HeldJobWindsUp(c, events + [Advance(w)], s, w, false);
  }

  // Its request is negative or larger than the capacity: the run fails.
  lemma ImpossibleRequestFails(c: Config, events: seq<Event>, s: State, w: nat)
    requires Stands(s, w) && LeadsTo(c, events, At(s, w, Waiting))
    requires c.request.sandboxes < 0 || c.request.cpu < 0.0 || c.request.memory < 0
      || c.capacity.sandboxes < c.request.sandboxes || c.capacity.cpu < c.request.cpu
      || c.capacity.memory < c.request.memory
    requires s.workers[w].job.run in s.rows && s.rows[s.workers[w].job.run].status == Queued
    ensures var a, run := Advance(w), s.workers[w].job.run;
      LeadsTo(c, events + [a] + [a] + [a] + [a] + [a], Free(s.(rows := s.rows[run := FailedWith2(s.rows[run])]), w))
  {
    var a, run := Advance(w), s.workers[w].job.run;
    var rows := s.rows[run := FailedWith2(s.rows[run])];
    Moves(c, events, s, w, Waiting, a, Move(Failing(false), s.rows, s.used, false));
    Moves(c, events + [a], s, w, Failing(false), a, Move(Finishing(false, false), rows, s.used, false));
    UnheldJobWindsUp(c, events + [a] + [a], s.(rows := rows), w, false);
  }

  // --- cancelling a run ---

  // What a request leaves of a queued or running row.
  function RequestedRow(row: Row, reason: string): Row {
    if row.status == Queued then row.(status := Cancelled, exitCode := Some(130), reason := Some(reason))
    else row.(status := Status.Cancelling, reason := Some(reason))
  }

  function Requested(s: State, run: RunId, reason: string): State
    requires run in s.rows
  {
    s.(rows := s.rows[run := RequestedRow(s.rows[run], reason)],
       past := if s.rows[run].status == Queued
               then s.past.(droppedInQueue := s.past.droppedInQueue + {run}) else s.past)
  }

  lemma RequestSteps(c: Config, events: seq<Event>, k: nat, run: RunId, reason: string)
    requires Happens(c, events) && After(c, events).boot.Serving? && k !in After(c, events).callers
    requires run in After(c, events).rows && After(c, events).rows[run].status in {Queued, Running}
    ensures var s := After(c, events);
      LeadsTo(c, events + [CancelRun(k, run, reason)] + [Continue(k)],
              Requested(s, run, reason).(callers := s.callers[k := Signalling(run)]))
  {
    var s := After(c, events);
    var t := Requested(s, run, reason);
    Then(c, events, s, CancelRun(k, run, reason), t.(callers := s.callers[k := Rereading(run)]));
    assert s.callers[k := Rereading(run)][k := Signalling(run)] == s.callers[k := Signalling(run)];
    Then(c, events + [CancelRun(k, run, reason)], t.(callers := s.callers[k := Rereading(run)]), Continue(k),
         t.(callers := s.callers[k := Signalling(run)]));
  }

  // A request on a queued run cancels it, a request on a running one makes it
  // cancelling, and the caller's next steps set the token of the run's job.
  lemma CancelReachesTheToken(c: Config, events: seq<Event>, k: nat, run: RunId, reason: string)
    requires Happens(c, events) && After(c, events).boot.Serving? && k !in After(c, events).callers
    requires run in After(c, events).rows && After(c, events).rows[run].status in {Queued, Running}
    requires run in After(c, events).sched.tokens
    ensures var s, go := After(c, events), Continue(k);
      LeadsTo(c, events + [CancelRun(k, run, reason)] + [go] + [go] + [go],
              Requested(s, run, reason).(sched := s.sched.(cancelled := s.sched.cancelled + {s.sched.tokens[run]})))
  {
    var s, go := After(c, events), Continue(k);
    var t := Requested(s, run, reason);
    var signalling, firing := s.callers[k := Signalling(run)], s.callers[k := Caller.Cancelling(s.sched.tokens[run])];
    RequestSteps(c, events, k, run, reason);
    assert signalling[k := Caller.Cancelling(s.sched.tokens[run])] == firing;
    Then(c, events + [CancelRun(k, run, reason)] + [go], t.(callers := signalling), go, t.(callers := firing));
    assert firing - {k} == s.callers;
    Then(c, events + [CancelRun(k, run, reason)] + [go] + [go], t.(callers := firing), go,
         t.(sched := s.sched.(cancelled := s.sched.cancelled + {s.sched.tokens[run]})));
  }

  // The caller is still on its way to this token, or the token is set, or the job
  // that had it is over, or the run has failed.
  predicate Pursued(s: State, k: nat, run: RunId, token: TokenId) {
    && token < s.sched.issued
    && run in s.rows && s.rows[run].status in {Status.Cancelling, Cancelled, TechnicalFailure}
    && (|| (k in s.callers && s.callers[k] in {Rereading(run), Signalling(run), Caller.Cancelling(token)})
        || token in s.sched.cancelled
        || run !in s.sched.tokens || s.sched.tokens[run] != token
        || s.rows[run].status == TechnicalFailure)
  }

  // Rows and the other callers may change lawfully; a token stays set, and a job
  // once over has no token again.
  lemma FramePursued(s: State, t: State, k: nat, run: RunId, token: TokenId)
    requires Pursued(s, k, run, token) && Lawful(s.rows, t.rows)
    requires s.sched.cancelled <= t.sched.cancelled && s.sched.issued <= t.sched.issued
    requires run in t.sched.tokens ==>
      (run in s.sched.tokens && t.sched.tokens[run] == s.sched.tokens[run]) || s.sched.issued <= t.sched.tokens[run]
    requires k in s.callers ==> k in t.callers && t.callers[k] == s.callers[k]
    ensures Pursued(t, k, run, token)
  {
    assert Stopped(s.rows, run) && Stopped(t.rows, run);
  }

  lemma WorkerPursues(c: Config, s: State, e: Event, k: nat, run: RunId, token: TokenId)
    requires Pursued(s, k, run, token) && OfWorker(e) && WorkerEvent(c, s, e).Some?
    ensures Pursued(WorkerEvent(c, s, e).value, k, run, token)
  {
    WorkerLawful(c, s, e);
    WorkerKeeps(c, s, e);
    RunRows.WorkerSignals(c, s, e);
    FramePursued(s, WorkerEvent(c, s, e).value, k, run, token);
  }

  lemma OwnCallerPursues(s: State, k: nat, run: RunId, token: TokenId)
    requires Pursued(s, k, run, token) && k in s.callers
    ensures Pursued(CallerStep(s, k), k, run, token)
  {
  }

  lemma CallerPursues(s: State, e: Event, k: nat, run: RunId, token: TokenId)
    requires Pursued(s, k, run, token) && CallerEvent(s, e).Some?
    ensures Pursued(CallerEvent(s, e).value, k, run, token) && CallerEvent(s, e).value.boot == s.boot
  {
    if e.Continue? && e.caller == k {
      OwnCallerPursues(s, k, run, token);
    } else {
      OtherCallerPursues(s, e, k, run, token);
    }
  }

  lemma OtherCallerPursues(s: State, e: Event, k: nat, run: RunId, token: TokenId)
    requires Pursued(s, k, run, token) && CallerEvent(s, e).Some? && !(e.Continue? && e.caller == k)
    ensures Pursued(CallerEvent(s, e).value, k, run, token) && CallerEvent(s, e).value.boot == s.boot
  {
    CallerLawful(s, e);
    OtherCallerKeeps(s, e, k);
    FramePursued(s, CallerEvent(s, e).value, k, run, token);
  }

  lemma OtherCallerKeeps(s: State, e: Event, k: nat)
    requires CallerEvent(s, e).Some? && !(e.Continue? && e.caller == k)
    ensures var t := CallerEvent(s, e).value;
      && t.boot == s.boot && s.sched.cancelled <= t.sched.cancelled && s.sched.issued <= t.sched.issued
      && (k in s.callers ==> k in t.callers && t.callers[k] == s.callers[k])
      && forall run :: run in t.sched.tokens ==>
           (run in s.sched.tokens && t.sched.tokens[run] == s.sched.tokens[run]) || s.sched.issued <= t.sched.tokens[run]
  {
  }

  lemma ServingBootsNothing(c: Config, s: State, e: Event)
    requires s.boot.Serving? && !e.Crash?
    ensures BootEvent(c, s, e).None?
  {
  }

  lemma ClosePursues(c: Config, s: State, e: Event, k: nat, run: RunId, token: TokenId)
    requires Pursued(s, k, run, token) && CloseEvent(c, s, e).Some?
    ensures Pursued(CloseEvent(c, s, e).value, k, run, token) && CloseEvent(c, s, e).value.boot == s.boot
  {
    FramePursued(s, CloseEvent(c, s, e).value, k, run, token);
  }

  lemma StepPursues(c: Config, s: State, e: Event, k: nat, run: RunId, token: TokenId)
    requires Pursued(s, k, run, token) && s.boot.Serving? && Step(c, s, e).Some? && !e.Crash?
    ensures Pursued(Step(c, s, e).value, k, run, token) && Step(c, s, e).value.boot.Serving?
  {
    match e
    case Advance(_) | Raise(_) | PipelineReturns(_, _) | PipelineStops(_) | Report(_, _, _) =>
      WorkerKeeps(c, s, e);
      WorkerPursues(c, s, e, k, run, token);
    case Create(_, _, _) | CancelRun(_, _, _) | Continue(_) => CallerPursues(s, e, k, run, token);
    case Close(_) | CloserStep => ClosePursues(c, s, e, k, run, token);
    case _ => ServingBootsNothing(c, s, e);
  }

  // Whatever else happens in the process, a cancel request is pursued until the
  // token of the job is set, unless the job is over or has failed before.
  lemma {:induction false} CancelIsPursued(
      c: Config, before: seq<Event>, k: nat, run: RunId, reason: string, later: seq<Event>)
    requires Happens(c, before) && Happens(c, before + [CancelRun(k, run, reason)] + later)
    requires forall i :: 0 <= i < |later| ==> !later[i].Crash?
    requires run in After(c, before).rows && After(c, before).rows[run].status in {Queued, Running}
    requires run in After(c, before).sched.tokens
    ensures var s := After(c, before + [CancelRun(k, run, reason)] + later);
      s.boot.Serving? && Pursued(s, k, run, After(c, before).sched.tokens[run])
    decreases later
  {
    var asked := before + [CancelRun(k, run, reason)];
    if later == [] {
      assert asked + later == asked;
      Extended(c, before, CancelRun(k, run, reason));
      Reached(c, before);
    } else {
      var rest, e := later[..|later| - 1], later[|later| - 1];
      assert asked + later == (asked + rest) + [e];
      PrefixHappens(c, asked + rest, [e]);
      Extended(c, asked + rest, e);
      CancelIsPursued(c, before, k, run, reason, rest);
      StepPursues(c, After(c, asked + rest), e, k, run, After(c, before).sched.tokens[run]);
    }
  }

  // --- creating a run, and a new process ---

  // While the scheduler accepts, a new run is in the queue after three steps, with
  // a fresh token.
  lemma CreatedRunIsQueued(c: Config, events: seq<Event>, k: nat, run: RunId, created: nat)
    requires Happens(c, events) && After(c, events).boot.Serving? && k !in After(c, events).callers
    requires run !in After(c, events).rows && After(c, events).sched.accepting
    ensures var s, go := After(c, events), Continue(k);
      LeadsTo(c, events + [Create(k, run, created)] + [go] + [go],
              Enqueued(s.(rows := s.rows[run := Row(Queued, None, None, None, false, created)]), run))
  {
    var s := After(c, events);
    NewRunIsUnknown(c, events, run);
    CreateStep(c, events, s, k, run, created);
    var s1 := Inserted(s, k, run, created);
    SubmitSteps(c, events + [Create(k, run, created)], s1, k, run);
    assert s1.callers - {k} == s.callers && s1.past.place[run := InQueue] == s.past.place[run := InQueue];
  }

  function Inserted(s: State, k: nat, run: RunId, created: nat): State {
    s.(rows := s.rows[run := Row(Queued, None, None, None, false, created)], callers := s.callers[k := Submitting(run)],
       past := s.past.(place := s.past.place[run := InSubmit(k)]))
  }

  lemma CreateStep(c: Config, events: seq<Event>, s: State, k: nat, run: RunId, created: nat)
    requires LeadsTo(c, events, s) && s.boot.Serving? && k !in s.callers && run !in s.rows
    ensures LeadsTo(c, events + [Create(k, run, created)], Inserted(s, k, run, created))
  {
    Then(c, events, s, Create(k, run, created), Inserted(s, k, run, created));
  }

  lemma NewRunIsUnknown(c: Config, events: seq<Event>, run: RunId)
    requires Happens(c, events) && run !in After(c, events).rows
    ensures run !in After(c, events).past.place && run !in After(c, events).sched.tokens
  {
    Reached(c, events);
  }

  // The run's job is at the end of the queue, under the next token.
  function Enqueued(s: State, run: RunId): State {
    var job := Job(run, s.sched.issued);
    s.(sched := s.sched.(tokens := s.sched.tokens[run := job.token], issued := s.sched.issued + 1,
                         queue := s.sched.queue + [Some(job)]),
       past := s.past.(place := s.past.place[run := InQueue], entered := s.past.entered + [Some(job)]))
  }

  lemma SubmitSteps(c: Config, events: seq<Event>, s: State, k: nat, run: RunId)
    requires LeadsTo(c, events, s) && k in s.callers && s.callers[k] == Submitting(run)
    requires s.sched.accepting && run !in s.sched.tokens
    ensures LeadsTo(c, events + [Continue(k)] + [Continue(k)], Enqueued(s, run).(callers := s.callers - {k}))
  {
    var go, job := Continue(k), Job(run, s.sched.issued);
    var mid := s.(callers := s.callers[k := Enqueueing(job)],
                  sched := s.sched.(tokens := s.sched.tokens[run := job.token], issued := s.sched.issued + 1),
                  past := s.past.(place := s.past.place[run := InEnqueue(k)]));
    Then(c, events, s, go, mid);
    assert mid.callers - {k} == s.callers - {k} && mid.past.place[run := InQueue] == s.past.place[run := InQueue];
    Then(c, events + [go], mid, go, Enqueued(s, run).(callers := s.callers - {k}));
  }

  // An idle worker takes the head of the queue; a pill ends it.
  lemma IdleWorkerTakesTheHead(c: Config, events: seq<Event>, w: nat)
    requires Happens(c, events) && w < |After(c, events).workers| && After(c, events).workers[w] == Idle
    requires After(c, events).sched.queue != []
    ensures var s := After(c, events);
      var head, rest := s.sched.queue[0], s.sched.queue[1..];
      var t := s.(sched := s.sched.(queue := rest), past := s.past.(left := s.past.left + [head]));
      LeadsTo(c, events + [Advance(w)],
              if head.None? then t.(workers := s.workers[w := Gone])
              else t.(workers := s.workers[w := Busy(head.value, Taken)],
                      past := t.past.(place := s.past.place[head.value.run := AtWorker(w)])))
  {
    var s := After(c, events);
    Then(c, events, s, Advance(w), Dequeue(s, w));
  }
}
