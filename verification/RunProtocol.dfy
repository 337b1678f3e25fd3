/**
  The run protocol of api/service.py over the scheduler, the budget and the
  store: N worker threads, API callers, the closing thread and the constructor
  of a process, interleaved. One event is one lock region, queue operation or
  SQL transaction; `Crash` drops everything but the store.
 */
module RunProtocol {
  import opened Wrappers
  import opened RunStore
  import opened Resources
  import opened Scheduler

  datatype Config = Config(workers: nat, capacity: Request, request: Request)

  // Where `_execute_run` stands. `held` says whether a lease was granted, `stop`
  // is its local variable `cancelled`.
  datatype Stage =
    | Taken                        // dequeued, token not looked at yet
    | Entering                     // in the callback, at `cancellation_scope`
    | Waiting                      // in `acquire`
    | Granted                      // lease granted, token not looked at again
    | Admitted                     // before `mark_running`
    | Starting                     // before `pipeline_runner`
    | Piping                       // inside `pipeline_runner`
    | Returned(exit: int)          // before the token check after the pipeline
    | Reporting(exit: int)         // before `mark_finished`
    | Refused                      // `mark_finished` updated nothing
    | Failing(held: bool)          // in `except Exception`, before `mark_failed`
    | Finishing(held: bool, stop: bool)   // in `finally`, before `release`
    | Flagged(stop: bool)          // lease flagged, budget not yet reduced
    | Settling(stop: bool)         // after `finally`
    | Leaving                      // callback over, token still registered

  datatype Worker = Idle | Gone | Busy(job: Job, stage: Stage)

  datatype Caller =
    | Submitting(run: RunId)       // row inserted, job not registered
    | Enqueueing(job: Job)         // token registered, job not in the queue
    | Rereading(run: RunId)        // `request_cancel` done, row not read back
    | Signalling(run: RunId)       // about to look the token up
    | Cancelling(token: TokenId)   // about to set the token

  datatype Closer = Open | Firing(rest: seq<TokenId>) | Pilling(left: nat) | Shut

  datatype Boot =
    | Off
    | Recovering
    | Listing
    | Restoring(jobs: seq<RunId>, entering: Option<Job>)
    | Serving

  datatype Place =
    | InSubmit(caller: nat)
    | InEnqueue(caller: nat)
    | InRestore
    | InRestoreEnqueue
    | InQueue
    | AtWorker(worker: nat)

  // What the system never reads: how often each pipeline was started, which runs
  // were cancelled while queued, which were left unfinished by their only job,
  // what entered and left the queue, and where each run's only job is.
  datatype History = History(
    starts: multiset<RunId>,
    droppedInQueue: set<RunId>,
    stranded: set<RunId>,
    entered: seq<Option<Job>>,
    left: seq<Option<Job>>,
    place: map<RunId, Place>)

  datatype State = State(
    rows: Rows,
    sched: Sched,
    used: Request,
    workers: seq<Worker>,
    callers: map<nat, Caller>,
    closer: Closer,
    boot: Boot,
    past: History)

  datatype Event =
    | Advance(worker: nat)                         // the next step of a worker that needs no choice
    | Raise(worker: nat)                           // an exception outside cancellation
    | PipelineReturns(worker: nat, exit: int)
    | PipelineStops(worker: nat)                   // RunCancelled out of `pipeline_runner`
    | Report(worker: nat, gate: Option<string>, failed: bool)
    | Create(caller: nat, run: RunId, created: nat)
    | CancelRun(caller: nat, run: RunId, reason: string)
    | Continue(caller: nat)                        // the next step of a caller
    | Close(tokens: seq<TokenId>)
    | CloserStep
    | Recover
    | List(jobs: seq<RunId>)
    | SkipRestore                                  // registry or repository unavailable
    | RestoreStep
    | Crash
    | Restart

  const NO_PAST := History(multiset{}, {}, {}, [], [], map[])
  const INITIAL := State(map[], STARTED, NOTHING, [], map[], Open, Off, NO_PAST)

  predicate HoldsLease(worker: Worker) {
    worker.Busy? &&
    match worker.stage
    case Granted | Admitted | Starting | Piping | Returned(_) | Reporting(_) | Refused | Flagged(_) => true
    case Failing(held) => held
    case Finishing(held, _) => held
    case _ => false
  }

  predicate Active(stage: Stage) {
    stage.Starting? || stage.Piping? || stage.Returned? || stage.Reporting? || stage == Failing(true)
  }

  predicate Stands(s: State, w: nat) {
    w < |s.workers| && s.workers[w].Busy?
  }

  function Moved(s: State, run: RunId, place: Place): State {
    s.(past := s.past.(place := s.past.place[run := place]))
  }

  function Unplaced(s: State, run: RunId): State {
    s.(past := s.past.(place := s.past.place - {run}))
  }

  function Enter(s: State, entry: Option<Job>): State {
    s.(sched := Put(s.sched, entry), past := s.past.(entered := s.past.entered + [entry]))
  }

  // --- workers ---

  function Dequeue(s: State, w: nat): State
    requires w < |s.workers| && s.sched.queue != []
  {
    var head := s.sched.queue[0];
    var s1 := s.(sched := Take(s.sched), past := s.past.(left := s.past.left + [head]));
    match head
    case None => s1.(workers := s1.workers[w := Gone])
    case Some(job) => Moved(s1.(workers := s1.workers[w := Busy(job, Taken)]), job.run, AtWorker(w))
  }

  function Leave(s: State, w: nat): State
    requires w < |s.workers| && s.workers[w].Busy?
  {
    var run := s.workers[w].job.run;
    var s1 := s.(workers := s.workers[w := Idle], sched := Drop(s.sched, run));
    Unplaced(if run in s.rows && !Terminal(s.rows[run].status) then Strand(s1, run) else s1, run)
  }

  function Strand(s: State, run: RunId): State {
    s.(past := s.past.(stranded := s.past.stranded + {run}))
  }

  // What one step of a worker inside its job changes.
  datatype Move = Move(stage: Stage, rows: Rows, used: Request, starts: bool)

  function To(s: State, stage: Stage): Move {
    Move(stage, s.rows, s.used, false)
  }

  // The steps that need no choice.
  function Turn(c: Config, s: State, w: nat): Option<Move>
    requires Stands(s, w)
  {
    var run := s.workers[w].job.run;
    var cancelled := s.workers[w].job.token in s.sched.cancelled;
    match s.workers[w].stage
    case Taken => Some(To(s, if cancelled then Leaving else Entering))
    case Entering => Some(To(s, if cancelled then Finishing(false, true) else Waiting))
    case Waiting =>
      if !Admissible(c.capacity, c.request) then Some(To(s, Failing(false)))
      else if cancelled then Some(To(s, Finishing(false, true)))
      else if Fits(c.capacity, s.used, c.request) then Some(To(s, Stage.Granted).(used := Plus(s.used, c.request)))
      else None
    case Granted => Some(To(s, if cancelled then Finishing(true, true) else Admitted))
    case Admitted =>
      Some(To(s, if HasStatus(s.rows, run, {Queued}) then Starting else Finishing(true, false))
             .(rows := WithRunning(s.rows, run)))
    case Starting => Some(To(s, Piping).(starts := true))
    case Returned(exit) => Some(To(s, if cancelled then Finishing(true, true) else Reporting(exit)))
    case Refused => Some(To(s, Finishing(true, HasStatus(s.rows, run, {Status.Cancelling}))))
    case Failing(held) => Some(To(s, Finishing(held, false)).(rows := WithFailed(s.rows, run)))
    case Finishing(held, stop) => Some(To(s, if held then Flagged(stop) else Settling(stop)))
    case Flagged(stop) => Some(To(s, Settling(stop)).(used := Clamp(Minus(s.used, c.request))))
    case Settling(stop) => Some(To(s, Leaving).(rows := if stop then WithCancelled(s.rows, run) else s.rows))
    case Piping | Reporting(_) | Leaving => None
  }

  // What the pipeline and the report reading may do.
  function MoveOf(c: Config, s: State, e: Event): Option<Move>
    requires OfWorker(e) && Stands(s, e.worker)
  {
    var w := e.worker;
    var stage := s.workers[w].stage;
    match e
    case Advance(_) => Turn(c, s, w)
    case Raise(_) => if stage.Starting? || stage.Piping? || stage.Reporting? then Some(To(s, Failing(true))) else None
    case PipelineReturns(_, exit) => if stage.Piping? then Some(To(s, Returned(exit))) else None
    case PipelineStops(_) =>
      if stage.Piping? && s.workers[w].job.token in s.sched.cancelled then Some(To(s, Finishing(true, true))) else None
    case Report(_, gate, failed) =>
      if stage.Reporting? then
        var run := s.workers[w].job.run;
        Some(To(s, if HasStatus(s.rows, run, {Running}) then Finishing(true, false) else Stage.Refused)
               .(rows := WithFinished(s.rows, run, stage.exit, gate, failed)))
      else None
  }

  function Apply(s: State, w: nat, m: Move): State
    requires Stands(s, w)
  {
    var job := s.workers[w].job;
    s.(workers := s.workers[w := Busy(job, m.stage)], rows := m.rows, used := m.used,
       past := if m.starts then s.past.(starts := s.past.starts + multiset{job.run}) else s.past)
  }

  predicate OfWorker(e: Event) {
    e.Advance? || e.Raise? || e.PipelineReturns? || e.PipelineStops? || e.Report?
  }

  function WorkerEvent(c: Config, s: State, e: Event): Option<State>
    requires OfWorker(e)
  {
    var w := e.worker;
    if Stands(s, w) then
      if e.Advance? && s.workers[w].stage.Leaving? then Some(Leave(s, w))
      else
        var m := MoveOf(c, s, e);
        if m.None? then None else Some(Apply(s, w, m.value))
    else if e.Advance? && w < |s.workers| && s.workers[w].Idle? && s.sched.queue != [] then Some(Dequeue(s, w))
    else None
  }

  // --- API callers ---

  function CallerEvent(s: State, e: Event): Option<State> {
    match e
    case Create(k, run, created) =>
      if s.boot.Serving? && k !in s.callers && run !in s.rows then
        Some(Moved(s.(rows := s.rows[run := FreshRow(created)], callers := s.callers[k := Submitting(run)]),
                   run, InSubmit(k)))
      else None
    case CancelRun(k, run, reason) =>
      if s.boot.Serving? && k !in s.callers && run in s.rows then
        Some(s.(rows := WithCancelRequested(s.rows, run, reason),
                callers := s.callers[k := Rereading(run)],
                past := if s.rows[run].status.Queued?
                        then s.past.(droppedInQueue := s.past.droppedInQueue + {run}) else s.past))
      else None
    case Continue(k) => if k in s.callers then Some(CallerStep(s, k)) else None
    case _ => None
  }

  function CallerStep(s: State, k: nat): State
    requires k in s.callers
  {
    var done := s.(callers := s.callers - {k});
    match s.callers[k]
    case Submitting(run) =>
      if CanRegister(s.sched, run) then
        Moved(s.(sched := Register(s.sched, run),
                 callers := s.callers[k := Enqueueing(Job(run, s.sched.issued))]),
              run, InEnqueue(k))
      else Unplaced(Strand(done, run), run)
    case Enqueueing(job) => Moved(Enter(done, Some(job)), job.run, InQueue)
    case Rereading(run) =>
      if HasStatus(s.rows, run, {Status.Cancelling, Cancelled}) then s.(callers := s.callers[k := Signalling(run)])
      else done
    case Signalling(run) =>
      if run in s.sched.tokens then s.(callers := s.callers[k := Caller.Cancelling(s.sched.tokens[run])]) else done
    case Cancelling(token) => done.(sched := Fire(s.sched, token))
  }

  // --- RunScheduler.close ---

  function CloseEvent(c: Config, s: State, e: Event): Option<State> {
    match e
    case Close(tokens) =>
      if s.boot.Serving? && s.sched.accepting && (set t | t in tokens) == s.sched.tokens.Values then
        Some(s.(sched := StopAccepting(s.sched), closer := Firing(tokens)))
      else None
    case CloserStep =>
      (match s.closer
       case Firing(rest) =>
         if rest == [] then Some(s.(closer := Pilling(c.workers)))
         else Some(s.(sched := Fire(s.sched, rest[0]), closer := Firing(rest[1..])))
       case Pilling(left) =>
         if left == 0 then Some(s.(closer := Shut))
         else Some(Enter(s, None).(closer := Pilling(left - 1)))
       case _ => None)
    case _ => None
  }

  // --- the constructor, and the end of a process ---

  function Placed(jobs: seq<RunId>): map<RunId, Place> {
    map run | run in jobs :: InRestore
  }

  ghost function BootEvent(c: Config, s: State, e: Event): Option<State> {
    match e
    case Recover =>
      if s.boot.Recovering? then Some(s.(rows := WithRecovered(s.rows), boot := Listing)) else None
    case List(jobs) =>
      if s.boot.Listing? && QueuedListing(s.rows, jobs) then
        Some(s.(boot := Restoring(jobs, None), past := s.past.(place := Placed(jobs))))
      else None
    case SkipRestore =>
      if s.boot.Restoring? && s.boot.entering.None? && s.boot.jobs != [] then
        Some(Unplaced(s.(rows := WithFailed(s.rows, s.boot.jobs[0]), boot := Restoring(s.boot.jobs[1..], None)),
                      s.boot.jobs[0]))
      else None
    case RestoreStep => if s.boot.Restoring? then Some(Restore(s)) else None
    case Crash =>
      if s.boot.Off? then None
      else
        Some(INITIAL.(rows := s.rows,
                      past := NO_PAST.(starts := s.past.starts, droppedInQueue := s.past.droppedInQueue)))
    case Restart =>
      if s.boot.Off? then Some(s.(workers := seq(c.workers, i => Idle), boot := Recovering)) else None
    case _ => None
  }

  function Restore(s: State): State
    requires s.boot.Restoring?
  {
    match s.boot.entering
    case Some(job) => Moved(Enter(s, Some(job)).(boot := Restoring(s.boot.jobs, None)), job.run, InQueue)
    case None =>
      if s.boot.jobs == [] then s.(boot := Serving)
      else
        var run := s.boot.jobs[0];
        if CanRegister(s.sched, run) then
          Moved(s.(sched := Register(s.sched, run),
                   boot := Restoring(s.boot.jobs[1..], Some(Job(run, s.sched.issued)))),
                run, InRestoreEnqueue)
        else
          Unplaced(s.(rows := WithFailed(s.rows, run), boot := Restoring(s.boot.jobs[1..], None)), run)
  }

  // The successor of `s` under an event, if the event can happen there.
  ghost function Step(c: Config, s: State, e: Event): Option<State> {
    match e
    case Advance(_) | Raise(_) | PipelineReturns(_, _) | PipelineStops(_) | Report(_, _, _) => WorkerEvent(c, s, e)
    case Create(_, _, _) | CancelRun(_, _, _) | Continue(_) => CallerEvent(s, e)
    case Close(_) | CloserStep => CloseEvent(c, s, e)
    case _ => BootEvent(c, s, e)
  }

  // The state after a whole history of events, over any number of processes.
  ghost function Run(c: Config, events: seq<Event>): Option<State> {
    if events == [] then Some(INITIAL)
    else
      var before := Run(c, events[..|events| - 1]);
      if before.None? then None else Step(c, before.value, events[|events| - 1])
  }
}
