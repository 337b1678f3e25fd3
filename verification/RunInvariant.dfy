/** What every event of the run protocol keeps. */
module RunInvariant {
  import opened Wrappers
  import opened RunStore
  import opened Resources
  import opened Scheduler
  import opened RunProtocol

  // --- each run has at most one job, and `place` says where it is ---

  ghost predicate JobAt(s: State, job: Job, place: Place) {
    && job.run in s.past.place && s.past.place[job.run] == place
    && job.run in s.sched.tokens && s.sched.tokens[job.run] == job.token
  }

  ghost predicate RunAt(s: State, run: RunId, place: Place) {
    run in s.past.place && s.past.place[run] == place && run !in s.sched.tokens
  }

  ghost predicate CallerAt(s: State, k: nat)
    requires k in s.callers
  {
    match s.callers[k]
    case Submitting(run) => RunAt(s, run, InSubmit(k))
    case Enqueueing(job) => JobAt(s, job, InEnqueue(k))
    case _ => true
  }

  ghost predicate BootAt(s: State) {
    s.boot.Restoring? ==>
      && (forall i :: 0 <= i < |s.boot.jobs| ==> RunAt(s, s.boot.jobs[i], InRestore))
      && (forall i, j :: 0 <= i < j < |s.boot.jobs| ==> s.boot.jobs[i] != s.boot.jobs[j])
      && (s.boot.entering.Some? ==> JobAt(s, s.boot.entering.value, InRestoreEnqueue))
  }

  ghost predicate QueueAt(s: State) {
    && (forall i :: 0 <= i < |s.sched.queue| && s.sched.queue[i].Some? ==> JobAt(s, s.sched.queue[i].value, InQueue))
    && (forall i, j :: 0 <= i < j < |s.sched.queue| && s.sched.queue[i].Some? && s.sched.queue[j].Some? ==>
          s.sched.queue[i].value.run != s.sched.queue[j].value.run)
  }

  ghost predicate PlaceBacked(s: State, run: RunId)
    requires run in s.past.place
  {
    match s.past.place[run]
    case InSubmit(k) => k in s.callers && s.callers[k] == Submitting(run)
    case InEnqueue(k) => k in s.callers && s.callers[k].Enqueueing? && s.callers[k].job.run == run
    case InRestore => s.boot.Restoring? && run in s.boot.jobs
    case InRestoreEnqueue => s.boot.Restoring? && s.boot.entering.Some? && s.boot.entering.value.run == run
    case InQueue => run in s.sched.tokens && Some(Job(run, s.sched.tokens[run])) in s.sched.queue
    case AtWorker(w) => Stands(s, w) && s.workers[w].job.run == run
  }

  ghost predicate WorkersAt(s: State) {
    forall w: nat :: Stands(s, w) ==> JobAt(s, s.workers[w].job, AtWorker(w))
  }

  ghost predicate CallersAt(s: State) {
    forall k :: k in s.callers ==> CallerAt(s, k)
  }

  ghost predicate PlacesBacked(s: State) {
    forall run :: run in s.past.place ==> PlaceBacked(s, run)
  }

  ghost predicate Located(s: State) {
    WorkersAt(s) && QueueAt(s) && CallersAt(s) && BootAt(s) && PlacesBacked(s)
  }

  ghost predicate TokensHeld(s: State) {
    && (forall run :: run in s.sched.tokens ==>
          run in s.past.place && !s.past.place[run].InSubmit? && !s.past.place[run].InRestore?)
    && (forall run :: run in s.sched.tokens ==> s.sched.tokens[run] < s.sched.issued)
    && (forall a, b :: a in s.sched.tokens && b in s.sched.tokens && s.sched.tokens[a] == s.sched.tokens[b] ==> a == b)
  }

  // --- the row of each run fits the place of its job ---

  predicate InFlight(status: Status) { status.Running? || status.Cancelling? }

  predicate Waits(status: Status) { status.Queued? || status.Cancelled? }

  // Only a closed scheduler sets the token of a run the store was not told about.
  predicate Spared(s: State, token: TokenId) {
    s.sched.accepting || token !in s.sched.cancelled
  }

  predicate StageFits(stage: Stage, status: Status, spared: bool) {
    match stage
    case Taken | Entering | Waiting | Granted | Admitted => Waits(status)
    case Starting | Piping | Returned(_) | Reporting(_) => InFlight(status)
    case Refused => status.Cancelling?
    case Failing(held) => if held then InFlight(status) else Waits(status)
    case Finishing(_, stop) => if stop then spared ==> !status.Queued? && !status.Running? else Terminal(status)
    case Flagged(stop) => if stop then spared ==> !status.Queued? && !status.Running? else Terminal(status)
    case Settling(stop) => if stop then spared ==> !status.Queued? && !status.Running? else Terminal(status)
    case Leaving => spared ==> Terminal(status)
  }

  ghost predicate StagedAt(s: State, w: nat)
    requires Stands(s, w)
  {
    var run := s.workers[w].job.run;
    run in s.rows && StageFits(s.workers[w].stage, s.rows[run].status, Spared(s, s.workers[w].job.token))
  }

  ghost predicate Staged(s: State) {
    && (forall w: nat :: Stands(s, w) ==> StagedAt(s, w))
    && (forall run :: run in s.past.place ==> run in s.rows)
    && (forall run :: run in s.past.place && !s.past.place[run].AtWorker? ==> Waits(s.rows[run].status))
  }

  // A token is set only once its run was refused or asked to stop, or on close.
  predicate TokenSet(s: State, run: RunId) {
    run in s.sched.tokens && s.sched.tokens[run] in s.sched.cancelled
  }

  predicate AboutToSet(s: State, k: nat, run: RunId) {
    k in s.callers && s.callers[k].Cancelling? && run in s.sched.tokens && s.sched.tokens[run] == s.callers[k].token
  }

  ghost predicate Signalled(s: State) {
    && (s.sched.accepting ==> forall run :: TokenSet(s, run) ==> Stopped(s.rows, run))
    && (forall k :: k in s.callers && s.callers[k].Rereading? ==> s.callers[k].run in s.rows)
    && (forall k :: k in s.callers && s.callers[k].Signalling? ==> Stopped(s.rows, s.callers[k].run))
    && (forall k, run :: AboutToSet(s, k, run) ==> Stopped(s.rows, run))
    && (forall k :: k in s.callers && s.callers[k].Cancelling? ==> s.callers[k].token < s.sched.issued)
    && (forall token :: token in s.sched.cancelled ==> token < s.sched.issued)
  }

  // A run that is not finished has a job, unless it was stranded by a close.
  ghost predicate Covered(s: State) {
    && (s.boot.Restoring? || s.boot.Serving? ==> forall run :: run in s.rows && !Terminal(s.rows[run].status) ==>
          run in s.past.place || run in s.past.stranded)
    && (s.boot.Listing? ==> forall run :: run in s.rows ==> !InFlight(s.rows[run].status))
    && (s.past.stranded != {} ==> !s.sched.accepting)
  }

  // A stranded run has a row but no job any more.
  ghost predicate StrandedApart(s: State) {
    forall run :: run in s.past.stranded ==> run in s.rows && run !in s.past.place
  }

  // --- pipelines start once, and never after a cancellation in the queue ---

  ghost predicate StartedOnce(s: State) {
    && (forall run :: s.past.starts[run] <= 1)
    && (forall run :: run !in s.rows || s.rows[run].status.Queued? ==> s.past.starts[run] == 0)
    && (forall w: nat :: Stands(s, w) && s.workers[w].stage.Starting? ==> s.past.starts[s.workers[w].job.run] == 0)
    && (forall run :: run in s.past.droppedInQueue ==>
          run in s.rows && s.rows[run].status.Cancelled? && s.past.starts[run] == 0)
  }

  // --- resources, closing and order ---

  function Share(c: Config, worker: Worker): Request {
    if HoldsLease(worker) then c.request else NOTHING
  }

  function Shares(c: Config, workers: seq<Worker>): (shares: seq<Request>) {
    seq(|workers|, i requires 0 <= i < |workers| => Share(c, workers[i]))
  }

  ghost predicate Accounted(c: Config, s: State) {
    && Accounts(c.capacity, s.used, Shares(c, s.workers))
    && (forall w :: 0 <= w < |s.workers| && HoldsLease(s.workers[w]) ==> Admissible(c.capacity, c.request))
  }

  ghost predicate ClosedDown(s: State) {
    && s.sched.accepting == s.closer.Open?
    && (s.closer.Firing? ==> forall run :: run in s.sched.tokens ==>
          s.sched.tokens[run] in s.sched.cancelled || s.sched.tokens[run] in s.closer.rest)
    && (s.closer.Pilling? || s.closer.Shut? ==> forall run :: run in s.sched.tokens ==>
          s.sched.tokens[run] in s.sched.cancelled)
    && (s.closer.Firing? ==> forall i :: 0 <= i < |s.closer.rest| ==> s.closer.rest[i] < s.sched.issued)
  }

  ghost predicate InOrder(s: State) {
    s.past.entered == s.past.left + s.sched.queue
  }

  predicate EnteredAt(s: State, token: TokenId, i: int) {
    0 <= i < |s.past.entered| && s.past.entered[i].Some? && s.past.entered[i].value.token == token
  }

  // No token was put into the queue twice, and none that is still to be put.
  ghost predicate EnteredOnce(s: State) {
    && (forall token: TokenId, i :: EnteredAt(s, token, i) ==> token < s.sched.issued)
    && (forall token: TokenId, i, j :: EnteredAt(s, token, i) && EnteredAt(s, token, j) ==> i == j)
    && (forall k, i :: k in s.callers && s.callers[k].Enqueueing? ==> !EnteredAt(s, s.callers[k].job.token, i))
    && (forall i :: s.boot.Restoring? && s.boot.entering.Some? ==> !EnteredAt(s, s.boot.entering.value.token, i))
  }

  ghost predicate Shaped(c: Config, s: State) {
    && (s.boot.Off? ==> s == INITIAL.(rows := s.rows,
          past := NO_PAST.(starts := s.past.starts, droppedInQueue := s.past.droppedInQueue)))
    && (!s.boot.Off? ==> |s.workers| == c.workers)
    && (s.boot.Recovering? || s.boot.Listing? ==>
          && s.past.place == map[] && s.callers == map[] && s.sched == STARTED && s.closer == Open
          && s.past.stranded == {} && forall w :: 0 <= w < |s.workers| ==> s.workers[w].Idle?)
    && (s.boot.Restoring? ==> s.callers == map[] && s.closer == Open && s.past.stranded == {})
  }

  ghost predicate Inv(c: Config, s: State) {
    && Shaped(c, s) && Located(s) && TokensHeld(s) && Staged(s) && Signalled(s) && Covered(s)
    && StartedOnce(s) && Accounted(c, s) && ClosedDown(s) && InOrder(s) && ExitCodesFit(s.rows)
    && StrandedApart(s) && EnteredOnce(s)
  }
}
