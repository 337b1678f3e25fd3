/** What the exit code column says about a run. */
module RunCodes {
  import opened Wrappers
  import opened RunStore
  import opened Resources
  import opened Scheduler
  import opened RunProtocol
  import opened RunInvariant
  import opened RunKept
  import opened RunTheorems

  // The event lets the pipeline of this run return.
  predicate Returns(s: State, e: Event, run: RunId) {
    e.PipelineReturns? && Stands(s, e.worker)
    && s.workers[e.worker] == Busy(s.workers[e.worker].job, Piping) && s.workers[e.worker].job.run == run
  }

  // What the pipeline of the run returned last in this history, if it ever did.
  ghost function CodeOf(c: Config, events: seq<Event>, run: RunId): Option<int> {
    if events == [] then None
    else
      var prefix, e := events[..|events| - 1], events[|events| - 1];
      if Happens(c, prefix) && Returns(After(c, prefix), e, run) then Some(e.exit) else CodeOf(c, prefix, run)
  }

  // Completed rows and the workers on their way there carry the pipeline's code.
  ghost predicate CodesFollow(c: Config, events: seq<Event>, s: State) {
    && (forall run :: run in s.rows && s.rows[run].status.Completed? ==> CodeOf(c, events, run) == s.rows[run].exitCode)
    && (forall w: nat :: Stands(s, w) ==> CarriesCode(s.workers[w].stage, CodeOf(c, events, s.workers[w].job.run)))
  }

  predicate CarriesCode(stage: Stage, code: Option<int>) {
    match stage
    case Returned(exit) => code == Some(exit)
    case Reporting(exit) => code == Some(exit)
    case _ => true
  }

  // An exit code is passed on from the pipeline to the row, and from nowhere else.
  lemma MoveCarries(c: Config, s: State, e: Event)
    requires OfWorker(e) && Stands(s, e.worker) && MoveOf(c, s, e).Some?
    ensures var m, stage, run := MoveOf(c, s, e).value, s.workers[e.worker].stage, s.workers[e.worker].job.run;
      && (m.stage.Returned? ==> e.PipelineReturns? && m.stage.exit == e.exit)
      && (m.stage.Reporting? ==> stage.Returned? && m.stage.exit == stage.exit)
      && (e.PipelineReturns? ==> stage.Piping? && m.rows == s.rows)
      && (run in m.rows && m.rows[run].status.Completed? ==>
            (run in s.rows && m.rows[run] == s.rows[run]) || (stage.Reporting? && m.rows[run].exitCode == Some(stage.exit)))
  {
  }

  predicate Carries(stage: Stage) { stage.Returned? || stage.Reporting? }

  // Nothing new is completed and no worker comes to carry a code.
  predicate NoNewCode(s: State, s': State) {
    && (forall run :: run in s'.rows && s'.rows[run].status.Completed? ==> run in s.rows && s'.rows[run] == s.rows[run])
    && (forall v: nat :: v < |s'.workers| && s'.workers[v].Busy? && Carries(s'.workers[v].stage) ==>
          v < |s.workers| && s'.workers[v] == s.workers[v])
  }

  lemma FrameCodes(c: Config, events: seq<Event>, s: State, later: seq<Event>, s': State)
    requires CodesFollow(c, events, s) && forall run :: CodeOf(c, later, run) == CodeOf(c, events, run)
    requires NoNewCode(s, s')
    ensures CodesFollow(c, later, s')
  {
  }

  lemma CodeExtends(c: Config, events: seq<Event>, e: Event, run: RunId)
    requires Happens(c, events)
    ensures CodeOf(c, events + [e], run) ==
      if Returns(After(c, events), e, run) then Some(e.exit) else CodeOf(c, events, run)
  {
    assert (events + [e])[..|events|] == events;
  }

  lemma MoveExtends(c: Config, events: seq<Event>, e: Event, run: RunId)
    requires Happens(c, events) && OfWorker(e)
    requires Stands(After(c, events), e.worker) && MoveOf(c, After(c, events), e).Some?
    ensures CodeOf(c, events + [e], run) ==
      if e.PipelineReturns? && run == After(c, events).workers[e.worker].job.run then Some(e.exit)
      else CodeOf(c, events, run)
  {
    CodeExtends(c, events, e, run);
  }

  // The codes of a move, given what it does to the code of its own run.
  lemma MoveCodes(c: Config, s: State, e: Event, before: Option<int>)
    requires OfWorker(e) && Stands(s, e.worker) && MoveOf(c, s, e).Some? && StagedAt(s, e.worker)
    requires CarriesCode(s.workers[e.worker].stage, before)
    requires s.rows[s.workers[e.worker].job.run].status.Completed? ==> before == s.rows[s.workers[e.worker].job.run].exitCode
    ensures var m, run := MoveOf(c, s, e).value, s.workers[e.worker].job.run;
      var after := if e.PipelineReturns? then Some(e.exit) else before;
      && CarriesCode(m.stage, after)
      && (run in m.rows && m.rows[run].status.Completed? ==> after == m.rows[run].exitCode)
  {
    MoveCarries(c, s, e);
  }

  lemma ApplyCodes(c: Config, events: seq<Event>, e: Event)
    requires Happens(c, events) && CodesFollow(c, events, After(c, events))
    requires Located(After(c, events)) && Staged(After(c, events))
    requires OfWorker(e) && Stands(After(c, events), e.worker) && MoveOf(c, After(c, events), e).Some?
    ensures CodesFollow(c, events + [e], Apply(After(c, events), e.worker, MoveOf(c, After(c, events), e).value))
  {
    var s, w := After(c, events), e.worker;
    var m, own := MoveOf(c, s, e).value, s.workers[w].job.run;
    var s' := Apply(s, w, m);
    assert StagedAt(s, w) && JobAt(s, s.workers[w].job, AtWorker(w));
    MoveCodes(c, s, e, CodeOf(c, events, own));
    MoveOneRow(c, s, e);
    forall run | run in s'.rows && s'.rows[run].status.Completed?
      ensures CodeOf(c, events + [e], run) == s'.rows[run].exitCode
    {
      MoveExtends(c, events, e, run);
    }
    forall v: nat | Stands(s', v)
      ensures CarriesCode(s'.workers[v].stage, CodeOf(c, events + [e], s'.workers[v].job.run))
    {
      assert Stands(s, v) && JobAt(s, s.workers[v].job, AtWorker(v));
      MoveExtends(c, events, e, s'.workers[v].job.run);
    }
  }

  predicate Moving(c: Config, s: State, e: Event) {
    OfWorker(e) && Stands(s, e.worker) && MoveOf(c, s, e).Some?
  }

  lemma StillCodes(c: Config, events: seq<Event>, e: Event)
    requires Happens(c, events) && CodesFollow(c, events, After(c, events))
    requires !Moving(c, After(c, events), e) && Step(c, After(c, events), e).Some?
    ensures CodesFollow(c, events + [e], Step(c, After(c, events), e).value)
  {
    var s := After(c, events);
    forall run
      ensures CodeOf(c, events + [e], run) == CodeOf(c, events, run)
    {
      CodeExtends(c, events, e, run);
    }
    CompletesNothing(c, s, e);
    FrameCodes(c, events, s, events + [e], Step(c, s, e).value);
  }

  lemma StepCodes(c: Config, events: seq<Event>, e: Event)
    requires Happens(c, events) && CodesFollow(c, events, After(c, events))
    requires Located(After(c, events)) && Staged(After(c, events)) && Step(c, After(c, events), e).Some?
    ensures CodesFollow(c, events + [e], Step(c, After(c, events), e).value)
  {
    if Moving(c, After(c, events), e) {
      ApplyCodes(c, events, e);
    } else {
      StillCodes(c, events, e);
    }
  }

  lemma CallerCompletesNothing(s: State, e: Event)
    requires CallerEvent(s, e).Some?
    ensures NoNewCode(s, CallerEvent(s, e).value)
  {
  }

  lemma BootCompletesNothing(c: Config, s: State, e: Event)
    requires BootEvent(c, s, e).Some?
    ensures NoNewCode(s, BootEvent(c, s, e).value)
  {
  }

  lemma WorkerCompletesNothing(c: Config, s: State, e: Event)
    requires !Moving(c, s, e) && OfWorker(e) && WorkerEvent(c, s, e).Some?
    ensures NoNewCode(s, WorkerEvent(c, s, e).value)
  {
  }

  lemma CompletesNothing(c: Config, s: State, e: Event)
    requires !Moving(c, s, e) && Step(c, s, e).Some?
    ensures NoNewCode(s, Step(c, s, e).value)
  {
    match e
    case Advance(_) | Raise(_) | PipelineReturns(_, _) | PipelineStops(_) | Report(_, _, _) =>
      WorkerCompletesNothing(c, s, e);
    case Create(_, _, _) | CancelRun(_, _, _) | Continue(_) => CallerCompletesNothing(s, e);
    case Close(_) | CloserStep =>
    case _ => BootCompletesNothing(c, s, e);
  }

  lemma {:induction false} CodesKept(c: Config, events: seq<Event>)
    requires Happens(c, events)
    ensures CodesFollow(c, events, After(c, events))
  {
    if events == [] {
      assert forall v: nat :: !Stands(INITIAL, v);
    } else {
      var prefix, e := events[..|events| - 1], events[|events| - 1];
      CodesKept(c, prefix);
      Reached(c, prefix);
      StepCodes(c, prefix, e);
      assert prefix + [e] == events;
    }
  }

  // A completed row carries what the run's own pipeline returned.
  lemma CompletedCodeIsReturned(c: Config, events: seq<Event>, run: RunId)
    requires Happens(c, events) && HasStatus(After(c, events).rows, run, {Completed})
    ensures CodeOf(c, events, run).Some? && After(c, events).rows[run].exitCode == CodeOf(c, events, run)
  {
    CodesKept(c, events);
    Reached(c, events);
  }

  // 130 stands in the rows of the cancelled runs, of the completed runs whose own
  // pipeline returned 130, and in no other row.
  lemma CancelCodeExactly(c: Config, events: seq<Event>, run: RunId)
    requires Happens(c, events) && run in After(c, events).rows
    ensures var row := After(c, events).rows[run];
      row.exitCode == Some(130) <==>
        row.status.Cancelled? || (row.status.Completed? && CodeOf(c, events, run) == Some(130))
  {
    CodesKept(c, events);
    ExitCodesAgree(c, events, run);
  }

  // No pipeline returned 130 itself.
  ghost predicate KeepsCancelCode(events: seq<Event>) {
    forall i :: 0 <= i < |events| && events[i].PipelineReturns? ==> events[i].exit != CANCELLED_EXIT
  }

  lemma {:induction false} CodeIsFromAnEvent(c: Config, events: seq<Event>, run: RunId)
    requires KeepsCancelCode(events)
    ensures CodeOf(c, events, run) != Some(CANCELLED_EXIT)
  {
    if events != [] {
      CodeIsFromAnEvent(c, events[..|events| - 1], run);
    }
  }

  // 130 marks exactly the cancelled runs, as long as no pipeline returns it.
  lemma CancelCodeMarksCancelled(c: Config, events: seq<Event>, run: RunId)
    requires Happens(c, events) && KeepsCancelCode(events) && run in After(c, events).rows
    ensures After(c, events).rows[run].exitCode == Some(CANCELLED_EXIT) <==> After(c, events).rows[run].status.Cancelled?
  {
    CodeIsFromAnEvent(c, events, run);
    CancelCodeExactly(c, events, run);
  }

  const RETURNED := PIPING + [PipelineReturns(0, CANCELLED_EXIT)] + [A] + [Report(0, None, false)]
  const RETURNED_STATE := PIPING_STATE.(
    rows := map[7 := FinishedRow(FreshRow(0).(status := Running), CANCELLED_EXIT, None, false)],
    workers := [Busy(RUN_JOB, Finishing(true, false))])

  // A pipeline that returns 130 itself leads to a completed row that carries it.
  lemma CompletedCanCarryCancelCode()
    ensures Happens(SMALL, RETURNED) && After(SMALL, RETURNED) == RETURNED_STATE
    ensures HasStatus(RETURNED_STATE.rows, 7, {Completed}) && RETURNED_STATE.rows[7].exitCode == Some(CANCELLED_EXIT)
  {
    PipingLeads();
    var s1 := Apply(PIPING_STATE, 0, To(PIPING_STATE, Returned(CANCELLED_EXIT)));
    Goes(PIPING, PIPING_STATE, PipelineReturns(0, CANCELLED_EXIT), s1);
    var s2 := Turns(PIPING + [PipelineReturns(0, CANCELLED_EXIT)], s1);
    var report := Report(0, None, false);
    var s3 := WorkerEvent(SMALL, s2, report).value;
    assert s3.rows == RETURNED_STATE.rows && s3.workers == RETURNED_STATE.workers;
    Goes(PIPING + [PipelineReturns(0, CANCELLED_EXIT)] + [A], s2, report, s3);
  }
}
