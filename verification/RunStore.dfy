/**
  The persisted run table of api/store.py. Each SQL transaction is a total
  function on the table; `ApiStore` is the object whose methods apply them.
 */
module RunStore {
  import opened Wrappers

  // Run ids are compared only for equality and by their rank in `ORDER BY run_id`.
  type RunId = nat

  datatype Status = Queued | Running | Cancelling | Cancelled | Completed | TechnicalFailure

  predicate Terminal(status: Status) {
    status.Cancelled? || status.Completed? || status.TechnicalFailure?
  }

  datatype Row = Row(
    status: Status,
    exitCode: Option<int>,
    gate: Option<string>,
    reason: Option<string>,
    failed: bool,          // error_json IS NOT NULL
    created: nat)

  type Rows = map<RunId, Row>

  const FAILURE_EXIT := 2
  const CANCELLED_EXIT := 130

  function FreshRow(created: nat): Row {
    Row(Queued, None, None, None, false, created)
  }

  function FailedRow(row: Row): Row {
    row.(status := TechnicalFailure, exitCode := Some(FAILURE_EXIT), gate := Some("fail"), failed := true)
  }

  function FinishedRow(row: Row, exit: int, gate: Option<string>, failed: bool): Row {
    row.(status := if exit == FAILURE_EXIT then TechnicalFailure else Completed,
         exitCode := Some(exit), gate := gate, failed := failed)
  }

  predicate HasStatus(rows: Rows, run: RunId, statuses: set<Status>) {
    run in rows && rows[run].status in statuses
  }

  function WithRunning(rows: Rows, run: RunId): Rows {
    if HasStatus(rows, run, {Queued}) then rows[run := rows[run].(status := Running, failed := false)] else rows
  }

  function WithFinished(rows: Rows, run: RunId, exit: int, gate: Option<string>, failed: bool): Rows {
    if HasStatus(rows, run, {Running}) then rows[run := FinishedRow(rows[run], exit, gate, failed)] else rows
  }

  function WithFailed(rows: Rows, run: RunId): Rows {
    if HasStatus(rows, run, {Queued, Running, Cancelling}) then rows[run := FailedRow(rows[run])] else rows
  }

  function WithCancelRequested(rows: Rows, run: RunId, reason: string): Rows {
    if HasStatus(rows, run, {Queued}) then
      rows[run := rows[run].(status := Cancelled, exitCode := Some(CANCELLED_EXIT), reason := Some(reason))]
    else if HasStatus(rows, run, {Running}) then
      rows[run := rows[run].(status := Cancelling, reason := Some(reason))]
    else
      rows
  }

  function WithCancelled(rows: Rows, run: RunId): Rows {
    if HasStatus(rows, run, {Cancelling}) then
      rows[run := rows[run].(status := Cancelled, exitCode := Some(CANCELLED_EXIT), gate := None)]
    else
      rows
  }

  function WithRecovered(rows: Rows): Rows {
    map run | run in rows ::
      if HasStatus(rows, run, {Running, Cancelling}) then FailedRow(rows[run]) else rows[run]
  }

  predicate ListedBefore(rows: Rows, a: RunId, b: RunId) {
    && a in rows && b in rows
    && (rows[a].created < rows[b].created || (rows[a].created == rows[b].created && a < b))
  }

  // The answer of `SELECT ... WHERE status = 'queued' ORDER BY created_at, run_id`.
  ghost predicate QueuedListing(rows: Rows, jobs: seq<RunId>) {
    && (forall run :: run in jobs <==> HasStatus(rows, run, {Queued}))
    && (forall i, j :: 0 <= i < j < |jobs| ==> ListedBefore(rows, jobs[i], jobs[j]))
  }

  // A listing names the queued runs in order of creation, and of their identifiers
  // where they were created at the same time.
  lemma ListingMeans(rows: Rows, jobs: seq<RunId>)
    ensures QueuedListing(rows, jobs) <==>
      && (forall run: RunId :: run in jobs <==> run in rows && rows[run].status == Queued)
      && forall i, j :: 0 <= i < j < |jobs| ==>
           && jobs[i] in rows && jobs[j] in rows && rows[jobs[i]].created <= rows[jobs[j]].created
           && (rows[jobs[i]].created == rows[jobs[j]].created ==> jobs[i] < jobs[j])
  {
    forall run: RunId
      ensures HasStatus(rows, run, {Queued}) <==> run in rows && rows[run].status == Queued
    {
    }
    if QueuedListing(rows, jobs) {
      forall i, j | 0 <= i < j < |jobs|
        ensures jobs[i] in rows && jobs[j] in rows && rows[jobs[i]].created <= rows[jobs[j]].created
        ensures rows[jobs[i]].created == rows[jobs[j]].created ==> jobs[i] < jobs[j]
      {
        assert ListedBefore(rows, jobs[i], jobs[j]);
      }
    }
  }

  lemma EarliestOf(rows: Rows, runs: set<RunId>) returns (first: RunId)
    requires runs != {} && runs <= rows.Keys
    ensures first in runs && forall run :: run in runs && run != first ==> ListedBefore(rows, first, run)
  {
    var one :| one in runs;
    if runs == {one} {
      first := one;
    } else {
      var other := EarliestOf(rows, runs - {one});
      first := if ListedBefore(rows, one, other) then one else other;
      forall run | run in runs && run != first
        ensures ListedBefore(rows, first, run)
      {
        assert run == one || run == other || ListedBefore(rows, other, run);
      }
    }
  }

  // Every table has a listing.
  lemma ListingExists(rows: Rows, runs: set<RunId>) returns (jobs: seq<RunId>)
    requires runs <= rows.Keys
    ensures forall run :: run in jobs <==> run in runs
    ensures forall i, j :: 0 <= i < j < |jobs| ==> ListedBefore(rows, jobs[i], jobs[j])
    ensures (forall run: RunId :: run in runs <==> run in rows && rows[run].status == Queued) ==> QueuedListing(rows, jobs)
  {
    if runs == {} {
      jobs := [];
    } else {
      var first := EarliestOf(rows, runs);
      var rest := ListingExists(rows, runs - {first});
      jobs := [first] + rest;
    }
  }

  // The exit code a row may carry in each status.
  predicate ExitCodeFits(row: Row) {
    match row.status
    case Queued | Running | Cancelling => row.exitCode.None?
    case Cancelled => row.exitCode == Some(CANCELLED_EXIT)
    case TechnicalFailure => row.exitCode == Some(FAILURE_EXIT)
    case Completed => row.exitCode.Some? && row.exitCode.value != FAILURE_EXIT
  }

  ghost predicate ExitCodesFit(rows: Rows) {
    forall run :: run in rows ==> ExitCodeFits(rows[run])
  }

  // The run has been refused or asked to stop, or is over.
  predicate Stopped(rows: Rows, run: RunId) {
    run in rows && !rows[run].status.Queued? && !rows[run].status.Running?
  }

  // What one store transaction may do to the table: terminal rows are frozen, no
  // row goes back, a cancelling row never becomes completed, and codes keep fitting.
  ghost predicate Lawful(before: Rows, after: Rows) {
    && (forall run :: run in before ==> run in after)
    && (forall run :: run in before && Terminal(before[run].status) ==> after[run] == before[run])
    && (forall run :: run in before && before[run].status.Cancelling? ==> !after[run].status.Completed?)
    && (forall run :: Stopped(before, run) ==> Stopped(after, run))
    && (forall run :: run in before && after[run].status.Queued? ==> before[run].status.Queued?)
    && (forall run :: run in before ==> after[run].created == before[run].created)
    && (forall run :: run in after && run !in before ==> after[run] == FreshRow(after[run].created))
    && (ExitCodesFit(before) ==> ExitCodesFit(after))
  }

  // Any listing of the queued runs has no duplicates.
  lemma ListingDistinct(rows: Rows, jobs: seq<RunId>)
    requires QueuedListing(rows, jobs)
    ensures forall i, j :: 0 <= i < j < |jobs| ==> jobs[i] != jobs[j]
  {
    forall i, j | 0 <= i < j < |jobs|
      ensures jobs[i] != jobs[j]
    {
      assert ListedBefore(rows, jobs[i], jobs[j]);
    }
  }

  // The table differs in this run's row at most.
  ghost predicate ChangesOnly(before: Rows, after: Rows, run: RunId) {
    && before.Keys == after.Keys
    && (forall r :: r in before && r != run ==> after[r] == before[r])
  }

  class ApiStore {
    var rows: Rows

    constructor ()
      ensures rows == map[]
    {
      rows := map[];
    }

    // A duplicate primary key makes the INSERT fail and leaves the table alone.
    method CreateRun(run: RunId, created: nat) returns (inserted: bool)
      modifies this
      ensures inserted == (run !in old(rows))
      ensures inserted ==>
        && rows.Keys == old(rows).Keys + {run} && rows[run] == Row(Queued, None, None, None, false, created)
        && forall r :: r in old(rows) ==> rows[r] == old(rows)[r]
      ensures !inserted ==> rows == old(rows)
      ensures rows == if inserted then old(rows)[run := FreshRow(created)] else old(rows)
      ensures Lawful(old(rows), rows)
    {
      inserted := run !in rows;
      if inserted {
        rows := rows[run := FreshRow(created)];
      }
    }

    method MarkRunning(run: RunId) returns (updated: bool)
      modifies this
      ensures updated <==> run in old(rows) && old(rows)[run].status == Queued
      ensures ChangesOnly(old(rows), rows, run)
      ensures updated ==> rows[run] == old(rows)[run].(status := Running, failed := false)
      ensures !updated ==> rows == old(rows)
      ensures rows == WithRunning(old(rows), run)
      ensures Lawful(old(rows), rows)
    {
      updated := run in rows && rows[run].status == Queued;
      if updated {
        rows := rows[run := rows[run].(status := Running, failed := false)];
      }
    }

    method MarkFinished(run: RunId, exit: int, gate: Option<string>, failed: bool) returns (updated: bool)
      modifies this
      ensures updated <==> run in old(rows) && old(rows)[run].status == Running
      ensures ChangesOnly(old(rows), rows, run)
      ensures updated ==>
        rows[run] == Row(if exit == 2 then TechnicalFailure else Completed, Some(exit), gate,
                         old(rows)[run].reason, failed, old(rows)[run].created)
      ensures !updated ==> rows == old(rows)
      ensures rows == WithFinished(old(rows), run, exit, gate, failed)
      ensures Lawful(old(rows), rows)
    {
      var status := if exit == FAILURE_EXIT then TechnicalFailure else Completed;
      updated := run in rows && rows[run].status == Running;
      if updated {
        rows := rows[run := rows[run].(status := status, exitCode := Some(exit), gate := gate, failed := failed)];
      }
    }

    method MarkFailed(run: RunId)
      modifies this
      ensures ChangesOnly(old(rows), rows, run)
      ensures run in old(rows) && old(rows)[run].status in {Queued, Running, Cancelling} ==>
        rows[run] == Row(TechnicalFailure, Some(2), Some("fail"), old(rows)[run].reason, true, old(rows)[run].created)
      ensures run in old(rows) && old(rows)[run].status in {Cancelled, Completed, TechnicalFailure} ==>
        rows[run] == old(rows)[run]
      ensures rows == WithFailed(old(rows), run)
      ensures Lawful(old(rows), rows)
    {
      if run in rows && rows[run].status in {Queued, Running, Cancelling} {
        rows := rows[run := FailedRow(rows[run])];
      }
    }

    // The KeyError of a missing run is the result `false`.
    method RequestCancel(run: RunId, reason: string) returns (known: bool)
      modifies this
      ensures known == (run in old(rows))
      ensures ChangesOnly(old(rows), rows, run)
      ensures known && old(rows)[run].status == Queued ==>
        rows[run] == old(rows)[run].(status := Cancelled, exitCode := Some(130), reason := Some(reason))
      ensures known && old(rows)[run].status == Running ==>
        rows[run] == old(rows)[run].(status := Cancelling, reason := Some(reason))
      ensures known && old(rows)[run].status != Queued && old(rows)[run].status != Running ==>
        rows[run] == old(rows)[run]
      ensures rows == WithCancelRequested(old(rows), run, reason)
      ensures Lawful(old(rows), rows)
    {
      known := run in rows;
      if !known {
        return;
      }
      var row := rows[run];
      if row.status == Queued {
        rows := rows[run := row.(status := Cancelled, exitCode := Some(CANCELLED_EXIT), reason := Some(reason))];
      } else if row.status == Running {
        rows := rows[run := row.(status := Cancelling, reason := Some(reason))];
      }
    }

    method MarkCancelled(run: RunId) returns (updated: bool)
      modifies this
      ensures updated <==> run in old(rows) && old(rows)[run].status == Cancelling
      ensures ChangesOnly(old(rows), rows, run)
      ensures updated ==>
        rows[run] == old(rows)[run].(status := Cancelled, exitCode := Some(130), gate := None)
      ensures !updated ==> rows == old(rows)
      ensures rows == WithCancelled(old(rows), run)
      ensures Lawful(old(rows), rows)
    {
      updated := run in rows && rows[run].status == Cancelling;
      if updated {
        rows := rows[run := rows[run].(status := Cancelled, exitCode := Some(CANCELLED_EXIT), gate := None)];
      }
    }

    // One UPDATE over every row that a dead process left active.
    method RecoverAbandoned()
      modifies this
      ensures rows.Keys == old(rows).Keys
      ensures forall run :: run in old(rows) ==>
        rows[run] ==
          if old(rows)[run].status == Running || old(rows)[run].status == Cancelling
          then Row(TechnicalFailure, Some(2), Some("fail"), old(rows)[run].reason, true, old(rows)[run].created)
          else old(rows)[run]
      ensures rows == WithRecovered(old(rows))
      ensures Lawful(old(rows), rows)
    {
      var before := rows;
      var pending := rows.Keys;
      while pending != {}
        invariant pending <= before.Keys && rows.Keys == before.Keys
        invariant forall run :: run in before ==>
          rows[run] == if run in pending then before[run] else WithRecovered(before)[run]
        decreases |pending|
      {
        var run :| run in pending;
        if rows[run].status in {Running, Cancelling} {
          rows := rows[run := FailedRow(rows[run])];
        }
        pending := pending - {run};
      }
      assert rows == WithRecovered(before);
    }
  }
}
