/** The two time stamps that only the Postgres rows have: when a run was first claimed, and when it ended. */
module PostgresStamps {
  import opened Common
  import opened Execution
  import opened RunRecords
  import opened StoreSpec
  import opened PostgresRunStore
  import opened PostgresSimulation

  /** The tables after these calls. */
  function TablesAfter(calls: seq<Timed>): Tables { After(calls).1 }

  /** A run that has ended carries the time of the call that last touched it. */
  predicate EndedInTime(row: RunRow) { row.run.status.Terminal() ==> row.completedAt == Some(row.run.updatedAt) }

  ghost predicate AllEndedInTime(db: Tables) {
    forall id {:trigger EndedInTime(db.runs[id])} :: id in db.runs ==> EndedInTime(db.runs[id])
  }

  /** What a call may do to the row of a run, as far as its stamps go. */
  predicate StampsMove(before: RunRow, after: RunRow, claimed: bool, now: int) {
    && after.startedAt == (if claimed && before.startedAt.None? then Some(now) else before.startedAt)
    && (EndedInTime(before) ==> EndedInTime(after))
    && (after.completedAt == before.completedAt || (after.completedAt == Some(now) && after.run.status.Terminal()))
  }

  /** The call claims the run. */
  predicate ClaimsRun(db: Tables, call: Call, now: int, id: string) {
    call.Claim? && call.runId == id && ClaimRow(db, call.runId, call.workerId, call.leaseSeconds, now).1.Some?
  }

  ghost predicate Moves(db: Tables, t: Tables, call: Call, now: int) {
    && db.runs.Keys <= t.runs.Keys
    && (forall id {:trigger t.runs[id]} :: id in db.runs ==>
          StampsMove(db.runs[id], t.runs[id], ClaimsRun(db, call, now, id), now))
    && forall id {:trigger t.runs[id]} :: id in t.runs && id !in db.runs ==>
         t.runs[id].startedAt.None? && t.runs[id].completedAt.None? && t.runs[id].run.status.Queued?
  }

  lemma RowsMove(outbox: seq<OutboxRecord>, db: Tables, call: Call, now: int)
    requires call.Create? || call.Claim? || call.Renew? || call.Release? || call.Retry?
    ensures Moves(db, InTables(outbox, db, call, now).0, call, now)
  {
  }

  lemma OtherRowsMove(outbox: seq<OutboxRecord>, db: Tables, call: Call, now: int)
    requires call.Save? || call.Ask? || call.Decide? || call.Cancel?
    ensures Moves(db, InTables(outbox, db, call, now).0, call, now)
  {
  }

  lemma NoRowMoves(outbox: seq<OutboxRecord>, db: Tables, call: Call, now: int)
    requires call.Get? || call.Completed? || call.Append? || call.Events? || call.Publish? || call.Unpublished?
    ensures Moves(db, InTables(outbox, db, call, now).0, call, now)
  {
  }

  lemma {:induction false} RecoveredRowsMove(kind: Recovery, db: Tables, ids: seq<string>, now: int, id: string)
    requires (forall i <- ids :: i in db.runs) && id in db.runs
    ensures var before, after := db.runs[id], RecoverRows(kind, db, ids, now).runs[id];
            && after.startedAt == before.startedAt && after.completedAt == before.completedAt
            && (after.run.status.Terminal() ==> after == before)
  {
    if ids != [] {
      RecoveredRowsMove(kind, db, ids[..|ids| - 1], now, id);
    }
  }

  lemma CallMoves(outbox: seq<OutboxRecord>, db: Tables, call: Call, now: int)
    ensures Moves(db, InTables(outbox, db, call, now).0, call, now)
  {
    if call.RecoverBatch? {
      if forall id <- call.selected :: id in db.runs {
        forall id | id in db.runs
          ensures StampsMove(db.runs[id], RecoverRows(call.kind, db, call.selected, now).runs[id], false, now) {
          RecoveredRowsMove(call.kind, db, call.selected, now, id);
        }
      }
    } else if call.Create? || call.Claim? || call.Renew? || call.Release? || call.Retry? {
      RowsMove(outbox, db, call, now);
    } else if call.Save? || call.Ask? || call.Decide? || call.Cancel? {
      OtherRowsMove(outbox, db, call, now);
    } else {
      NoRowMoves(outbox, db, call, now);
    }
  }

  /** The time of the first call that claimed the run. */
  function FirstClaim(calls: seq<Timed>, id: string): Option<int> {
    if calls == [] then None
    else
      var init, last := calls[..|calls| - 1], calls[|calls| - 1];
      var earlier := FirstClaim(init, id);
      if earlier.Some? then earlier
      else if ClaimsRun(TablesAfter(init), last.call, last.now, id) then Some(last.now) else None
  }

  lemma {:induction false} UnknownIsUnclaimed(calls: seq<Timed>, id: string)
    requires id !in TablesAfter(calls).runs
    ensures FirstClaim(calls, id) == None
  {
    if calls != [] {
      var init, last := calls[..|calls| - 1], calls[|calls| - 1];
      CallMoves(After(init).0.outbox, TablesAfter(init), last.call, last.now);
      UnknownIsUnclaimed(init, id);
    }
  }

  /** After any history of calls: a run's `started_at` is the time of its first claim, and a run that has ended has as
      its `completed_at` the time of the call that last touched it. */
  lemma {:induction false} StampsAreTrue(calls: seq<Timed>, id: string)
    requires id in TablesAfter(calls).runs
    ensures TablesAfter(calls).runs[id].startedAt == FirstClaim(calls, id)
    ensures EndedInTime(TablesAfter(calls).runs[id])
  {
    if calls != [] {
      var init, last := calls[..|calls| - 1], calls[|calls| - 1];
      CallMoves(After(init).0.outbox, TablesAfter(init), last.call, last.now);
      if id in TablesAfter(init).runs {
        StampsAreTrue(init, id);
      } else {
        UnknownIsUnclaimed(init, id);
      }
    }
  }
}
