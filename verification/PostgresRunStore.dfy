/** app/persistence/postgres_run_store.py: the run store as guarded updates of table rows. Each method is one
    transaction; rows that another transaction has locked, and the driver's errors, are not part of this model. */
module PostgresRunStore {
  import opened Common
  import opened Execution
  import opened RunRecords
  import opened StoreSpec

  /** A row of agent_runs: what the store returns, and two more timestamps. */
  datatype RunRow = RunRow(run: StoredRun, startedAt: Option<int>, completedAt: Option<int>)

  datatype OutboxRow = OutboxRow(runId: string, createdAt: int, publishedAt: Option<int>)

  datatype EventRow = EventRow(runId: string, event: StoredEvent)

  /** The tables, each as a map from its unique key or in insertion order; approval ids are positions. */
  datatype Tables = Tables(
    runs: map<string, RunRow>,
    steps: map<(string, StepKey), StoredStep>,
    approvals: seq<StoredApproval>,
    outbox: map<DispatchKey, OutboxRow>,
    events: seq<EventRow>)

  /** INSERT … ON CONFLICT (deduplication_key) DO NOTHING */
  function InsertDispatch(outbox: map<DispatchKey, OutboxRow>, runId: string, version: nat, now: int)
    : map<DispatchKey, OutboxRow>
  {
    if DispatchKey(runId, version) in outbox then outbox
    else outbox[DispatchKey(runId, version) := OutboxRow(runId, now, None)]
  }

  function CreateRow(db: Tables, r: NewRun): (Tables, Result<StoredRun>) {
    if r.runId in db.runs || DispatchKey(r.runId, 0) in db.outbox then (db, Err(RunExists))
    else
      var run := StoredRun(r.runId, r.sessionId, r.userMessage, Queued, 0, 0, None, None, None, None, None, None, None,
                           r.createdAt, r.createdAt);
      (db.(runs := db.runs[r.runId := RunRow(run, None, None)],
           outbox := db.outbox[DispatchKey(r.runId, 0) := OutboxRow(r.runId, r.createdAt, None)]),
       Ok(run))
  }

  function SelectRun(db: Tables, runId: string): Result<StoredRun> {
    if runId in db.runs then Ok(db.runs[runId].run) else Err(RunNotFound)
  }

  function ClaimRow(db: Tables, runId: string, workerId: string, leaseSeconds: int, now: int)
    : (Tables, Option<StoredRun>)
  {
    if && runId in db.runs
       && (db.runs[runId].run.status == Queued || db.runs[runId].run.status == RetryScheduled)
       && (db.runs[runId].run.leaseExpiresAt == None || db.runs[runId].run.leaseExpiresAt.value < now) then
      var row := db.runs[runId];
      var run := row.run.(status := Running, leaseOwner := Some(workerId), leaseExpiresAt := Some(now + leaseSeconds),
                          version := row.run.version + 1, updatedAt := now);
      var startedAt := if row.startedAt == None then Some(now) else row.startedAt;
      (db.(runs := db.runs[runId := RunRow(run, startedAt, row.completedAt)]), Some(run))
    else (db, None)
  }

  function RenewRow(db: Tables, runId: string, workerId: string, leaseSeconds: int, now: int): (Tables, bool) {
    if runId in db.runs && db.runs[runId].run.status == Running && db.runs[runId].run.leaseOwner == Some(workerId) then
      var row := db.runs[runId];
      (db.(runs := db.runs[runId :=
          row.(run := row.run.(leaseExpiresAt := Some(now + leaseSeconds), updatedAt := now))]), true)
    else (db, false)
  }

  function ReleaseRow(db: Tables, runId: string, workerId: string): (Tables, bool) {
    if runId in db.runs && db.runs[runId].run.leaseOwner == Some(workerId) then
      var row := db.runs[runId];
      (db.(runs := db.runs[runId := row.(run := row.run.(leaseOwner := None, leaseExpiresAt := None))]), true)
    else (db, false)
  }

  function SelectCompletedStep(db: Tables, runId: string, key: StepKey): Option<StoredStep> {
    if (runId, key) in db.steps && db.steps[(runId, key)].status == StepCompleted then Some(db.steps[(runId, key)])
    else None
  }

  /** The step row goes in unless its key is there; only then is the run updated. */
  function SaveRows(db: Tables, step: StoredStep, target: RunStatus, now: int): (Tables, Result<StoredRun>) {
    if step.runId !in db.runs then (db, Err(RunNotFound))
    else if (step.runId, step.key) in db.steps then (db, SelectRun(db, step.runId))
    else
      var row := db.runs[step.runId];
      var clear := target != Running;
      var run := row.run.(status := target, checkpoint := Some(step.checkpoint), version := row.run.version + 1,
                          updatedAt := now,
                          leaseOwner := if clear then None else row.run.leaseOwner,
                          leaseExpiresAt := if clear then None else row.run.leaseExpiresAt);
      var completedAt := if target.Terminal() then Some(now) else row.completedAt;
      (db.(steps := db.steps[(step.runId, step.key) := step],
           runs := db.runs[step.runId := RunRow(run, row.startedAt, completedAt)]), Ok(run))
  }

  /** The approval row goes in whatever the run's status; the run is updated only if it is RUNNING. */
  function InsertApproval(
    db: Tables, runId: string, stepId: string, toolName: string, arguments: Arguments, now: int)
    : (Tables, Result<StoredApproval>)
  {
    if runId !in db.runs then (db, Err(RunNotFound))
    else
      var approval := StoredApproval(runId, stepId, ApprovalPending, toolName, arguments);
      var inserted := db.(approvals := db.approvals + [approval]);
      var row := db.runs[runId];
      if row.run.status == Running then
        var run := row.run.(status := WaitingApproval, leaseOwner := None, leaseExpiresAt := None,
                            version := row.run.version + 1, updatedAt := now);
        (inserted.(runs := db.runs[runId := row.(run := run)]), Ok(approval))
      else (inserted, Ok(approval))
  }

  function DecideRows(db: Tables, approvalId: nat, approved: bool, now: int): (Tables, bool) {
    if && approvalId < |db.approvals| && db.approvals[approvalId].status == ApprovalPending
       && db.approvals[approvalId].runId in db.runs
       && db.runs[db.approvals[approvalId].runId].run.status == WaitingApproval then
      var approval := db.approvals[approvalId];
      var row := db.runs[approval.runId];
      var version := row.run.version + 1;
      var run := row.run.(status := Queued, version := version, updatedAt := now);
      (Tables(db.runs[approval.runId := row.(run := run)], db.steps,
              db.approvals[approvalId := approval.(status := if approved then Approved else ApprovalRejected)],
              InsertDispatch(db.outbox, approval.runId, version, now), db.events), true)
    else (db, false)
  }

  function CancelRow(db: Tables, runId: string, now: int): (Tables, Result<StoredRun>) {
    if runId !in db.runs then (db, Err(RunNotFound))
    else
      var row := db.runs[runId];
      if row.run.status.Terminal() then (db, SelectRun(db, runId))
      else if row.run.status == Running then
        var run := row.run.(cancelRequestedAt := Some(now), updatedAt := now);
        (db.(runs := db.runs[runId := row.(run := run)]), Ok(run))
      else
        var run := row.run.(cancelRequestedAt := Some(now), updatedAt := now, status := Canceled,
                            version := row.run.version + 1, leaseOwner := None, leaseExpiresAt := None);
        (db.(runs := db.runs[runId := RunRow(run, row.startedAt, Some(now))]), Ok(run))
  }

  /** Only a RUNNING row is updated. */
  function RetryRow(db: Tables, runId: string, at: int, code: string, message: string, now: int)
    : (Tables, Result<StoredRun>)
  {
    if runId !in db.runs then (db, Err(RunNotFound))
    else
      var row := db.runs[runId];
      if row.run.status == Running then
        var run := row.run.(status := RetryScheduled, version := row.run.version + 1, nextRetryAt := Some(at),
                            errorCode := Some(code), errorMessage := Some(message),
                            leaseOwner := None, leaseExpiresAt := None, updatedAt := now);
        (db.(runs := db.runs[runId := row.(run := run)]), Ok(run))
      else (db, SelectRun(db, runId))
  }

  // ---- Recovery ----

  predicate Eligible(kind: Recovery, run: StoredRun, now: int) {
    match kind
    case ExpiredLeases => run.status == Running && run.leaseExpiresAt.Some? && run.leaseExpiresAt.value < now
    case DueRetries => run.status == RetryScheduled && run.nextRetryAt.Some? && run.nextRetryAt.value <= now
  }

  function SortKey(kind: Recovery, run: StoredRun): int {
    match kind
    case ExpiredLeases => if run.leaseExpiresAt.Some? then run.leaseExpiresAt.value else 0
    case DueRetries => if run.nextRetryAt.Some? then run.nextRetryAt.value else 0
  }

  /** What SELECT … ORDER BY … LIMIT may return: eligible rows in order of time, and no later than any it leaves out. */
  ghost predicate Selects(kind: Recovery, db: Tables, limit: nat, now: int, ids: seq<string>) {
    && NoDuplicates(ids) && |ids| <= limit
    && (forall id <- ids :: id in db.runs && Eligible(kind, db.runs[id].run, now))
    && (forall i, j :: 0 <= i < j < |ids| ==>
          SortKey(kind, db.runs[ids[i]].run) <= SortKey(kind, db.runs[ids[j]].run))
    && forall id <- db.runs :: Eligible(kind, db.runs[id].run, now) && id !in ids ==>
          |ids| == limit && forall j <- ids :: SortKey(kind, db.runs[j].run) <= SortKey(kind, db.runs[id].run)
  }

  function RecoveredRun(kind: Recovery, run: StoredRun, now: int): StoredRun {
    match kind
    case ExpiredLeases =>
      run.(status := Queued, version := run.version + 1, attemptCount := run.attemptCount + 1,
           leaseOwner := None, leaseExpiresAt := None, updatedAt := now)
    case DueRetries => run.(status := Queued, version := run.version + 1, nextRetryAt := None, updatedAt := now)
  }

  function RecoverRow(kind: Recovery, db: Tables, id: string, now: int): Tables
    requires id in db.runs
  {
    var row := db.runs[id];
    db.(runs := db.runs[id := row.(run := RecoveredRun(kind, row.run, now))],
        outbox := InsertDispatch(db.outbox, id, row.run.version + 1, now))
  }

  /** The loop over the selected rows. */
  function RecoverRows(kind: Recovery, db: Tables, ids: seq<string>, now: int): (r: Tables)
    requires forall id <- ids :: id in db.runs
    ensures r.runs.Keys == db.runs.Keys
  {
    if ids == [] then db
    else RecoverRow(kind, RecoverRows(kind, db, ids[..|ids| - 1], now), ids[|ids| - 1], now)
  }

  lemma RecoverNextRow(kind: Recovery, db: Tables, ids: seq<string>, k: nat, now: int)
    requires k < |ids| && forall id <- ids :: id in db.runs
    ensures RecoverRows(kind, db, ids[..k + 1], now)
         == RecoverRow(kind, RecoverRows(kind, db, ids[..k], now), ids[k], now)
  {
    assert ids[..k + 1][..k] == ids[..k];
  }

  lemma {:induction false} RowAfter(kind: Recovery, db: Tables, ids: seq<string>, now: int, id: string)
    requires NoDuplicates(ids) && (forall i <- ids :: i in db.runs) && id in db.runs
    ensures RecoverRows(kind, db, ids, now).runs[id]
         == var row := db.runs[id]; if id in ids then row.(run := RecoveredRun(kind, row.run, now)) else row
  {
    if ids != [] {
      RowAfter(kind, db, ids[..|ids| - 1], now, id);
      RowAfter(kind, db, ids[..|ids| - 1], now, ids[|ids| - 1]);
    }
  }

  // ---- Events and the outbox ----

  function RowsOf(events: seq<EventRow>, runId: string): seq<StoredEvent> {
    if events == [] then []
    else
      var last := events[|events| - 1];
      RowsOf(events[..|events| - 1], runId) + if last.runId == runId then [last.event] else []
  }

  function InsertEvent(db: Tables, runId: string, event: Event, now: int): (Tables, Result<StoredEvent>) {
    if runId !in db.runs then (db, Err(RunNotFound))
    else
      var stored := StoredEvent(LargestSequence(RowsOf(db.events, runId)) + 1, event, now);
      (db.(events := db.events + [EventRow(runId, stored)]), Ok(stored))
  }

  /** ORDER BY sequence */
  function Ordered(rows: seq<StoredEvent>): seq<StoredEvent> {
    if rows == [] then [] else InOrder(Ordered(rows[..|rows| - 1]), rows[|rows| - 1])
  }

  function InOrder(rows: seq<StoredEvent>, row: StoredEvent): seq<StoredEvent> {
    if rows == [] || rows[|rows| - 1].sequence <= row.sequence then rows + [row]
    else InOrder(rows[..|rows| - 1], row) + [rows[|rows| - 1]]
  }

  function SelectEvents(db: Tables, runId: string, after: int, limit: nat): seq<StoredEvent> {
    Take(Ordered(Newer(RowsOf(db.events, runId), after)), limit)
  }

  /** What SELECT … WHERE published_at IS NULL ORDER BY created_at LIMIT may return: unpublished rows in order of time,
      and no later than any it leaves out. */
  ghost predicate SelectsUnpublished(db: Tables, limit: nat, keys: seq<DispatchKey>) {
    && NoDuplicates(keys) && |keys| <= limit
    && (forall key <- keys :: key in db.outbox && db.outbox[key].publishedAt.None?)
    && (forall i, j :: 0 <= i < j < |keys| ==> db.outbox[keys[i]].createdAt <= db.outbox[keys[j]].createdAt)
    && forall key <- db.outbox :: db.outbox[key].publishedAt.None? && key !in keys ==>
          |keys| == limit && forall k <- keys :: db.outbox[k].createdAt <= db.outbox[key].createdAt
  }

  function PublishRow(db: Tables, key: DispatchKey, now: int): (Tables, bool) {
    if key in db.outbox && db.outbox[key].publishedAt == None then
      (db.(outbox := db.outbox[key := db.outbox[key].(publishedAt := Some(now))]), true)
    else (db, false)
  }

  // ---- The transactions ----

  class PostgresRunStore {
    var runs: map<string, RunRow>
    var steps: map<(string, StepKey), StoredStep>
    var approvals: seq<StoredApproval>
    var outbox: map<DispatchKey, OutboxRow>
    var events: seq<EventRow>

    function Db(): Tables
      reads this
    {
      Tables(runs, steps, approvals, outbox, events)
    }

    constructor ()
      ensures Db() == Tables(map[], map[], [], map[], [])
    {
      runs, steps, approvals, outbox, events := map[], map[], [], map[], [];
    }

    method CreateRunWithOutbox(r: NewRun) returns (a: Result<StoredRun>)
      modifies this
      ensures (Db(), a) == CreateRow(old(Db()), r)
    {
      var key := DispatchKey(r.runId, 0);
      if r.runId in runs || key in outbox {
        return Err(RunExists);
      }
      var run := StoredRun(r.runId, r.sessionId, r.userMessage, Queued, 0, 0, None, None, None, None, None, None, None,
                           r.createdAt, r.createdAt);
      runs := runs[r.runId := RunRow(run, None, None)];
      outbox := outbox[key := OutboxRow(r.runId, r.createdAt, None)];
      a := Ok(run);
    }

    method ClaimRun(runId: string, workerId: string, leaseSeconds: int, now: int) returns (a: Option<StoredRun>)
      modifies `runs
      ensures (Db(), a) == ClaimRow(old(Db()), runId, workerId, leaseSeconds, now)
    {
      a := None;
      if runId in runs {
        var row := runs[runId];
        var claimable := row.run.status == Queued || row.run.status == RetryScheduled;
        var leaseFree := row.run.leaseExpiresAt == None || row.run.leaseExpiresAt.value < now;
        if claimable && leaseFree {
          var run := row.run.(status := Running, leaseOwner := Some(workerId),
                              leaseExpiresAt := Some(now + leaseSeconds),
                              version := row.run.version + 1, updatedAt := now);
          var startedAt := if row.startedAt == None then Some(now) else row.startedAt;
          runs := runs[runId := row.(run := run, startedAt := startedAt)];
          a := Some(run);
        }
      }
    }

    method RenewLease(runId: string, workerId: string, leaseSeconds: int, now: int) returns (done: bool)
      modifies `runs
      ensures (Db(), done) == RenewRow(old(Db()), runId, workerId, leaseSeconds, now)
    {
      done := runId in runs && runs[runId].run.status == Running && runs[runId].run.leaseOwner == Some(workerId);
      if done {
        var row := runs[runId];
        runs := runs[runId := row.(run := row.run.(leaseExpiresAt := Some(now + leaseSeconds), updatedAt := now))];
      }
    }

    method ReleaseLease(runId: string, workerId: string) returns (done: bool)
      modifies `runs
      ensures (Db(), done) == ReleaseRow(old(Db()), runId, workerId)
    {
      done := runId in runs && runs[runId].run.leaseOwner == Some(workerId);
      if done {
        var row := runs[runId];
        runs := runs[runId := row.(run := row.run.(leaseOwner := None, leaseExpiresAt := None))];
      }
    }

    method SaveStep(step: StoredStep, target: RunStatus, now: int) returns (a: Result<StoredRun>)
      modifies `runs, `steps
      ensures (Db(), a) == SaveRows(old(Db()), step, target, now)
    {
      if step.runId !in runs {
        return Err(RunNotFound);
      }
      if (step.runId, step.key) !in steps {
        steps := steps[(step.runId, step.key) := step];
        var row, clear := runs[step.runId], target != Running;
        var run := row.run.(status := target, checkpoint := Some(step.checkpoint), version := row.run.version + 1,
                            updatedAt := now,
                            leaseOwner := if clear then None else row.run.leaseOwner,
                            leaseExpiresAt := if clear then None else row.run.leaseExpiresAt);
        var completedAt := if target.Terminal() then Some(now) else row.completedAt;
        runs := runs[step.runId := row.(run := run, completedAt := completedAt)];
      }
      a := Ok(runs[step.runId].run);
    }

    method CreatePendingApproval(runId: string, stepId: string, toolName: string, arguments: Arguments, now: int)
      returns (a: Result<StoredApproval>)
      modifies `runs, `approvals
      ensures (Db(), a) == InsertApproval(old(Db()), runId, stepId, toolName, arguments, now)
    {
      if runId !in runs {
        return Err(RunNotFound);
      }
      var approval := StoredApproval(runId, stepId, ApprovalPending, toolName, arguments);
      approvals := approvals + [approval];
      var row := runs[runId];
      if row.run.status == Running {
        var run := row.run.(status := WaitingApproval, leaseOwner := None, leaseExpiresAt := None,
                            version := row.run.version + 1, updatedAt := now);
        runs := runs[runId := row.(run := run)];
      }
      a := Ok(approval);
    }

    method DecideApproval(approvalId: nat, approved: bool, now: int) returns (done: bool)
      modifies `runs, `approvals, `outbox
      ensures (Db(), done) == DecideRows(old(Db()), approvalId, approved, now)
    {
      if |approvals| <= approvalId || approvals[approvalId].status != ApprovalPending {
        return false;
      }
      var approval := approvals[approvalId];
      if approval.runId !in runs || runs[approval.runId].run.status != WaitingApproval {
        return false;
      }
      approvals := approvals[approvalId := approval.(status := if approved then Approved else ApprovalRejected)];
      var row := runs[approval.runId];
      var version := row.run.version + 1;
      runs := runs[approval.runId := row.(run := row.run.(status := Queued, version := version, updatedAt := now))];
      InsertDispatchOutbox(approval.runId, version, now);
      done := true;
    }

    method InsertDispatchOutbox(runId: string, version: nat, now: int)
      modifies `outbox
      ensures outbox == InsertDispatch(old(outbox), runId, version, now)
    {
      var key := DispatchKey(runId, version);
      if key !in outbox {
        outbox := outbox[key := OutboxRow(runId, now, None)];
      }
    }

    method RequestCancel(runId: string, now: int) returns (a: Result<StoredRun>)
      modifies `runs
      ensures (Db(), a) == CancelRow(old(Db()), runId, now)
    {
      if runId !in runs {
        return Err(RunNotFound);
      }
      var row := runs[runId];
      if !row.run.status.Terminal() {
        var run, completedAt := row.run.(cancelRequestedAt := Some(now), updatedAt := now), row.completedAt;
        if row.run.status != Running {
          run := run.(status := Canceled, version := row.run.version + 1, leaseOwner := None, leaseExpiresAt := None);
          completedAt := Some(now);
        }
        runs := runs[runId := row.(run := run, completedAt := completedAt)];
      }
      a := Ok(runs[runId].run);
    }

    method ScheduleRetry(runId: string, at: int, code: string, message: string, now: int) returns (a: Result<StoredRun>)
      modifies `runs
      ensures (Db(), a) == RetryRow(old(Db()), runId, at, code, message, now)
    {
      if runId !in runs {
        return Err(RunNotFound);
      }
      var row := runs[runId];
      if row.run.status == Running {
        var run := row.run.(status := RetryScheduled, version := row.run.version + 1, nextRetryAt := Some(at),
                            errorCode := Some(code), errorMessage := Some(message),
                            leaseOwner := None, leaseExpiresAt := None, updatedAt := now);
        runs := runs[runId := row.(run := run)];
      }
      a := Ok(runs[runId].run);
    }

    /** One turn of the loop: the row, back to QUEUED under the given version, and its dispatch record. */
    method RequeueRow(kind: Recovery, id: string, version: nat, now: int)
      requires id in runs && version == runs[id].run.version + 1
      modifies `runs, `outbox
      ensures Db() == RecoverRow(kind, old(Db()), id, now)
    {
      var row := runs[id];
      var run := row.run.(status := Queued, version := version, updatedAt := now);
      match kind {
        case ExpiredLeases =>
          run := run.(attemptCount := row.run.attemptCount + 1, leaseOwner := None, leaseExpiresAt := None);
        case DueRetries =>
          run := run.(nextRetryAt := None);
      }
      runs := runs[id := row.(run := run)];
      InsertDispatchOutbox(id, version, now);
    }

    /** Both requeues, given what their SELECT returned: ids and the versions read with them. */
    method Requeue(kind: Recovery, ids: seq<string>, versions: seq<nat>, now: int) returns (count: nat)
      requires NoDuplicates(ids) && |versions| == |ids|
      requires forall k :: 0 <= k < |ids| ==> ids[k] in runs && versions[k] == runs[ids[k]].run.version
      modifies `runs, `outbox
      ensures Db() == RecoverRows(kind, old(Db()), ids, now) && count == |ids|
    {
      for k := 0 to |ids|
        invariant Db() == RecoverRows(kind, old(Db()), ids[..k], now)
      {
        RecoverNextRow(kind, old(Db()), ids, k, now);
        RowAfter(kind, old(Db()), ids[..k], now, ids[k]);
        assert ids[k] !in ids[..k];
        RequeueRow(kind, ids[k], versions[k] + 1, now);
      }
      assert ids[..|ids|] == ids;
      count := |ids|;
    }

    method AppendEvent(runId: string, event: Event, now: int) returns (a: Result<StoredEvent>)
      modifies `events
      ensures (Db(), a) == InsertEvent(old(Db()), runId, event, now)
    {
      if runId !in runs {
        return Err(RunNotFound);
      }
      var sequence := LargestSequence(RowsOf(events, runId)) + 1;
      var stored := StoredEvent(sequence, event, now);
      events := events + [EventRow(runId, stored)];
      a := Ok(stored);
    }

    method MarkOutboxPublished(key: DispatchKey, now: int) returns (done: bool)
      modifies `outbox
      ensures (Db(), done) == PublishRow(old(Db()), key, now)
    {
      done := key in outbox && outbox[key].publishedAt == None;
      if done {
        outbox := outbox[key := outbox[key].(publishedAt := Some(now))];
      }
    }
  }
}
