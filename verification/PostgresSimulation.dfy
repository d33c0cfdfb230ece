/** The tables simulate the in-memory store: from related states each call gives equal results and related states. */
module PostgresSimulation {
  import opened Common
  import opened Execution
  import opened RunRecords
  import opened StoreSpec
  import opened PostgresRunStore

  // ---- The relation ----

  /** The table holds exactly these records, each under its deduplication key. */
  ghost predicate Holds(table: map<DispatchKey, OutboxRow>, outbox: seq<OutboxRecord>) {
    && (forall key {:trigger HasKey(outbox, key)} :: key in table <==> HasKey(outbox, key))
    && forall i :: 0 <= i < |outbox| ==> outbox[i].key in table && RowOf(table[outbox[i].key], outbox[i])
  }

  predicate RowOf(row: OutboxRow, record: OutboxRecord) {
    row.runId == record.runId && row.publishedAt == record.publishedAt
  }

  ghost predicate DistinctKeys(outbox: seq<OutboxRecord>) {
    forall i, j :: 0 <= i < j < |outbox| ==> outbox[i].key != outbox[j].key
  }

  ghost predicate SameRuns(s: Store, db: Tables) {
    db.runs.Keys == s.runs.Keys && forall id <- s.runs :: db.runs[id].run == s.runs[id]
  }

  ghost predicate SameOutbox(s: Store, db: Tables) {
    && DistinctKeys(s.outbox) && Holds(db.outbox, s.outbox)
    && forall i :: 0 <= i < |s.outbox| ==> s.outbox[i].key.runId in s.runs
  }

  ghost predicate SameEvents(s: Store, db: Tables) {
    && s.events.Keys == s.runs.Keys
    && (forall id <- s.events :: RowsOf(db.events, id) == s.events[id] && Numbered(s.events[id]))
    && forall r <- db.events :: r.runId in s.runs
  }

  ghost predicate Related(s: Store, db: Tables) {
    && SameRuns(s, db) && db.steps == s.steps && db.approvals == s.approvals && SameOutbox(s, db) && SameEvents(s, db)
    && NoDuplicates(s.order) && (forall id :: id in s.order <==> id in s.runs)
    && forall a <- s.approvals :: a.runId in s.runs
  }

  lemma EmptyRelated()
    ensures Related(EMPTY_STORE, Tables(map[], map[], [], map[], []))
  {
  }

  // ---- The outbox ----

  lemma HasMore(outbox: seq<OutboxRecord>, record: OutboxRecord, key: DispatchKey)
    ensures HasKey(outbox + [record], key) <==> HasKey(outbox, key) || key == record.key
  {
    var more := outbox + [record];
    assert more[|outbox|] == record;
    if HasKey(outbox, key) {
      var i :| 0 <= i < |outbox| && outbox[i].key == key;
      assert more[i].key == key;
    }
  }

  /** Adding a dispatch record is an insert that does nothing on conflict. */
  lemma AddIsInsert(table: map<DispatchKey, OutboxRow>, outbox: seq<OutboxRecord>, runId: string, version: nat,
                    now: int)
    requires DistinctKeys(outbox) && Holds(table, outbox)
    ensures Holds(InsertDispatch(table, runId, version, now), AddDispatch(outbox, runId, version))
    ensures DistinctKeys(AddDispatch(outbox, runId, version))
  {
    var key := DispatchKey(runId, version);
    if !HasKey(outbox, key) {
      var record := OutboxRecord(key, runId, None);
      var more := outbox + [record];
      forall k ensures HasKey(more, k) <==> HasKey(outbox, k) || k == key {
        HasMore(outbox, record, k);
      }
      forall i, j | 0 <= i < j < |more| ensures more[i].key != more[j].key {
        assert i < |outbox| && outbox[i].key != key;
      }
    }
  }

  lemma SameKeysHeld(outbox: seq<OutboxRecord>, marked: seq<OutboxRecord>, key: DispatchKey)
    requires |marked| == |outbox| && forall i :: 0 <= i < |outbox| ==> marked[i].key == outbox[i].key
    ensures HasKey(marked, key) <==> HasKey(outbox, key)
  {
    if HasKey(outbox, key) {
      var i :| 0 <= i < |outbox| && outbox[i].key == key;
      assert marked[i].key == key;
    }
  }

  /** Marking record i is updating the row with its key. */
  lemma MarkIsUpdate(table: map<DispatchKey, OutboxRow>, outbox: seq<OutboxRecord>, i: nat, at: Option<int>)
    requires DistinctKeys(outbox) && Holds(table, outbox) && i < |outbox|
    ensures var marked := outbox[i := outbox[i].(publishedAt := at)];
            && DistinctKeys(marked)
            && Holds(table[outbox[i].key := table[outbox[i].key].(publishedAt := at)], marked)
  {
    var marked := outbox[i := outbox[i].(publishedAt := at)];
    forall key ensures HasKey(marked, key) <==> HasKey(outbox, key) {
      SameKeysHeld(outbox, marked, key);
    }
    forall j | 0 <= j < |marked| && j != i ensures marked[j].key != outbox[i].key {
      assert outbox[j].key != outbox[i].key;
    }
  }

  // ---- Events ----

  lemma RowsMore(events: seq<EventRow>, row: EventRow, id: string)
    ensures RowsOf(events + [row], id) == RowsOf(events, id) + if row.runId == id then [row.event] else []
  {
    assert (events + [row])[..|events|] == events;
  }

  lemma {:induction false} NoRows(events: seq<EventRow>, id: string)
    requires forall r <- events :: r.runId != id
    ensures RowsOf(events, id) == []
  {
    if events != [] {
      NoRows(events[..|events| - 1], id);
    }
  }

  ghost predicate Ascending(log: seq<StoredEvent>) {
    forall i, j :: 0 <= i < j < |log| ==> log[i].sequence < log[j].sequence
  }

  lemma {:induction false} OrderedIsSame(log: seq<StoredEvent>)
    requires Ascending(log)
    ensures Ordered(log) == log
  {
    if log != [] {
      OrderedIsSame(log[..|log| - 1]);
    }
  }

  lemma {:induction false} NewerAscends(log: seq<StoredEvent>, after: int)
    requires Ascending(log)
    ensures Ascending(Newer(log, after))
    ensures forall e <- Newer(log, after) :: e in log
  {
    if log != [] {
      var init, last := log[..|log| - 1], log[|log| - 1];
      NewerAscends(init, after);
      forall e <- Newer(init, after) ensures e.sequence < last.sequence {
        var i :| 0 <= i < |init| && init[i] == e;
        assert log[i] == e;
      }
    }
  }

  // ---- One run changes ----

  lemma RunChanges(s: Store, db: Tables, id: string, row: RunRow)
    requires Related(s, db) && id in s.runs
    ensures Related(s.(runs := s.runs[id := row.run]), db.(runs := db.runs[id := row]))
  {
  }

  /** The same, with the states that follow named. */
  lemma RunSteps(s: Store, db: Tables, t: Store, u: Tables, id: string, row: RunRow)
    requires Related(s, db) && id in s.runs
    requires t == s.(runs := s.runs[id := row.run]) && u == db.(runs := db.runs[id := row])
    ensures Related(t, u)
  {
    RunChanges(s, db, id, row);
  }

  lemma OutboxGrows(s: Store, db: Tables, t: Store, u: Tables, id: string, version: nat, now: int)
    requires SameOutbox(s, db) && id in t.runs && s.runs.Keys <= t.runs.Keys
    requires t.outbox == AddDispatch(s.outbox, id, version) && u.outbox == InsertDispatch(db.outbox, id, version, now)
    ensures SameOutbox(t, u)
  {
    AddIsInsert(db.outbox, s.outbox, id, version, now);
  }

  lemma RunIsRequeued(s: Store, db: Tables, t: Store, u: Tables, id: string, row: RunRow, version: nat, now: int)
    requires Related(s, db) && id in s.runs
    requires t == s.(runs := s.runs[id := row.run], outbox := AddDispatch(s.outbox, id, version))
    requires u == db.(runs := db.runs[id := row], outbox := InsertDispatch(db.outbox, id, version, now))
    ensures Related(t, u)
  {
    RunReplaced(s, db, t, u, id, row);
    OutboxGrows(s, db, t, u, id, version, now);
    EventsStay(s, db, t, u);
  }

  lemma RunReplaced(s: Store, db: Tables, t: Store, u: Tables, id: string, row: RunRow)
    requires SameRuns(s, db) && id in s.runs
    requires t.runs == s.runs[id := row.run] && u.runs == db.runs[id := row]
    ensures SameRuns(t, u)
  {
  }

  lemma EventsStay(s: Store, db: Tables, t: Store, u: Tables)
    requires SameEvents(s, db) && t.events == s.events && u.events == db.events && t.runs.Keys == s.runs.Keys
    ensures SameEvents(t, u)
  {
  }

  lemma ApprovalIsDecided(s: Store, db: Tables, t: Store, u: Tables, id: string, row: RunRow, version: nat, now: int)
    requires Related(s, db) && id in s.runs && u.approvals == t.approvals
             && forall a <- t.approvals :: a.runId in s.runs
    requires t == s.(approvals := t.approvals, runs := s.runs[id := row.run],
                     outbox := AddDispatch(s.outbox, id, version))
    requires u == db.(approvals := u.approvals, runs := db.runs[id := row],
                      outbox := InsertDispatch(db.outbox, id, version, now))
    ensures Related(t, u)
  {
    ApprovalsChange(s, db, t.approvals);
    RunIsRequeued(s.(approvals := t.approvals), db.(approvals := t.approvals), t, u, id, row, version, now);
  }

  lemma StepsChange(s: Store, db: Tables, steps: map<(string, StepKey), StoredStep>)
    requires Related(s, db)
    ensures Related(s.(steps := steps), db.(steps := steps))
  {
  }

  lemma ApprovalsChange(s: Store, db: Tables, approvals: seq<StoredApproval>)
    requires Related(s, db) && forall a <- approvals :: a.runId in s.runs
    ensures Related(s.(approvals := approvals), db.(approvals := approvals))
  {
  }

  // ---- Calls ----

  /** A call of the protocol. A recovery and a listing of the outbox carry the rows that the SELECT returns. */
  datatype Call =
    | Create(newRun: NewRun)
    | Get(runId: string)
    | Claim(runId: string, workerId: string, leaseSeconds: int)
    | Renew(runId: string, workerId: string, leaseSeconds: int)
    | Release(runId: string, workerId: string)
    | Completed(runId: string, key: StepKey)
    | Save(step: StoredStep, target: RunStatus)
    | Ask(runId: string, stepId: string, toolName: string, arguments: Arguments)
    | Decide(approvalId: nat, approved: bool)
    | Cancel(runId: string)
    | Retry(runId: string, at: int, code: string, message: string)
    | RecoverBatch(kind: Recovery, limit: nat, selected: seq<string>)
    | Append(runId: string, event: Event)
    | Events(runId: string, after: int, limit: nat)
    | Publish(outboxId: nat)
    | Unpublished(limit: nat, rows: seq<DispatchKey>)

  datatype Answer =
    | RunAnswer(run: Result<StoredRun>)
    | ClaimAnswer(claimed: Option<StoredRun>)
    | YesNo(done: bool)
    | StepAnswer(step: Option<StoredStep>)
    | ApprovalAnswer(approval: Result<StoredApproval>)
    | Count(count: nat)
    | EventAnswer(event: Result<StoredEvent>)
    | EventsAnswer(events: seq<StoredEvent>)
    | Records(records: seq<OutboxRecord>)
    | Missing

  /** The records `list_unpublished_outbox` returns. */
  function FirstUnpublished(s: Store, limit: nat): (r: seq<OutboxRecord>)
    ensures |r| == |ListUnpublished(s, limit)|
    ensures forall k :: 0 <= k < |r| ==> r[k] == s.outbox[ListUnpublished(s, limit)[k]]
  {
    var ids := ListUnpublished(s, limit);
    seq(|ids|, k requires 0 <= k < |ids| => s.outbox[ids[k]])
  }

  function KeysOf(records: seq<OutboxRecord>): (r: seq<DispatchKey>)
    ensures |r| == |records| && forall k :: 0 <= k < |r| ==> r[k] == records[k].key
  {
    seq(|records|, k requires 0 <= k < |records| => records[k].key)
  }

  function RowRecords(db: Tables, keys: seq<DispatchKey>): (r: seq<OutboxRecord>)
    requires forall key <- keys :: key in db.outbox
    ensures |r| == |keys|
    ensures forall k :: 0 <= k < |r| ==>
              r[k] == OutboxRecord(keys[k], db.outbox[keys[k]].runId, db.outbox[keys[k]].publishedAt)
  {
    seq(|keys|, k requires 0 <= k < |keys| =>
        OutboxRecord(keys[k], db.outbox[keys[k]].runId, db.outbox[keys[k]].publishedAt))
  }

  function InMemory(s: Store, call: Call, now: int): (Store, Answer) {
    match call
    case Create(r) => var (t, a) := CreateRun(s, r); (t, RunAnswer(a))
    case Get(id) => (s, RunAnswer(GetRun(s, id)))
    case Claim(id, w, lease) =>
      var (t, a) := ClaimRun(s, id, w, lease, now);
      (t, match a case Ok(claimed) => ClaimAnswer(claimed) case Err(_) => Missing)
    case Renew(id, w, lease) => var (t, a) := RenewLease(s, id, w, lease, now); (t, YesNo(a))
    case Release(id, w) => var (t, a) := ReleaseLease(s, id, w); (t, YesNo(a))
    case Completed(id, key) => (s, StepAnswer(GetCompletedStep(s, id, key)))
    case Save(step, target) => var (t, a) := SaveStep(s, step, target, now); (t, RunAnswer(a))
    case Ask(id, stepId, tool, arguments) =>
      var (t, a) := CreatePendingApproval(s, id, stepId, tool, arguments, now); (t, ApprovalAnswer(a))
    case Decide(approvalId, approved) => var (t, a) := DecideApproval(s, approvalId, approved, now); (t, YesNo(a))
    case Cancel(id) => var (t, a) := RequestCancel(s, id, now); (t, RunAnswer(a))
    case Retry(id, at, code, message) => var (t, a) := ScheduleRetry(s, id, at, code, message, now); (t, RunAnswer(a))
    case RecoverBatch(kind, limit, _) => var (t, n) := RequeueBatch(kind, s, limit, now); (t, Count(n))
    case Append(id, event) => var (t, a) := AppendEvent(s, id, event, now); (t, EventAnswer(a))
    case Events(id, after, limit) => (s, EventsAnswer(ListEvents(s, id, after, limit)))
    case Publish(outboxId) => var (t, a) := MarkPublished(s, outboxId, now); (t, YesNo(a))
    case Unpublished(limit, _) => (s, Records(FirstUnpublished(s, limit)))
  }

  /** The same calls on the tables; `outbox` only names the record that an id stands for. */
  function InTables(outbox: seq<OutboxRecord>, db: Tables, call: Call, now: int): (Tables, Answer) {
    match call
    case Create(r) => var (t, a) := CreateRow(db, r); (t, RunAnswer(a))
    case Get(id) => (db, RunAnswer(SelectRun(db, id)))
    case Claim(id, w, lease) => var (t, a) := ClaimRow(db, id, w, lease, now); (t, ClaimAnswer(a))
    case Renew(id, w, lease) => var (t, a) := RenewRow(db, id, w, lease, now); (t, YesNo(a))
    case Release(id, w) => var (t, a) := ReleaseRow(db, id, w); (t, YesNo(a))
    case Completed(id, key) => (db, StepAnswer(SelectCompletedStep(db, id, key)))
    case Save(step, target) => var (t, a) := SaveRows(db, step, target, now); (t, RunAnswer(a))
    case Ask(id, stepId, tool, arguments) =>
      var (t, a) := InsertApproval(db, id, stepId, tool, arguments, now); (t, ApprovalAnswer(a))
    case Decide(approvalId, approved) => var (t, a) := DecideRows(db, approvalId, approved, now); (t, YesNo(a))
    case Cancel(id) => var (t, a) := CancelRow(db, id, now); (t, RunAnswer(a))
    case Retry(id, at, code, message) => var (t, a) := RetryRow(db, id, at, code, message, now); (t, RunAnswer(a))
    case RecoverBatch(kind, _, ids) =>
      if forall id <- ids :: id in db.runs then (RecoverRows(kind, db, ids, now), Count(|ids|)) else (db, Missing)
    case Append(id, event) => var (t, a) := InsertEvent(db, id, event, now); (t, EventAnswer(a))
    case Events(id, after, limit) => (db, EventsAnswer(SelectEvents(db, id, after, limit)))
    case Publish(outboxId) =>
      if outboxId < |outbox| then var (t, a) := PublishRow(db, outbox[outboxId].key, now); (t, YesNo(a))
      else (db, YesNo(false))
    case Unpublished(_, keys) =>
      if forall key <- keys :: key in db.outbox then (db, Records(RowRecords(db, keys))) else (db, Missing)
  }

  ghost predicate Simulated(s: Store, db: Tables, call: Call, now: int) {
    Same(InMemory(s, call, now), InTables(s.outbox, db, call, now))
  }

  ghost predicate Same(x: (Store, Answer), y: (Tables, Answer)) { x.1 == y.1 && Related(x.0, y.0) }

  // ---- Recovery in any order ----

  lemma {:induction false} RecoveredTogether(kind: Recovery, s: Store, db: Tables, ids: seq<string>, now: int)
    requires Related(s, db) && forall id <- ids :: id in s.runs
    ensures Related(RecoverAll(kind, s, ids, now), RecoverRows(kind, db, ids, now))
  {
    if ids != [] {
      var init, id := ids[..|ids| - 1], ids[|ids| - 1];
      RecoveredTogether(kind, s, db, init, now);
      RecoveredOnce(kind, RecoverAll(kind, s, init, now), RecoverRows(kind, db, init, now), id, now);
    }
  }

  /** In one step, what the in-memory loop does to a run. */
  lemma RecoverIs(kind: Recovery, s: Store, id: string, now: int)
    requires id in s.runs
    ensures Recover(kind, s, id, now)
         == s.(runs := s.runs[id := RecoveredRun(kind, s.runs[id], now)],
               outbox := AddDispatch(s.outbox, id, s.runs[id].version + 1))
  {
  }

  lemma RecoveredOnce(kind: Recovery, s: Store, db: Tables, id: string, now: int)
    requires Related(s, db) && id in s.runs
    ensures Related(Recover(kind, s, id, now), RecoverRow(kind, db, id, now))
  {
    var row := db.runs[id];
    var next := row.(run := RecoveredRun(kind, row.run, now));
    RecoverIs(kind, s, id, now);
    RunIsRequeued(s, db, Recover(kind, s, id, now), RecoverRow(kind, db, id, now), id, next, row.run.version + 1, now);
  }

  lemma {:induction false} OutboxAfter(kind: Recovery, db: Tables, ids: seq<string>, now: int, key: DispatchKey)
    requires NoDuplicates(ids) && forall i <- ids :: i in db.runs
    ensures var after := RecoverRows(kind, db, ids, now).outbox;
            var new_ := key.runId in ids && key.version == db.runs[key.runId].run.version + 1;
            && (key in after <==> key in db.outbox || new_)
            && (key in db.outbox ==> after[key] == db.outbox[key])
            && (key !in db.outbox && new_ ==> after[key] == OutboxRow(key.runId, now, None))
  {
    if ids != [] {
      OutboxAfter(kind, db, ids[..|ids| - 1], now, key);
      RowAfter(kind, db, ids[..|ids| - 1], now, ids[|ids| - 1]);
    }
  }

  lemma {:induction false} OthersAfter(kind: Recovery, db: Tables, ids: seq<string>, now: int)
    requires forall i <- ids :: i in db.runs
    ensures var r := RecoverRows(kind, db, ids, now);
            r.steps == db.steps && r.approvals == db.approvals && r.events == db.events
  {
    if ids != [] {
      OthersAfter(kind, db, ids[..|ids| - 1], now);
    }
  }

  /** The rows may be recovered in any order. */
  lemma OrderDoesNotMatter(kind: Recovery, db: Tables, a: seq<string>, b: seq<string>, now: int)
    requires NoDuplicates(a) && NoDuplicates(b) && SameElements(a, b) && forall i <- a :: i in db.runs
    ensures RecoverRows(kind, db, a, now) == RecoverRows(kind, db, b, now)
  {
    var x, y := RecoverRows(kind, db, a, now), RecoverRows(kind, db, b, now);
    OthersAfter(kind, db, a, now);
    OthersAfter(kind, db, b, now);
    SameRows(kind, db, a, b, now);
    SameOutboxes(kind, db, a, b, now);
  }

  lemma SameRows(kind: Recovery, db: Tables, a: seq<string>, b: seq<string>, now: int)
    requires NoDuplicates(a) && NoDuplicates(b) && SameElements(a, b) && forall i <- a :: i in db.runs
    ensures RecoverRows(kind, db, a, now).runs == RecoverRows(kind, db, b, now).runs
  {
    var x, y := RecoverRows(kind, db, a, now).runs, RecoverRows(kind, db, b, now).runs;
    forall id | id in db.runs ensures x[id] == y[id] {
      RowAfter(kind, db, a, now, id);
      RowAfter(kind, db, b, now, id);
    }
  }

  lemma SameOutboxes(kind: Recovery, db: Tables, a: seq<string>, b: seq<string>, now: int)
    requires NoDuplicates(a) && NoDuplicates(b) && SameElements(a, b) && forall i <- a :: i in db.runs
    ensures RecoverRows(kind, db, a, now).outbox == RecoverRows(kind, db, b, now).outbox
  {
    var x, y := RecoverRows(kind, db, a, now).outbox, RecoverRows(kind, db, b, now).outbox;
    forall key: DispatchKey ensures SameEntry(x, y, key) {
      OutboxAfter(kind, db, a, now, key);
      OutboxAfter(kind, db, b, now, key);
    }
    SameEntriesSameTable(x, y);
  }

  predicate SameEntry(x: map<DispatchKey, OutboxRow>, y: map<DispatchKey, OutboxRow>, key: DispatchKey) {
    (key in x <==> key in y) && (key in x ==> x[key] == y[key])
  }

  lemma SameEntriesSameTable(x: map<DispatchKey, OutboxRow>, y: map<DispatchKey, OutboxRow>)
    requires forall key: DispatchKey :: SameEntry(x, y, key)
    ensures x == y
  {
    forall key: DispatchKey ensures (key in x <==> key in y) && (key in x ==> x[key] == y[key]) {
      assert SameEntry(x, y, key);
    }
  }

  // ---- Call by call ----

  lemma CreateSimulated(s: Store, db: Tables, r: NewRun)
    requires Related(s, db)
    ensures CreateRun(s, r).1 == CreateRow(db, r).1 && Related(CreateRun(s, r).0, CreateRow(db, r).0)
  {
    if r.runId !in s.runs {
      NewRunIsNew(s, db, r);
      var row := CreateRow(db, r).0.runs[r.runId];
      RunAppears(s, db, CreateRun(s, r).0, CreateRow(db, r).0, row, r.createdAt);
    }
  }

  lemma NewRunIsNew(s: Store, db: Tables, r: NewRun)
    requires Related(s, db) && r.runId !in s.runs
    ensures DispatchKey(r.runId, 0) !in db.outbox && !HasKey(s.outbox, DispatchKey(r.runId, 0))
  {
    assert !HasKey(s.outbox, DispatchKey(r.runId, 0));
  }

  lemma LogAppears(s: Store, db: Tables, t: Store, u: Tables, id: string)
    requires SameEvents(s, db) && id !in s.runs && u.events == db.events
    requires t.events == s.events[id := []] && t.runs.Keys == s.runs.Keys + {id}
    ensures SameEvents(t, u)
  {
    NoRows(db.events, id);
  }

  lemma RunAppears(s: Store, db: Tables, t: Store, u: Tables, row: RunRow, at: int)
    requires Related(s, db) && row.run.runId !in s.runs && !HasKey(s.outbox, DispatchKey(row.run.runId, 0))
    requires var id := row.run.runId;
             && t == s.(runs := s.runs[id := row.run], order := s.order + [id], events := s.events[id := []],
                        outbox := AddDispatch(s.outbox, id, 0))
             && u == db.(runs := db.runs[id := row], outbox := InsertDispatch(db.outbox, id, 0, at))
    ensures Related(t, u)
  {
    var id := row.run.runId;
    OutboxGrows(s, db, t, u, id, 0, at);
    LogAppears(s, db, t, u, id);
  }

  lemma ClaimSimulated(s: Store, db: Tables, id: string, workerId: string, lease: int, now: int)
    requires Related(s, db) && id in s.runs
    ensures ClaimRun(s, id, workerId, lease, now).1 == Ok(ClaimRow(db, id, workerId, lease, now).1)
    ensures Related(ClaimRun(s, id, workerId, lease, now).0, ClaimRow(db, id, workerId, lease, now).0)
  {
    assert db.runs[id].run == s.runs[id];
    var t, u := ClaimRun(s, id, workerId, lease, now).0, ClaimRow(db, id, workerId, lease, now).0;
    ClaimIsTheUpdate(s, db, id, workerId, lease, now);
    if CanClaim(s, id, now) {
      RunSteps(s, db, t, u, id, u.runs[id]);
    }
  }

  lemma ClaimIsTheUpdate(s: Store, db: Tables, id: string, workerId: string, lease: int, now: int)
    requires id in s.runs && id in db.runs && db.runs[id].run == s.runs[id]
    ensures var (t, run), (u, returned) :=
              ClaimRun(s, id, workerId, lease, now), ClaimRow(db, id, workerId, lease, now);
            && run == Ok(returned)
            && if CanClaim(s, id, now) then
                 && id in u.runs && u == db.(runs := db.runs[id := u.runs[id]])
                 && t == s.(runs := s.runs[id := u.runs[id].run])
               else t == s && u == db
  {
  }

  lemma RenewSimulated(s: Store, db: Tables, id: string, workerId: string, lease: int, now: int)
    requires Related(s, db)
    ensures RenewLease(s, id, workerId, lease, now).1 == RenewRow(db, id, workerId, lease, now).1
    ensures Related(RenewLease(s, id, workerId, lease, now).0, RenewRow(db, id, workerId, lease, now).0)
  {
    if id in s.runs {
      var t, u := RenewLease(s, id, workerId, lease, now).0, RenewRow(db, id, workerId, lease, now).0;
      RunSteps(s, db, t, u, id, u.runs[id]);
    }
  }

  lemma ReleaseSimulated(s: Store, db: Tables, id: string, workerId: string)
    requires Related(s, db)
    ensures ReleaseLease(s, id, workerId).1 == ReleaseRow(db, id, workerId).1
    ensures Related(ReleaseLease(s, id, workerId).0, ReleaseRow(db, id, workerId).0)
  {
    if id in s.runs {
      var t, u := ReleaseLease(s, id, workerId).0, ReleaseRow(db, id, workerId).0;
      RunSteps(s, db, t, u, id, u.runs[id]);
    }
  }

  lemma StepCommits(s: Store, db: Tables, t: Store, u: Tables, id: string, row: RunRow)
    requires Related(s, db) && id in s.runs && u.steps == t.steps
    requires t == s.(steps := t.steps, runs := s.runs[id := row.run])
    requires u == db.(steps := u.steps, runs := db.runs[id := row])
    ensures Related(t, u)
  {
    StepsChange(s, db, t.steps);
    RunSteps(s.(steps := t.steps), db.(steps := t.steps), t, u, id, row);
  }

  lemma SaveSimulated(s: Store, db: Tables, step: StoredStep, target: RunStatus, now: int)
    requires Related(s, db)
    ensures SaveStep(s, step, target, now).1 == SaveRows(db, step, target, now).1
    ensures Related(SaveStep(s, step, target, now).0, SaveRows(db, step, target, now).0)
  {
    if step.runId in s.runs && (step.runId, step.key) !in s.steps {
      var t, u := SaveStep(s, step, target, now).0, SaveRows(db, step, target, now).0;
      StepCommits(s, db, t, u, step.runId, u.runs[step.runId]);
    }
  }

  lemma AskSimulatedIff(s: Store, db: Tables, id: string, stepId: string, tool: string, arguments: Arguments, now: int)
    requires Related(s, db)
    ensures var x, y := CreatePendingApproval(s, id, stepId, tool, arguments, now),
                        InsertApproval(db, id, stepId, tool, arguments, now);
            (x.1 == y.1 && Related(x.0, y.0)) <==> (id in s.runs ==> s.runs[id].status.Running?)
  {
    var t := CreatePendingApproval(s, id, stepId, tool, arguments, now).0;
    var u := InsertApproval(db, id, stepId, tool, arguments, now).0;
    if id in s.runs && s.runs[id].status.Running? {
      ApprovalsChange(s, db, t.approvals);
      RunSteps(s.(approvals := t.approvals), db.(approvals := t.approvals), t, u, id, u.runs[id]);
    }
  }

  lemma DecideSimulated(s: Store, db: Tables, approvalId: nat, approved: bool, now: int)
    requires Related(s, db)
    ensures DecideApproval(s, approvalId, approved, now).1 == DecideRows(db, approvalId, approved, now).1
    ensures Related(DecideApproval(s, approvalId, approved, now).0, DecideRows(db, approvalId, approved, now).0)
  {
    var t, u := DecideApproval(s, approvalId, approved, now).0, DecideRows(db, approvalId, approved, now).0;
    if CanDecide(s, approvalId) {
      var id := s.approvals[approvalId].runId;
      ApprovalIsDecided(s, db, t, u, id, u.runs[id], s.runs[id].version + 1, now);
    }
  }

  lemma CancelSimulated(s: Store, db: Tables, id: string, now: int)
    requires Related(s, db)
    ensures RequestCancel(s, id, now).1 == CancelRow(db, id, now).1
    ensures Related(RequestCancel(s, id, now).0, CancelRow(db, id, now).0)
  {
    var t, u := RequestCancel(s, id, now).0, CancelRow(db, id, now).0;
    if id in s.runs && !s.runs[id].Terminal() {
      RunSteps(s, db, t, u, id, u.runs[id]);
    }
  }

  lemma RetrySimulatedIff(s: Store, db: Tables, id: string, at: int, code: string, message: string, now: int)
    requires Related(s, db)
    ensures var x, y := ScheduleRetry(s, id, at, code, message, now), RetryRow(db, id, at, code, message, now);
            (x.1 == y.1 && Related(x.0, y.0)) <==> (id in s.runs ==> s.runs[id].status.Running?)
  {
    var t, u := ScheduleRetry(s, id, at, code, message, now).0, RetryRow(db, id, at, code, message, now).0;
    if id in s.runs && s.runs[id].status.Running? {
      RunSteps(s, db, t, u, id, u.runs[id]);
    }
  }

  lemma AppendSimulated(s: Store, db: Tables, id: string, event: Event, now: int)
    requires Related(s, db)
    ensures AppendEvent(s, id, event, now).1 == InsertEvent(db, id, event, now).1
    ensures Related(AppendEvent(s, id, event, now).0, InsertEvent(db, id, event, now).0)
  {
    if id in s.runs {
      NextNumberIsTheLength(s.events[id]);
      EventAppears(s, db, AppendEvent(s, id, event, now).0, InsertEvent(db, id, event, now).0, id,
                   StoredEvent(|s.events[id]|, event, now));
    }
  }

  lemma EventAppears(s: Store, db: Tables, t: Store, u: Tables, id: string, stored: StoredEvent)
    requires Related(s, db) && id in s.runs && stored.sequence == |s.events[id]|
    requires t == s.(events := s.events[id := s.events[id] + [stored]])
    requires u == db.(events := db.events + [EventRow(id, stored)])
    ensures Related(t, u)
  {
    forall i | i in t.events ensures RowsOf(u.events, i) == t.events[i] && Numbered(t.events[i]) {
      RowsMore(db.events, EventRow(id, stored), i);
    }
  }

  lemma EventsSimulated(s: Store, db: Tables, id: string, after: int, limit: nat)
    requires Related(s, db)
    ensures ListEvents(s, id, after, limit) == SelectEvents(db, id, after, limit)
  {
    if id in s.events {
      NewerAscends(s.events[id], after);
      OrderedIsSame(Newer(s.events[id], after));
    } else {
      NoRows(db.events, id);
    }
  }

  lemma PublishSimulated(s: Store, db: Tables, outboxId: nat, now: int)
    requires Related(s, db) && outboxId < |s.outbox|
    ensures MarkPublished(s, outboxId, now).1 == PublishRow(db, s.outbox[outboxId].key, now).1
    ensures Related(MarkPublished(s, outboxId, now).0, PublishRow(db, s.outbox[outboxId].key, now).0)
  {
    MarkIsUpdate(db.outbox, s.outbox, outboxId, Some(now));
  }

  // ---- Recovery batches ----

  lemma {:induction false} RecoverableMembers(kind: Recovery, s: Store, ids: seq<string>, now: int)
    ensures forall id :: id in RecoverableIn(kind, s, ids, now)
                    <==> id in ids && id in s.runs && Recoverable(kind, s.runs[id], now)
  {
    if ids != [] {
      RecoverableMembers(kind, s, ids[..|ids| - 1], now);
      assert forall id :: id in ids <==> id in ids[..|ids| - 1] || id == ids[|ids| - 1];
    }
  }

  lemma CandidatesAreDistinct(kind: Recovery, s: Store, limit: nat, now: int)
    requires NoDuplicates(s.order)
    ensures NoDuplicates(Candidates(kind, s, limit, now))
  {
    RecoverableDistinct(kind, s, s.order, now);
  }

  /** The batches agree exactly when both stores pick the same runs, in whatever order. */
  lemma BatchSimulatedIff(s: Store, db: Tables, kind: Recovery, limit: nat, selected: seq<string>, now: int)
    requires Related(s, db) && Selects(kind, db, limit, now, selected)
    ensures var (t, n) := RequeueBatch(kind, s, limit, now);
            (n == |selected| && Related(t, RecoverRows(kind, db, selected, now)))
            <==> SameElements(Candidates(kind, s, limit, now), selected)
  {
    var ids := Candidates(kind, s, limit, now);
    CandidatesAreDistinct(kind, s, limit, now);
    RecoveredTogether(kind, s, db, ids, now);
    if SameElements(ids, selected) {
      OrderDoesNotMatter(kind, db, ids, selected, now);
      SameSize(ids, selected);
    } else if Related(RecoverAll(kind, s, ids, now), RecoverRows(kind, db, selected, now)) {
      RelatedBatchesAreSame(kind, s, db, ids, selected, now);
      assert false;
    }
  }

  lemma RelatedBatchesAreSame(kind: Recovery, s: Store, db: Tables, ids: seq<string>, selected: seq<string>, now: int)
    requires Related(s, db) && NoDuplicates(ids) && NoDuplicates(selected)
    requires (forall id <- ids :: id in s.runs) && forall id <- selected :: id in db.runs
    requires Related(RecoverAll(kind, s, ids, now), RecoverRows(kind, db, ids, now))
    requires Related(RecoverAll(kind, s, ids, now), RecoverRows(kind, db, selected, now))
    ensures SameElements(ids, selected)
  {
    var t, u, v := RecoverAll(kind, s, ids, now), RecoverRows(kind, db, ids, now), RecoverRows(kind, db, selected, now);
    forall id | id in db.runs ensures u.runs[id].run == v.runs[id].run {
      assert id in t.runs;
    }
    SameVersionsSameIds(kind, db, ids, selected, now);
  }

  lemma SameVersionsSameIds(kind: Recovery, db: Tables, a: seq<string>, b: seq<string>, now: int)
    requires NoDuplicates(a) && NoDuplicates(b) && (forall id <- a :: id in db.runs) && forall id <- b :: id in db.runs
    requires forall id <- db.runs ::
               RecoverRows(kind, db, a, now).runs[id].run == RecoverRows(kind, db, b, now).runs[id].run
    ensures SameElements(a, b)
  {
    forall id ensures id in a <==> id in b {
      if id in db.runs {
        RowAfter(kind, db, a, now, id);
        RowAfter(kind, db, b, now, id);
      }
    }
  }

  /** A limit that covers all eligible rows makes both stores pick the same runs. */
  lemma CoveringLimitAgrees(s: Store, db: Tables, kind: Recovery, limit: nat, selected: seq<string>, now: int)
    requires Related(s, db) && Selects(kind, db, limit, now, selected)
    requires |RecoverableIn(kind, s, s.order, now)| <= limit
    ensures SameElements(Candidates(kind, s, limit, now), selected)
  {
    var eligible := RecoverableIn(kind, s, s.order, now);
    RecoverableMembers(kind, s, s.order, now);
    forall id ensures id in eligible <==> id in selected {
      if id in selected {
        assert Eligible(kind, db.runs[id].run, now);
      } else if id in eligible {
        assert Eligible(kind, db.runs[id].run, now);
        SubsetIsShorter(selected + [id], eligible);
        assert false;
      }
    }
  }

  // ---- All calls ----

  /** When a call means the same to both stores. */
  ghost predicate Agrees(s: Store, call: Call, now: int) {
    match call
    case Claim(id, _, _) => id in s.runs
    case Ask(id, _, _, _) => id in s.runs ==> s.runs[id].status.Running?
    case Retry(id, _, _, _) => id in s.runs ==> s.runs[id].status.Running?
    case RecoverBatch(kind, limit, selected) => SameElements(Candidates(kind, s, limit, now), selected)
    case Unpublished(limit, rows) => rows == KeysOf(FirstUnpublished(s, limit))
    case _ => true
  }

  /** The rows of a recovery or a listing are ones its SELECT may return. */
  ghost predicate Admissible(db: Tables, call: Call, now: int) {
    && (call.RecoverBatch? ==> Selects(call.kind, db, call.limit, now, call.selected))
    && (call.Unpublished? ==> SelectsUnpublished(db, call.limit, call.rows))
  }

  // Answers paired with their states: what a call comes to, without the other calls in sight.

  lemma ClaimIff(s: Store, db: Tables, id: string, w: string, lease: int, now: int)
    requires Related(s, db)
    ensures Same(InMemory(s, Claim(id, w, lease), now), InTables(s.outbox, db, Claim(id, w, lease), now))
            <==> id in s.runs
  {
    if id in s.runs {
      ClaimSimulated(s, db, id, w, lease, now);
    }
  }

  lemma AskIff(s: Store, db: Tables, id: string, stepId: string, tool: string, arguments: Arguments, now: int)
    requires Related(s, db)
    ensures var call := Ask(id, stepId, tool, arguments);
            Same(InMemory(s, call, now), InTables(s.outbox, db, call, now))
            <==> (id in s.runs ==> s.runs[id].status.Running?)
  {
    AskSimulatedIff(s, db, id, stepId, tool, arguments, now);
  }

  lemma RetryIff(s: Store, db: Tables, id: string, at: int, code: string, message: string, now: int)
    requires Related(s, db)
    ensures var call := Retry(id, at, code, message);
            Same(InMemory(s, call, now), InTables(s.outbox, db, call, now))
            <==> (id in s.runs ==> s.runs[id].status.Running?)
  {
    RetrySimulatedIff(s, db, id, at, code, message, now);
  }

  lemma BatchCall(s: Store, outbox: seq<OutboxRecord>, db: Tables, kind: Recovery, limit: nat, selected: seq<string>,
                  now: int)
    requires forall id <- selected :: id in db.runs
    ensures var call, batch := RecoverBatch(kind, limit, selected), RequeueBatch(kind, s, limit, now);
            && InMemory(s, call, now) == (batch.0, Count(batch.1))
            && InTables(outbox, db, call, now) == (RecoverRows(kind, db, selected, now), Count(|selected|))
  {
  }

  lemma BatchIff(s: Store, db: Tables, kind: Recovery, limit: nat, selected: seq<string>, now: int, x: (Store, Answer),
                 y: (Tables, Answer))
    requires Related(s, db) && Selects(kind, db, limit, now, selected)
    requires x == (RequeueBatch(kind, s, limit, now).0, Count(RequeueBatch(kind, s, limit, now).1))
    requires y == (RecoverRows(kind, db, selected, now), Count(|selected|))
    ensures Same(x, y) <==> SameElements(Candidates(kind, s, limit, now), selected)
  {
    BatchSimulatedIff(s, db, kind, limit, selected, now);
  }

  lemma RecoverySimulatedIff(s: Store, db: Tables, kind: Recovery, limit: nat, selected: seq<string>, now: int)
    requires Related(s, db) && Selects(kind, db, limit, now, selected)
    ensures var call := RecoverBatch(kind, limit, selected);
            Simulated(s, db, call, now) <==> SameElements(Candidates(kind, s, limit, now), selected)
  {
    var call := RecoverBatch(kind, limit, selected);
    BatchCall(s, s.outbox, db, kind, limit, selected, now);
    BatchIff(s, db, kind, limit, selected, now, InMemory(s, call, now), InTables(s.outbox, db, call, now));
  }

  lemma UnpublishedIff(s: Store, db: Tables, limit: nat, rows: seq<DispatchKey>, now: int)
    requires Related(s, db) && SelectsUnpublished(db, limit, rows)
    ensures var call := Unpublished(limit, rows);
            Same(InMemory(s, call, now), InTables(s.outbox, db, call, now))
            <==> rows == KeysOf(FirstUnpublished(s, limit))
  {
    assert InTables(s.outbox, db, Unpublished(limit, rows), now) == (db, Records(RowRecords(db, rows)));
    var a, b := FirstUnpublished(s, limit), RowRecords(db, rows);
    if a == b {
      assert KeysOf(a) == rows;
    }
    if rows == KeysOf(a) {
      forall k | 0 <= k < |a| ensures a[k] == b[k] {
        assert KeysOf(a)[k] == rows[k];
      }
    }
  }

  lemma ChangeSimulated(s: Store, db: Tables, call: Call, now: int)
    requires Related(s, db) && (call.Create? || call.Renew? || call.Release? || call.Save? || call.Decide?
                                || call.Cancel?)
    ensures Simulated(s, db, call, now)
  {
    match call
    case Create(r) => CreateSimulated(s, db, r);
    case Renew(id, w, lease) => RenewSimulated(s, db, id, w, lease, now);
    case Release(id, w) => ReleaseSimulated(s, db, id, w);
    case Save(step, target) => SaveSimulated(s, db, step, target, now);
    case Decide(approvalId, approved) => DecideSimulated(s, db, approvalId, approved, now);
    case Cancel(id) => CancelSimulated(s, db, id, now);
  }

  lemma QuerySimulated(s: Store, db: Tables, call: Call, now: int)
    requires Related(s, db) && (call.Get? || call.Completed? || call.Events?)
    ensures Simulated(s, db, call, now)
  {
    match call
    case Get(id) =>
    case Completed(id, key) =>
    case Events(id, after, limit) => EventsSimulated(s, db, id, after, limit);
  }

  lemma AppendCall(s: Store, db: Tables, id: string, event: Event, now: int)
    requires Related(s, db)
    ensures Simulated(s, db, Append(id, event), now)
  {
    AppendSimulated(s, db, id, event, now);
  }

  lemma PublishCall(s: Store, db: Tables, outboxId: nat, now: int)
    requires Related(s, db)
    ensures Simulated(s, db, Publish(outboxId), now)
  {
    if outboxId < |s.outbox| {
      PublishSimulated(s, db, outboxId, now);
      var (t, a) := MarkPublished(s, outboxId, now);
      var (u, b) := PublishRow(db, s.outbox[outboxId].key, now);
      SameSimulated(s, db, Publish(outboxId), now, (t, YesNo(a)), (u, YesNo(b)));
    }
  }

  lemma SameSimulated(s: Store, db: Tables, call: Call, now: int, x: (Store, Answer), y: (Tables, Answer))
    requires Same(x, y) && x == InMemory(s, call, now) && y == InTables(s.outbox, db, call, now)
    ensures Simulated(s, db, call, now)
  {
  }

  /** Calls that only some states answer alike. */
  predicate Guarded(call: Call) { call.Claim? || call.Ask? || call.Retry? }

  lemma GuardedSimulatedIff(s: Store, db: Tables, call: Call, now: int)
    requires Related(s, db) && Guarded(call)
    ensures Simulated(s, db, call, now) <==> Agrees(s, call, now)
  {
    match call
    case Claim(id, w, lease) => ClaimIff(s, db, id, w, lease, now);
    case Ask(id, stepId, tool, arguments) => AskIff(s, db, id, stepId, tool, arguments, now);
    case Retry(id, at, code, message) => RetryIff(s, db, id, at, code, message, now);
  }

  lemma SelectionSimulatedIff(s: Store, db: Tables, call: Call, now: int)
    requires Related(s, db) && Admissible(db, call, now) && (call.RecoverBatch? || call.Unpublished?)
    ensures Simulated(s, db, call, now) <==> Agrees(s, call, now)
  {
    if call.RecoverBatch? {
      RecoverySimulatedIff(s, db, call.kind, call.limit, call.selected, now);
    } else {
      UnpublishedIff(s, db, call.limit, call.rows, now);
    }
  }

  /** A call has equal results and leads to related states exactly when the claimed run exists, the run that asks for
      approval or a retry is RUNNING, the recovery batches coincide, or the listed rows are the first unpublished
      records; every other call always does. */
  lemma SimulatedIff(s: Store, db: Tables, call: Call, now: int)
    requires Related(s, db) && Admissible(db, call, now)
    ensures Simulated(s, db, call, now) <==> Agrees(s, call, now)
  {
    if Guarded(call) {
      GuardedSimulatedIff(s, db, call, now);
    } else if call.RecoverBatch? || call.Unpublished? {
      SelectionSimulatedIff(s, db, call, now);
    } else if call.Get? || call.Completed? || call.Events? {
      QuerySimulated(s, db, call, now);
    } else if call.Append? {
      AppendCall(s, db, call.runId, call.event, now);
    } else if call.Publish? {
      PublishCall(s, db, call.outboxId, now);
    } else {
      ChangeSimulated(s, db, call, now);
    }
  }

  // ---- Whole histories ----

  datatype Timed = Timed(call: Call, now: int)

  function After(calls: seq<Timed>): (Store, Tables) {
    if calls == [] then (EMPTY_STORE, Tables(map[], map[], [], map[], []))
    else
      var (s, db) := After(calls[..|calls| - 1]);
      var last := calls[|calls| - 1];
      (InMemory(s, last.call, last.now).0, InTables(s.outbox, db, last.call, last.now).0)
  }

  ghost predicate AllAgree(calls: seq<Timed>) {
    calls == [] ||
    var before, last := After(calls[..|calls| - 1]), calls[|calls| - 1];
    AllAgree(calls[..|calls| - 1]) && Admissible(before.1, last.call, last.now) && Agrees(before.0, last.call, last.now)
  }

  /** From the empty stores on, as long as every call agrees, the tables are related to the in-memory store. */
  lemma {:induction false} HistoriesStayRelated(calls: seq<Timed>)
    requires AllAgree(calls)
    ensures Related(After(calls).0, After(calls).1)
  {
    if calls == [] {
      EmptyRelated();
    } else {
      var before, last := After(calls[..|calls| - 1]), calls[|calls| - 1];
      HistoriesStayRelated(calls[..|calls| - 1]);
      SimulatedIff(before.0, before.1, last.call, last.now);
    }
  }

  /** And every answer along the way is the same. */
  lemma HistoriesAnswerAlike(calls: seq<Timed>, k: nat)
    requires AllAgree(calls) && k < |calls|
    ensures var (s, db) := After(calls[..k]);
            InMemory(s, calls[k].call, calls[k].now).1 == InTables(s.outbox, db, calls[k].call, calls[k].now).1
  {
    if k == |calls| - 1 {
      HistoriesStayRelated(calls[..k]);
      SimulatedIff(After(calls[..k]).0, After(calls[..k]).1, calls[k].call, calls[k].now);
    } else {
      HistoriesAnswerAlike(calls[..|calls| - 1], k);
      assert calls[..|calls| - 1][..k] == calls[..k];
    }
  }
}
