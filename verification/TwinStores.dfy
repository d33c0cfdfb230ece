/** The two implementations of the `RunStore` protocol side by side: the in-memory object and the Postgres object,
    called alike, stay related and answer alike exactly when the calls agree. */
module TwinStores {
  import opened Common
  import opened Execution
  import opened RunRecords
  import opened StoreSpec
  import opened PostgresSimulation
  import Memory = RunStore
  import Postgres = PostgresRunStore

  /** A call on the in-memory store. */
  method CallMemory(store: Memory.InMemoryRunStore, call: Call, now: int) returns (a: Answer)
    requires Valid(store.View())
    modifies store
    ensures (store.View(), a) == InMemory(old(store.View()), call, now)
  {
    match call {
      case Create(r) =>
        var x := store.CreateRunWithOutbox(r);
        a := RunAnswer(x);
      case Get(id) =>
        var x := store.GetRun(id);
        a := RunAnswer(x);
      case Claim(id, w, lease) =>
        var x := store.ClaimRun(id, w, lease, now);
        a := if x.Ok? then ClaimAnswer(x.value) else Missing;
      case Renew(id, w, lease) =>
        var x := store.RenewLease(id, w, lease, now);
        a := YesNo(x);
      case Release(id, w) =>
        var x := store.ReleaseLease(id, w);
        a := YesNo(x);
      case Completed(id, key) =>
        var x := store.GetCompletedStep(id, key);
        a := StepAnswer(x);
      case Save(step, target) =>
        var x := store.SaveStep(step, target, now);
        a := RunAnswer(x);
      case Ask(id, stepId, tool, arguments) =>
        var x := store.CreatePendingApproval(id, stepId, tool, arguments, now);
        a := ApprovalAnswer(x);
      case Decide(approvalId, approved) =>
        var x := store.DecideApproval(approvalId, approved, now);
        a := YesNo(x);
      case Cancel(id) =>
        var x := store.RequestCancel(id, now);
        a := RunAnswer(x);
      case Retry(id, at, code, message) =>
        var x := store.ScheduleRetry(id, at, code, message, now);
        a := RunAnswer(x);
      case RecoverBatch(kind, limit, _) =>
        var x := store.RequeueWithOutbox(kind, limit, now);
        a := Count(x);
      case Append(id, event) =>
        var x := store.AppendEvent(id, event, now);
        a := EventAnswer(x);
      case Events(id, after, limit) =>
        var x := store.ListEvents(id, after, limit);
        a := EventsAnswer(x);
      case Publish(outboxId) =>
        var x := store.MarkOutboxPublished(outboxId, now);
        a := YesNo(x);
      case Unpublished(limit, _) =>
        var x := ListMemory(store, limit);
        a := Records(x);
    }
  }

  method ListMemory(store: Memory.InMemoryRunStore, limit: nat) returns (records: seq<OutboxRecord>)
    ensures records == FirstUnpublished(store.View(), limit)
  {
    var ids := store.ListUnpublishedOutbox(limit);
    records := seq(|ids|, k requires 0 <= k < |ids| && ids[k] < |store.outbox| reads store => store.outbox[ids[k]]);
  }

  /** The same call on the Postgres store; `outbox` only names the record that an id stands for. */
  method CallPostgres(store: Postgres.PostgresRunStore, outbox: seq<OutboxRecord>, call: Call, now: int)
    returns (a: Answer)
    requires call.RecoverBatch? ==> NoDuplicates(call.selected)
    modifies store
    ensures (store.Db(), a) == InTables(outbox, old(store.Db()), call, now)
  {
    match call {
      case Create(r) =>
        var x := store.CreateRunWithOutbox(r);
        a := RunAnswer(x);
      case Get(id) =>
        a := RunAnswer(Postgres.SelectRun(store.Db(), id));
      case Claim(id, w, lease) =>
        var x := store.ClaimRun(id, w, lease, now);
        a := ClaimAnswer(x);
      case Renew(id, w, lease) =>
        var x := store.RenewLease(id, w, lease, now);
        a := YesNo(x);
      case Release(id, w) =>
        var x := store.ReleaseLease(id, w);
        a := YesNo(x);
      case Completed(id, key) =>
        a := StepAnswer(Postgres.SelectCompletedStep(store.Db(), id, key));
      case Save(step, target) =>
        var x := store.SaveStep(step, target, now);
        a := RunAnswer(x);
      case Ask(id, stepId, tool, arguments) =>
        var x := store.CreatePendingApproval(id, stepId, tool, arguments, now);
        a := ApprovalAnswer(x);
      case Decide(approvalId, approved) =>
        var x := store.DecideApproval(approvalId, approved, now);
        a := YesNo(x);
      case Cancel(id) =>
        var x := store.RequestCancel(id, now);
        a := RunAnswer(x);
      case Retry(id, at, code, message) =>
        var x := store.ScheduleRetry(id, at, code, message, now);
        a := RunAnswer(x);
      case RecoverBatch(kind, _, ids) =>
        if forall id <- ids :: id in store.runs {
          var versions := seq(|ids|, k requires 0 <= k < |ids| && ids[k] in store.runs reads store =>
                                store.runs[ids[k]].run.version);
          var x := store.Requeue(kind, ids, versions, now);
          a := Count(x);
        } else {
          a := Missing;
        }
      case Append(id, event) =>
        var x := store.AppendEvent(id, event, now);
        a := EventAnswer(x);
      case Events(id, after, limit) =>
        a := EventsAnswer(Postgres.SelectEvents(store.Db(), id, after, limit));
      case Publish(outboxId) =>
        if outboxId < |outbox| {
          var x := store.MarkOutboxPublished(outbox[outboxId].key, now);
          a := YesNo(x);
        } else {
          a := YesNo(false);
        }
      case Unpublished(_, keys) =>
        if forall key <- keys :: key in store.outbox {
          a := Records(RowRecords(store.Db(), keys));
        } else {
          a := Missing;
        }
    }
  }

  // ---- The in-memory store stays valid ----

  lemma {:induction false} RecoveryKeepsValid(kind: Recovery, s: Store, ids: seq<string>, now: int)
    requires Valid(s) && forall id <- ids :: id in s.runs
    ensures Valid(RecoverAll(kind, s, ids, now))
  {
    if ids != [] {
      RecoveryKeepsValid(kind, s, ids[..|ids| - 1], now);
      OneRecoveryKeepsValid(kind, RecoverAll(kind, s, ids[..|ids| - 1], now), ids[|ids| - 1], now);
    }
  }

  lemma OneRecoveryKeepsValid(kind: Recovery, s: Store, id: string, now: int)
    requires Valid(s) && id in s.runs
    ensures Valid(Recover(kind, s, id, now))
  {
    RecoverIs(kind, s, id, now);
  }

  lemma EntryKeepsValid(s: Store, call: Call, now: int)
    requires Valid(s) && (call.Create? || call.Save?)
    ensures Valid(InMemory(s, call, now).0)
  {
  }

  lemma LeaseCallKeepsValid(s: Store, call: Call, now: int)
    requires Valid(s) && (call.Claim? || call.Renew? || call.Release?)
    ensures Valid(InMemory(s, call, now).0)
  {
  }

  lemma RunCallKeepsValid(s: Store, call: Call, now: int)
    requires Valid(s) && (call.Cancel? || call.Retry?)
    ensures Valid(InMemory(s, call, now).0)
  {
  }

  lemma OtherCallKeepsValid(s: Store, call: Call, now: int)
    requires Valid(s) && (call.Ask? || call.Decide? || call.Append? || call.Publish?)
    ensures Valid(InMemory(s, call, now).0)
  {
  }

  lemma CallKeepsValid(s: Store, call: Call, now: int)
    requires Valid(s)
    ensures Valid(InMemory(s, call, now).0)
  {
    if call.RecoverBatch? {
      RecoveryKeepsValid(call.kind, s, Candidates(call.kind, s, call.limit, now), now);
    } else if call.Ask? || call.Decide? || call.Append? || call.Publish? {
      OtherCallKeepsValid(s, call, now);
    } else if call.Create? || call.Save? {
      EntryKeepsValid(s, call, now);
    } else if call.Claim? || call.Renew? || call.Release? {
      LeaseCallKeepsValid(s, call, now);
    } else if call.Cancel? || call.Retry? {
      RunCallKeepsValid(s, call, now);
    }
  }

  // ---- Both stores ----

  ghost predicate Twins(memory: Memory.InMemoryRunStore, postgres: Postgres.PostgresRunStore)
    reads memory, postgres
  {
    Valid(memory.View()) && Related(memory.View(), postgres.Db())
  }

  /** The same call on related stores: they answer alike and stay related exactly when the call agrees. */
  method CallBoth(memory: Memory.InMemoryRunStore, postgres: Postgres.PostgresRunStore, call: Call, now: int)
    returns (a: Answer, b: Answer)
    requires Twins(memory, postgres) && Admissible(postgres.Db(), call, now)
    modifies memory, postgres
    ensures a == b && Twins(memory, postgres) <==> old(Agrees(memory.View(), call, now))
  {
    ghost var s, db := memory.View(), postgres.Db();
    SimulatedIff(s, db, call, now);
    CallKeepsValid(s, call, now);
    b := CallPostgres(postgres, memory.outbox, call, now);
    a := CallMemory(memory, call, now);
  }
}
