/** `InMemoryRunStore` (app/persistence/run_store.py): the dictionaries, updated in place, each method
    proved to be the corresponding function of StoreSpec. */
module RunStore {
  import opened Common
  import opened Execution
  import opened RunRecords
  import Spec = StoreSpec
  import opened StoreSpec

  class InMemoryRunStore {
    var runs: map<string, StoredRun>
    var order: seq<string>
    var events: map<string, seq<StoredEvent>>
    var outbox: seq<OutboxRecord>
    var steps: map<(string, StepKey), StoredStep>
    var approvals: seq<StoredApproval>

    ghost function View(): Store
      reads this
    {
      Store(runs, order, events, outbox, steps, approvals)
    }

    constructor ()
      ensures View() == EMPTY_STORE
    {
      runs, order, events, outbox, steps, approvals := map[], [], map[], [], map[], [];
    }

    method CreateRunWithOutbox(run: NewRun) returns (result: Result<StoredRun>)
      modifies this
      ensures (View(), result) == Spec.CreateRun(old(View()), run)
    {
      if run.runId in runs {
        return Err(RunExists);
      }
      var stored := FreshRun(run);
      runs := runs[run.runId := stored];
      order := order + [run.runId];
      events := events[run.runId := []];
      outbox := outbox + [OutboxRecord(DispatchKey(run.runId, 0), run.runId, None)];
      return Ok(stored);
    }

    method GetRun(runId: string) returns (result: Result<StoredRun>)
      ensures result == Spec.GetRun(View(), runId)
    {
      if runId in runs {
        return Ok(runs[runId]);
      }
      return Err(RunNotFound);
    }

    method ClaimRun(runId: string, workerId: string, leaseSeconds: int, now: int)
      returns (result: Result<Option<StoredRun>>)
      modifies this`runs
      ensures (View(), result) == Spec.ClaimRun(old(View()), runId, workerId, leaseSeconds, now)
    {
      if runId !in runs {
        return Err(RunNotFound);
      }
      var run := runs[runId];
      var eligible := run.status.Queued? || run.status.RetryScheduled?;
      var leaseAvailable := run.leaseExpiresAt.None? || run.leaseExpiresAt.value < now;
      if !eligible || !leaseAvailable {
        return Ok(None);
      }
      var updated := run.(status := Running, version := run.version + 1, leaseOwner := Some(workerId),
                          leaseExpiresAt := Some(now + leaseSeconds), updatedAt := now);
      runs := runs[runId := updated];
      return Ok(Some(updated));
    }

    method RenewLease(runId: string, workerId: string, leaseSeconds: int, now: int) returns (renewed: bool)
      modifies this`runs
      ensures (View(), renewed) == Spec.RenewLease(old(View()), runId, workerId, leaseSeconds, now)
    {
      if runId !in runs {
        return false;
      }
      var run := runs[runId];
      if run.leaseOwner != Some(workerId) || !run.status.Running? {
        return false;
      }
      runs := runs[runId := run.(leaseExpiresAt := Some(now + leaseSeconds), updatedAt := now)];
      return true;
    }

    method ReleaseLease(runId: string, workerId: string) returns (released: bool)
      modifies this`runs
      ensures (View(), released) == Spec.ReleaseLease(old(View()), runId, workerId)
    {
      if runId !in runs || runs[runId].leaseOwner != Some(workerId) {
        return false;
      }
      runs := runs[runId := runs[runId].(leaseOwner := None, leaseExpiresAt := None)];
      return true;
    }

    method GetCompletedStep(runId: string, key: StepKey) returns (step: Option<StoredStep>)
      ensures step == Spec.GetCompletedStep(View(), runId, key)
    {
      if (runId, key) !in steps || !steps[(runId, key)].status.StepCompleted? {
        return None;
      }
      return Some(steps[(runId, key)]);
    }

    method SaveStep(step: StoredStep, target: RunStatus, now: int) returns (result: Result<StoredRun>)
      modifies this`runs, this`steps
      ensures (View(), result) == Spec.SaveStep(old(View()), step, target, now)
    {
      if step.runId !in runs {
        return Err(RunNotFound);
      }
      var key := (step.runId, step.key);
      if key !in steps {
        steps := steps[key := step];
        var run := runs[step.runId];
        var clearLease := !target.Running?;
        run := run.(status := target, checkpoint := Some(step.checkpoint), version := run.version + 1, updatedAt := now,
                    leaseOwner := if clearLease then None else run.leaseOwner,
                    leaseExpiresAt := if clearLease then None else run.leaseExpiresAt);
        runs := runs[step.runId := run];
      }
      return Ok(runs[step.runId]);
    }

    method CreatePendingApproval(runId: string, stepId: string, toolName: string, arguments: Arguments, now: int)
      returns (result: Result<StoredApproval>)
      modifies this`runs, this`approvals
      ensures (View(), result) == Spec.CreatePendingApproval(old(View()), runId, stepId, toolName, arguments, now)
    {
      if runId !in runs {
        return Err(RunNotFound);
      }
      var run := runs[runId];
      if !run.status.Running? {
        return Err(RunNotRunning);
      }
      var approval := StoredApproval(runId, stepId, ApprovalPending, toolName, arguments);
      approvals := approvals + [approval];
      runs := runs[runId := run.(status := WaitingApproval, version := run.version + 1,
                                 leaseOwner := None, leaseExpiresAt := None, updatedAt := now)];
      return Ok(approval);
    }

    method DecideApproval(approvalId: nat, approved: bool, now: int) returns (accepted: bool)
      requires Valid(View())
      modifies this`runs, this`approvals, this`outbox
      ensures (View(), accepted) == Spec.DecideApproval(old(View()), approvalId, approved, now)
    {
      if |approvals| <= approvalId || !approvals[approvalId].status.ApprovalPending? {
        return false;
      }
      var approval := approvals[approvalId];
      var run := runs[approval.runId];
      if !run.status.WaitingApproval? {
        return false;
      }
      approvals := approvals[approvalId := approval.(status := if approved then Approved else ApprovalRejected)];
      var version := run.version + 1;
      runs := runs[run.runId := run.(status := Queued, version := version, updatedAt := now)];
      AddDispatchOutbox(run.runId, version);
      return true;
    }

    method RequestCancel(runId: string, now: int) returns (result: Result<StoredRun>)
      modifies this`runs
      ensures (View(), result) == Spec.RequestCancel(old(View()), runId, now)
    {
      if runId !in runs {
        return Err(RunNotFound);
      }
      var run := runs[runId];
      if run.status.Completed? || run.status.Failed? || run.status.Canceled? {
        return Ok(run);
      }
      if run.status.Running? {
        run := run.(cancelRequestedAt := Some(now), updatedAt := now);
      } else {
        run := run.(status := Canceled, version := run.version + 1, cancelRequestedAt := Some(now),
                    leaseOwner := None, leaseExpiresAt := None, updatedAt := now);
      }
      runs := runs[runId := run];
      return Ok(run);
    }

    method ScheduleRetry(runId: string, at: int, code: string, message: string, now: int)
      returns (result: Result<StoredRun>)
      modifies this`runs
      ensures (View(), result) == Spec.ScheduleRetry(old(View()), runId, at, code, message, now)
    {
      if runId !in runs {
        return Err(RunNotFound);
      }
      var run := runs[runId];
      run := run.(status := RetryScheduled, version := run.version + 1, nextRetryAt := Some(at),
                  errorCode := Some(code), errorMessage := Some(message),
                  leaseOwner := None, leaseExpiresAt := None, updatedAt := now);
      runs := runs[runId := run];
      return Ok(run);
    }

    method RequeueExpiredLeasesWithOutbox(limit: nat, now: int) returns (count: nat)
      requires Valid(View())
      modifies this`runs, this`outbox
      ensures (View(), count) == Spec.RequeueBatch(ExpiredLeases, old(View()), limit, now)
    {
      count := RequeueWithOutbox(ExpiredLeases, limit, now);
    }

    method RequeueDueRetriesWithOutbox(limit: nat, now: int) returns (count: nat)
      requires Valid(View())
      modifies this`runs, this`outbox
      ensures (View(), count) == Spec.RequeueBatch(DueRetries, old(View()), limit, now)
    {
      count := RequeueWithOutbox(DueRetries, limit, now);
    }

    method RequeueWithOutbox(kind: Recovery, limit: nat, now: int) returns (count: nat)
      requires Valid(View())
      modifies this`runs, this`outbox
      ensures (View(), count) == Spec.RequeueBatch(kind, old(View()), limit, now)
    {
      ghost var before := View();
      var ids := SelectCandidates(kind, limit, now);
      for i := 0 to |ids|
        invariant View() == RecoverAll(kind, before, ids[..i], now)
      {
        RecoverNext(kind, before, ids, i, now);
        assert ids[i] in runs;
        RequeueOne(kind, ids[i], now);
      }
      assert ids[..|ids|] == ids;
      return |ids|;
    }

    method RequeueOne(kind: Recovery, runId: string, now: int)
      requires runId in runs
      modifies this`runs, this`outbox
      ensures View() == Recover(kind, old(View()), runId, now)
    {
      var run := runs[runId];
      var version := run.version + 1;
      match kind {
        case ExpiredLeases =>
          run := run.(attemptCount := run.attemptCount + 1, leaseOwner := None, leaseExpiresAt := None);
        case DueRetries =>
          run := run.(nextRetryAt := None);
      }
      runs := runs[runId := run.(status := Queued, version := version, updatedAt := now)];
      AddDispatchOutbox(runId, version);
    }

    /** The comprehension over `_runs.values()`, cut at the limit; a run stands for itself by its id. */
    method SelectCandidates(kind: Recovery, limit: nat, now: int) returns (ids: seq<string>)
      requires Valid(View())
      ensures ids == Candidates(kind, View(), limit, now)
    {
      ids := [];
      for i := 0 to |order|
        invariant ids == RecoverableIn(kind, View(), order[..i], now)
      {
        assert order[..i + 1][..i] == order[..i];
        if Recoverable(kind, runs[order[i]], now) {
          ids := ids + [order[i]];
        }
      }
      assert order[..|order|] == order;
      if |ids| > limit {
        ids := ids[..limit];
      }
    }

    method AppendEvent(runId: string, event: Event, now: int) returns (result: Result<StoredEvent>)
      requires Valid(View())
      modifies this`events
      ensures (View(), result) == Spec.AppendEvent(old(View()), runId, event, now)
    {
      if runId !in runs {
        return Err(RunNotFound);
      }
      var stored := StoredEvent(|events[runId]|, event, now);
      events := events[runId := events[runId] + [stored]];
      return Ok(stored);
    }

    method ListEvents(runId: string, after: int, limit: nat) returns (found: seq<StoredEvent>)
      ensures found == Spec.ListEvents(View(), runId, after, limit)
    {
      found := [];
      if runId !in events {
        return;
      }
      var log := events[runId];
      for i := 0 to |log|
        invariant found == Newer(log[..i], after)
      {
        assert log[..i + 1][..i] == log[..i];
        if log[i].sequence > after {
          found := found + [log[i]];
        }
      }
      assert log[..|log|] == log;
      if |found| > limit {
        found := found[..limit];
      }
    }

    method ListUnpublishedOutbox(limit: nat) returns (ids: seq<nat>)
      ensures ids == Spec.ListUnpublished(View(), limit)
    {
      ids := [];
      for i := 0 to |outbox|
        invariant ids == UnpublishedIn(outbox[..i])
      {
        assert outbox[..i + 1][..i] == outbox[..i];
        if outbox[i].publishedAt.None? {
          ids := ids + [i];
        }
      }
      assert outbox[..|outbox|] == outbox;
      if |ids| > limit {
        ids := ids[..limit];
      }
    }

    method MarkOutboxPublished(outboxId: nat, now: int) returns (marked: bool)
      modifies this`outbox
      ensures (View(), marked) == Spec.MarkPublished(old(View()), outboxId, now)
    {
      if |outbox| <= outboxId || outbox[outboxId].publishedAt.Some? {
        return false;
      }
      outbox := outbox[outboxId := outbox[outboxId].(publishedAt := Some(now))];
      return true;
    }

    method AddDispatchOutbox(runId: string, version: nat)
      modifies this`outbox
      ensures outbox == AddDispatch(old(outbox), runId, version)
    {
      var key := DispatchKey(runId, version);
      for i := 0 to |outbox|
        invariant outbox == old(outbox) && !HasKey(outbox[..i], key)
      {
        if outbox[i].key == key {
          return;
        }
      }
      assert outbox[..|outbox|] == outbox;
      outbox := outbox + [OutboxRecord(key, runId, None)];
    }
  }
}
