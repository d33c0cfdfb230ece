/** What a cancel does to a RUNNING run: nothing that anybody reads. The run, and everything else, goes on as if it had
    not been asked for. */
module Cancellation {
  import opened Common
  import opened Execution
  import opened StepMachine
  import opened RunRecords
  import opened StoreSpec
  import opened RunQueue
  import opened Protocol
  import opened Guarantees
  import opened Orchestrator

  /** The run without the mark of a cancel and the time of its last change. */
  function Unmarked(run: StoredRun): StoredRun { run.(cancelRequestedAt := None, updatedAt := 0) }

  ghost predicate SameButMarks(s: Store, t: Store) {
    && t == s.(runs := t.runs) && t.runs.Keys == s.runs.Keys
    && forall id {:trigger t.runs[id]} {:trigger s.runs[id]} :: id in s.runs ==>
         Unmarked(t.runs[id]) == Unmarked(s.runs[id])
  }

  ghost predicate Alike(s: System, t: System) { t == s.(store := t.store) && SameButMarks(s.store, t.store) }

  /** Replacing a run by runs that differ in marks only. */
  lemma ReplacedAlike(s: Store, t: Store, id: string, x: StoredRun, y: StoredRun)
    requires SameButMarks(s, t) && Unmarked(x) == Unmarked(y)
    ensures SameButMarks(s.(runs := s.runs[id := x]), t.(runs := t.runs[id := y]))
  {
  }

  lemma {:induction false} SameRecoverable(kind: Recovery, s: Store, t: Store, ids: seq<string>, now: int)
    requires SameButMarks(s, t)
    ensures RecoverableIn(kind, s, ids, now) == RecoverableIn(kind, t, ids, now)
  {
    if ids != [] {
      var last := ids[|ids| - 1];
      SameRecoverable(kind, s, t, ids[..|ids| - 1], now);
      assert last in s.runs ==> Unmarked(t.runs[last]) == Unmarked(s.runs[last]);
    }
  }

  lemma RecoverOneAlike(kind: Recovery, s: System, t: System, id: string)
    requires Alike(s, t)
    ensures Alike(RecoverOne(kind, s, id), RecoverOne(kind, t, id))
  {
    if id in s.store.runs {
      assert Unmarked(t.store.runs[id]) == Unmarked(s.store.runs[id]);
    }
  }

  lemma {:induction false} RecoverEachAlike(kind: Recovery, s: System, t: System, ids: seq<string>)
    requires Alike(s, t)
    ensures Alike(RecoverEach(kind, s, ids), RecoverEach(kind, t, ids))
  {
    if ids != [] {
      RecoverEachAlike(kind, s, t, ids[..|ids| - 1]);
      RecoverOneAlike(kind, RecoverEach(kind, s, ids[..|ids| - 1]), RecoverEach(kind, t, ids[..|ids| - 1]),
                      ids[|ids| - 1]);
    }
  }

  lemma RecoveryAlike(p: Params, s: System, t: System, a: Action)
    requires Alike(s, t) && a.RecoverBatch?
    ensures Alike(Perform(p, s, a), Perform(p, t, a))
  {
    SameRecoverable(a.kind, s.store, t.store, s.store.order, s.now);
    RecoverEachAlike(a.kind, s, t, Candidates(a.kind, s.store, a.limit, s.now));
  }

  lemma Unmarks(s: System, t: System, id: string)
    requires Alike(s, t)
    ensures id in s.store.runs <==> id in t.store.runs
    ensures id in s.store.runs ==> Unmarked(t.store.runs[id]) == Unmarked(s.store.runs[id])
  {
  }

  lemma ClaimAlike(s: System, t: System, id: string, workerId: string, leaseSeconds: int)
    requires Alike(s, t)
    ensures Alike(DoClaim(s, id, workerId, leaseSeconds), DoClaim(t, id, workerId, leaseSeconds))
  {
    Unmarks(s, t, id);
    if CanClaim(s.store, id, s.now) {
      ReplacedAlike(s.store, t.store, id, Claimed(s.store.runs[id], workerId, leaseSeconds, s.now),
                    Claimed(t.store.runs[id], workerId, leaseSeconds, s.now));
    }
  }

  lemma PopAlike(s: System, t: System, workerId: string, leaseSeconds: int)
    requires Alike(s, t)
    ensures Alike(DoPopAndClaim(s, workerId, leaseSeconds), DoPopAndClaim(t, workerId, leaseSeconds))
  {
    var (queue, popped) := Pop(s.queue);
    if popped.Some? {
      ClaimAlike(s.(queue := queue), t.(queue := queue), popped.value, workerId, leaseSeconds);
    }
  }

  lemma RenewAlike(s: Store, t: Store, id: string, workerId: string, leaseSeconds: int, now: int)
    requires SameButMarks(s, t)
    ensures SameButMarks(RenewLease(s, id, workerId, leaseSeconds, now).0,
                         RenewLease(t, id, workerId, leaseSeconds, now).0)
  {
    assert id in s.runs ==> Unmarked(t.runs[id]) == Unmarked(s.runs[id]);
  }

  lemma ReleaseAlike(s: Store, t: Store, id: string, workerId: string)
    requires SameButMarks(s, t)
    ensures SameButMarks(ReleaseLease(s, id, workerId).0, ReleaseLease(t, id, workerId).0)
  {
    assert id in s.runs ==> Unmarked(t.runs[id]) == Unmarked(s.runs[id]);
  }

  lemma OpenAlike(s: System, t: System, id: string, stepId: string, toolName: string, arguments: Arguments)
    requires Alike(s, t)
    ensures Alike(DoOpenApproval(s, id, stepId, toolName, arguments),
                  DoOpenApproval(t, id, stepId, toolName, arguments))
  {
    Unmarks(s, t, id);
  }

  lemma DecideAlike(s: System, t: System, approvalId: nat, approved: bool)
    requires Alike(s, t)
    ensures Alike(DoDecide(s, approvalId, approved), DoDecide(t, approvalId, approved))
  {
    if approvalId < |s.store.approvals| {
      Unmarks(s, t, s.store.approvals[approvalId].runId);
    }
  }

  lemma CancelAlike(s: System, t: System, id: string)
    requires Alike(s, t)
    ensures Alike(DoCancel(s, id), DoCancel(t, id))
  {
    Unmarks(s, t, id);
  }

  lemma RetryAlike(p: Params, s: System, t: System, id: string, at: int, code: string, message: string)
    requires Alike(s, t)
    ensures Alike(DoRetry(p, s, id, at, code, message), DoRetry(p, t, id, at, code, message))
  {
    Unmarks(s, t, id);
  }

  lemma SaveAlike(s: System, t: System, w: string, stepId: string)
    requires Alike(s, t)
    ensures Alike(DoSave(s, w, stepId), DoSave(t, w, stepId))
  {
    if w in s.workers && s.workers[w].Computed? {
      Unmarks(s, t, s.workers[w].runId);
    }
  }

  lemma LoadAlike(s: System, t: System, w: string, id: string)
    requires Alike(s, t)
    ensures Alike(DoLoad(s, w, id), DoLoad(t, w, id))
  {
    Unmarks(s, t, id);
  }

  lemma CheckAlike(s: System, t: System, w: string)
    requires Alike(s, t)
    ensures Alike(DoCheck(s, w), DoCheck(t, w))
  {
  }

  lemma ComputeAlike(p: Params, s: System, t: System, w: string, reply: Reply)
    requires Alike(s, t)
    ensures Alike(DoCompute(p, s, w, reply), DoCompute(p, t, w, reply))
  {
  }

  lemma PublishAlike(s: System, t: System, w: string)
    requires Alike(s, t)
    ensures Alike(DoPublish(s, w), DoPublish(t, w))
  {
  }

  lemma CreateAlike(s: System, t: System, run: NewRun)
    requires Alike(s, t)
    ensures Alike(DoCreate(s, run), DoCreate(t, run))
  {
    ReplacedAlike(s.store, t.store, run.runId, FreshRun(run), FreshRun(run));
  }

  lemma PushAlike(s: System, t: System, dispatcher: string)
    requires Alike(s, t)
    ensures Alike(DoPush(s, dispatcher), DoPush(t, dispatcher))
  {
  }

  lemma MarkAlike(s: System, t: System, dispatcher: string)
    requires Alike(s, t)
    ensures Alike(DoMark(s, dispatcher), DoMark(t, dispatcher))
  {
  }

  /** The states an action leads to, by name. */
  lemma SameAlike(p: Params, s: System, t: System, a: Action, x: System, y: System)
    requires Alike(x, y) && x == Perform(p, s, a) && y == Perform(p, t, a)
    ensures Alike(Perform(p, s, a), Perform(p, t, a))
  {
  }

  lemma LeaseStepAlike(p: Params, s: System, t: System, a: Action)
    requires Alike(s, t) && (a.Create? || a.Claim? || a.Renew? || a.Release?)
    ensures Alike(Perform(p, s, a), Perform(p, t, a))
  {
    match a {
      case Create(run) => CreateAlike(s, t, run);
      case Claim(id, workerId, leaseSeconds) => ClaimAlike(s, t, id, workerId, leaseSeconds);
      case Renew(id, workerId, leaseSeconds) => RenewAlike(s.store, t.store, id, workerId, leaseSeconds, s.now);
      case Release(id, workerId) => ReleaseAlike(s.store, t.store, id, workerId);
    }
  }

  lemma ClientStepAlike(p: Params, s: System, t: System, a: Action)
    requires Alike(s, t) && (a.OpenApproval? || a.Decide? || a.Cancel? || a.Retry?)
    ensures Alike(Perform(p, s, a), Perform(p, t, a))
  {
    match a {
      case OpenApproval(id, stepId, toolName, arguments) => {
        OpenAlike(s, t, id, stepId, toolName, arguments);
        SameAlike(p, s, t, a, DoOpenApproval(s, id, stepId, toolName, arguments),
                  DoOpenApproval(t, id, stepId, toolName, arguments));
      }
      case Decide(approvalId, approved) => {
        DecideAlike(s, t, approvalId, approved);
        SameAlike(p, s, t, a, DoDecide(s, approvalId, approved), DoDecide(t, approvalId, approved));
      }
      case Cancel(id) => {
        CancelAlike(s, t, id);
        SameAlike(p, s, t, a, DoCancel(s, id), DoCancel(t, id));
      }
      case Retry(id, at, code, message) => {
        RetryAlike(p, s, t, id, at, code, message);
        SameAlike(p, s, t, a, DoRetry(p, s, id, at, code, message), DoRetry(p, t, id, at, code, message));
      }
    }
  }

  lemma ReadStepAlike(p: Params, s: System, t: System, a: Action)
    requires Alike(s, t) && (a.Load? || a.Check? || a.Compute?)
    ensures Alike(Perform(p, s, a), Perform(p, t, a))
  {
    match a {
      case Load(w, id) => {
        LoadAlike(s, t, w, id);
        SameAlike(p, s, t, a, DoLoad(s, w, id), DoLoad(t, w, id));
      }
      case Check(w) => {
        CheckAlike(s, t, w);
        SameAlike(p, s, t, a, DoCheck(s, w), DoCheck(t, w));
      }
      case Compute(w, reply) => {
        ComputeAlike(p, s, t, w, reply);
        SameAlike(p, s, t, a, DoCompute(p, s, w, reply), DoCompute(p, t, w, reply));
      }
    }
  }

  lemma WriteStepAlike(p: Params, s: System, t: System, a: Action)
    requires Alike(s, t) && (a.Save? || a.Publish? || a.Crash?)
    ensures Alike(Perform(p, s, a), Perform(p, t, a))
  {
    match a {
      case Save(w, stepId) => {
        SaveAlike(s, t, w, stepId);
        SameAlike(p, s, t, a, DoSave(s, w, stepId), DoSave(t, w, stepId));
      }
      case Publish(w) => {
        PublishAlike(s, t, w);
        SameAlike(p, s, t, a, DoPublish(s, w), DoPublish(t, w));
      }
      case Crash(w) => SameAlike(p, s, t, a, s.(workers := s.workers - {w}), t.(workers := t.workers - {w}));
    }
  }

  lemma OtherAlike(p: Params, s: System, t: System, a: Action)
    requires Alike(s, t) && !a.OnRuns() && !a.OfWorker()
    ensures Alike(Perform(p, s, a), Perform(p, t, a))
  {
    match a {
      case Tick(_) => {}
      case PopAndClaim(workerId, leaseSeconds) => PopAlike(s, t, workerId, leaseSeconds);
      case List(_, limit) => assert ListUnpublished(t.store, limit) == ListUnpublished(s.store, limit);
      case Push(d) => PushAlike(s, t, d);
      case Mark(d) => MarkAlike(s, t, d);
      case Abandon(_) => {}
    }
  }

  /** No action tells apart states that differ in marks only. */
  lemma StepAlike(p: Params, s: System, t: System, a: Action)
    requires Alike(s, t)
    ensures Alike(Perform(p, s, a), Perform(p, t, a))
  {
    if a.Create? || a.Claim? || a.Renew? || a.Release? {
      LeaseStepAlike(p, s, t, a);
    } else if a.RecoverBatch? {
      RecoveryAlike(p, s, t, a);
    } else if a.OnRuns() {
      ClientStepAlike(p, s, t, a);
    } else if a.Load? || a.Check? || a.Compute? {
      ReadStepAlike(p, s, t, a);
    } else if a.OfWorker() {
      WriteStepAlike(p, s, t, a);
    } else {
      OtherAlike(p, s, t, a);
    }
  }

  lemma {:induction false} AllAlike(p: Params, s: System, t: System, more: seq<Action>)
    requires Alike(s, t)
    ensures Alike(PerformAll(p, s, more), PerformAll(p, t, more))
  {
    if more != [] {
      var init := more[..|more| - 1];
      AllAlike(p, s, t, init);
      StepAlike(p, PerformAll(p, s, init), PerformAll(p, t, init), more[|more| - 1]);
    }
  }

  /** A cancel of a RUNNING run changes nothing that happens afterwards: whatever follows, every run has the same
      status, version, checkpoint and lease, and the step table, the logs, the outbox, the queue and the workers are
      the same, as if it had not been requested. Only the mark and the time of change differ. */
  lemma CancelOfRunningIsIgnored(p: Params, actions: seq<Action>, id: string, more: seq<Action>)
    requires id in Run(p, actions).store.runs && Run(p, actions).store.runs[id].status.Running?
    ensures Alike(Run(p, actions + more), Run(p, actions + [Cancel(id)] + more))
  {
    RunThenPerform(p, actions, more);
    RunThenPerform(p, actions + [Cancel(id)], more);
    RunOneMore(p, actions, Cancel(id));
    AllAlike(p, Run(p, actions), Run(p, actions + [Cancel(id)]), more);
  }
}
