/** Conservation: versions, attempts, dispatches and claims are accounted for by what the calls reported. */
module Ledger {
  import opened Common
  import opened Execution
  import opened RunRecords
  import opened StoreSpec
  import opened RunQueue
  import opened Protocol
  import opened DispatchInvariant

  /** How often each kind of deed was reported for one run. */
  datatype Counts = Counts(claims: nat, commits: nat, approvals: nat, decided: nat, canceled: nat, retries: nat,
                           expired: nat, due: nat)

  const ZERO := Counts(0, 0, 0, 0, 0, 0, 0, 0)

  function Count(c: Counts, deed: Deed): Counts {
    match deed
    case Created => c
    case ClaimedRun => c.(claims := c.claims + 1)
    case Committed(_) => c.(commits := c.commits + 1)
    case ApprovalOpened => c.(approvals := c.approvals + 1)
    case ApprovalDecided => c.(decided := c.decided + 1)
    case CanceledIdle => c.(canceled := c.canceled + 1)
    case RetryPlanned => c.(retries := c.retries + 1)
    case Recovered(ExpiredLeases) => c.(expired := c.expired + 1)
    case Recovered(DueRetries) => c.(due := c.due + 1)
  }

  function CountsOf(history: seq<Fact>, id: string): Counts {
    if history == [] then ZERO
    else
      var rest, last := CountsOf(history[..|history| - 1], id), history[|history| - 1];
      if last.runId == id then Count(rest, last.deed) else rest
  }

  lemma CountsGrow(history: seq<Fact>, fact: Fact, id: string)
    ensures CountsOf(history + [fact], id) ==
      if fact.runId == id then Count(CountsOf(history, id), fact.deed) else CountsOf(history, id)
  {
    assert (history + [fact])[..|history|] == history;
  }

  /** Dispatch records written for a run. */
  function Dispatches(outbox: seq<OutboxRecord>, id: string): nat {
    if outbox == [] then 0
    else Dispatches(outbox[..|outbox| - 1], id) + if outbox[|outbox| - 1].runId == id then 1 else 0
  }

  lemma DispatchesGrow(outbox: seq<OutboxRecord>, record: OutboxRecord, id: string)
    ensures Dispatches(outbox + [record], id) == Dispatches(outbox, id) + if record.runId == id then 1 else 0
  {
    assert (outbox + [record])[..|outbox|] == outbox;
  }

  predicate Balanced(run: StoredRun, c: Counts, dispatches: nat) {
    && run.version == c.claims + c.commits + c.approvals + c.decided + c.canceled + c.retries + c.expired + c.due
    && run.attemptCount == c.expired
    && dispatches == 1 + c.decided + c.expired + c.due
    && c.claims + (if run.Claimable() then 1 else 0) <= 1 + c.expired + c.retries + c.decided
  }

  ghost predicate LedgerOk(s: System) {
    && (forall id {:trigger CountsOf(s.history, id)} :: id in s.store.runs ==>
          Balanced(s.store.runs[id], CountsOf(s.history, id), Dispatches(s.store.outbox, id)))
    && (forall i :: 0 <= i < |s.history| ==> s.history[i].runId in s.store.runs)
  }

  lemma {:induction false} CountsOfUnknown(history: seq<Fact>, id: string)
    requires forall i :: 0 <= i < |history| ==> history[i].runId != id
    ensures CountsOf(history, id) == ZERO
  {
    if history != [] {
      CountsOfUnknown(history[..|history| - 1], id);
    }
  }

  lemma {:induction false} DispatchesOfUnknown(outbox: seq<OutboxRecord>, id: string)
    requires forall i :: 0 <= i < |outbox| ==> outbox[i].runId != id
    ensures Dispatches(outbox, id) == 0
  {
    if outbox != [] {
      DispatchesOfUnknown(outbox[..|outbox| - 1], id);
    }
  }

  lemma {:induction false} SameOwners(a: seq<OutboxRecord>, b: seq<OutboxRecord>, id: string)
    requires |a| == |b| && forall i :: 0 <= i < |a| ==> a[i].runId == b[i].runId
    ensures Dispatches(a, id) == Dispatches(b, id)
  {
    if a != [] {
      SameOwners(a[..|a| - 1], b[..|b| - 1], id);
    }
  }

  // ---- The four kinds of step ----

  /** Nothing is reported and no counted field moves. */
  predicate SameCounts(before: StoredRun, after: StoredRun) {
    after.version == before.version && after.attemptCount == before.attemptCount
    && (after.Claimable() ==> before.Claimable())
  }

  lemma SilentKeeps(s: System, t: System)
    requires LedgerOk(s) && t.history == s.history && t.store.runs.Keys == s.store.runs.Keys
    requires |t.store.outbox| == |s.store.outbox|
    requires forall i :: 0 <= i < |s.store.outbox| ==> t.store.outbox[i].runId == s.store.outbox[i].runId
    requires forall id <- s.store.runs :: SameCounts(s.store.runs[id], t.store.runs[id])
    ensures LedgerOk(t)
  {
    forall id | id in t.store.runs
      ensures Balanced(t.store.runs[id], CountsOf(t.history, id), Dispatches(t.store.outbox, id))
    {
      SameOwners(s.store.outbox, t.store.outbox, id);
      assert SameCounts(s.store.runs[id], t.store.runs[id]);
      assert Balanced(s.store.runs[id], CountsOf(s.history, id), Dispatches(s.store.outbox, id));
    }
  }

  /** One deed of one run is reported. */
  ghost predicate Reported(s: System, t: System, id: string, deed: Deed) {
    && id in s.store.runs && id in t.store.runs && t.store.runs == s.store.runs[id := t.store.runs[id]]
    && t.history == s.history + [Fact(id, deed)]
  }

  lemma ReportKeeps(s: System, t: System, id: string, deed: Deed)
    requires LedgerOk(s) && Reported(s, t, id, deed) && t.store.outbox == s.store.outbox
    requires Balanced(s.store.runs[id], CountsOf(s.history, id), Dispatches(s.store.outbox, id)) ==>
      Balanced(t.store.runs[id], Count(CountsOf(s.history, id), deed), Dispatches(s.store.outbox, id))
    ensures LedgerOk(t)
  {
    forall other | other in t.store.runs
      ensures Balanced(t.store.runs[other], CountsOf(t.history, other), Dispatches(t.store.outbox, other))
    {
      assert Balanced(s.store.runs[other], CountsOf(s.history, other), Dispatches(s.store.outbox, other));
      ReportKeepsOne(s, t, id, deed, other, CountsOf(s.history, other), Dispatches(s.store.outbox, other));
    }
  }

  lemma ReportKeepsOne(s: System, t: System, id: string, deed: Deed, other: string, c: Counts, dispatches: nat)
    requires Reported(s, t, id, deed) && other in s.store.runs && c == CountsOf(s.history, other)
    requires Balanced(s.store.runs[other], c, dispatches)
    requires other == id ==> Balanced(t.store.runs[id], Count(c, deed), dispatches)
    ensures other in t.store.runs && Balanced(t.store.runs[other], CountsOf(t.history, other), dispatches)
  {
    CountsGrow(s.history, Fact(id, deed), other);
    if other != id {
      assert t.store.runs[other] == s.store.runs[other];
    }
  }

  lemma DispatchKeeps(s: System, t: System, id: string, deed: Deed, record: OutboxRecord)
    requires LedgerOk(s) && Reported(s, t, id, deed) && t.store.outbox == s.store.outbox + [record]
             && record.runId == id
    requires Balanced(s.store.runs[id], CountsOf(s.history, id), Dispatches(s.store.outbox, id)) ==>
      Balanced(t.store.runs[id], Count(CountsOf(s.history, id), deed), Dispatches(s.store.outbox, id) + 1)
    ensures LedgerOk(t)
  {
    forall other | other in t.store.runs
      ensures Balanced(t.store.runs[other], CountsOf(t.history, other), Dispatches(t.store.outbox, other))
    {
      CountsGrow(s.history, Fact(id, deed), other);
      DispatchesGrow(s.store.outbox, record, other);
      assert Balanced(s.store.runs[other], CountsOf(s.history, other), Dispatches(s.store.outbox, other));
    }
  }

  /** A run appears with its first dispatch record. */
  lemma AppearanceKeeps(s: System, t: System, id: string, run: StoredRun, record: OutboxRecord)
    requires LedgerOk(s) && id !in s.store.runs && t.store.runs == s.store.runs[id := run]
    requires t.history == s.history + [Fact(id, Created)] && t.store.outbox == s.store.outbox + [record]
    requires record.runId == id && Balanced(run, ZERO, 1)
    requires forall i :: 0 <= i < |s.store.outbox| ==> s.store.outbox[i].runId != id
    ensures LedgerOk(t)
  {
    forall other | other in t.store.runs
      ensures Balanced(t.store.runs[other], CountsOf(t.history, other), Dispatches(t.store.outbox, other))
    {
      CountsGrow(s.history, Fact(id, Created), other);
      DispatchesGrow(s.store.outbox, record, other);
      if other == id {
        CountsOfUnknown(s.history, id);
        DispatchesOfUnknown(s.store.outbox, id);
      } else {
        assert Balanced(s.store.runs[other], CountsOf(s.history, other), Dispatches(s.store.outbox, other));
      }
    }
  }

  lemma CreateKeeps(s: System, run: NewRun)
    requires DispatchOk(s) && LedgerOk(s)
    ensures LedgerOk(DoCreate(s, run))
  {
    var id := run.runId;
    if id !in s.store.runs {
      AppearanceKeeps(s, DoCreate(s, run), id, FreshRun(run), OutboxRecord(DispatchKey(id, 0), id, None));
    }
  }

  // ---- Action by action ----

  lemma ClaimKeeps(s: System, runId: string, workerId: string, leaseSeconds: int)
    requires LedgerOk(s)
    ensures LedgerOk(DoClaim(s, runId, workerId, leaseSeconds))
  {
    if CanClaim(s.store, runId, s.now) {
      ReportKeeps(s, DoClaim(s, runId, workerId, leaseSeconds), runId, ClaimedRun);
    }
  }

  lemma SaveKeeps(s: System, worker: string, stepId: string)
    requires LedgerOk(s)
    ensures LedgerOk(DoSave(s, worker, stepId))
  {
    if worker in s.workers && s.workers[worker].Computed? {
      var pc, t := s.workers[worker], DoSave(s, worker, stepId);
      if Wins(s.store, pc.runId, pc.base) {
        ReportKeeps(s, t, pc.runId, Committed(Commit(pc.base, pc.reply, pc.outcome)));
      } else {
        SilentKeeps(s, t);
      }
    }
  }

  lemma OpenApprovalKeeps(s: System, runId: string, stepId: string, toolName: string, arguments: Arguments)
    requires LedgerOk(s)
    ensures LedgerOk(DoOpenApproval(s, runId, stepId, toolName, arguments))
  {
    if runId in s.store.runs && s.store.runs[runId].status.Running? {
      ReportKeeps(s, DoOpenApproval(s, runId, stepId, toolName, arguments), runId, ApprovalOpened);
    }
  }

  lemma DecisionKeeps(s: System, t: System, id: string)
    requires LedgerOk(s) && Reported(s, t, id, ApprovalDecided)
    requires s.store.runs[id].status.WaitingApproval? && t.store.runs[id].status.Queued?
    requires t.store.runs[id].version == s.store.runs[id].version + 1
    requires t.store.runs[id].attemptCount == s.store.runs[id].attemptCount
    requires t.store.outbox == s.store.outbox + [OutboxRecord(DispatchKey(id, s.store.runs[id].version + 1), id, None)]
    ensures LedgerOk(t)
  {
    DispatchKeeps(s, t, id, ApprovalDecided, OutboxRecord(DispatchKey(id, s.store.runs[id].version + 1), id, None));
  }

  lemma DecideKeeps(s: System, approvalId: nat, approved: bool)
    requires DispatchOk(s) && LedgerOk(s)
    ensures LedgerOk(DoDecide(s, approvalId, approved))
  {
    if CanDecide(s.store, approvalId) {
      var id := s.store.approvals[approvalId].runId;
      DispatchIsNew(s.store, id);
      DecisionKeeps(s, DoDecide(s, approvalId, approved), id);
    }
  }

  lemma CancelKeeps(s: System, runId: string)
    requires LedgerOk(s)
    ensures LedgerOk(DoCancel(s, runId))
  {
    if runId in s.store.runs {
      var run, t := s.store.runs[runId], DoCancel(s, runId);
      if run.Terminal() || run.status.Running? {
        SilentKeeps(s, t);
      } else {
        ReportKeeps(s, t, runId, CanceledIdle);
      }
    }
  }

  lemma RetryKeeps(p: Params, s: System, runId: string, at: int, code: string, message: string)
    requires LedgerOk(s)
    ensures LedgerOk(DoRetry(p, s, runId, at, code, message))
  {
    if runId in s.store.runs && (!p.guardedRetry || s.store.runs[runId].status.Running?) {
      ReportKeeps(s, DoRetry(p, s, runId, at, code, message), runId, RetryPlanned);
    }
  }

  lemma RecoverOneKeeps(kind: Recovery, s: System, runId: string)
    requires DispatchOk(s) && LedgerOk(s) && runId in s.store.runs && Recoverable(kind, s.store.runs[runId], s.now)
    ensures LedgerOk(RecoverOne(kind, s, runId))
  {
    DispatchIsNew(s.store, runId);
    DispatchKeeps(s, RecoverOne(kind, s, runId), runId, Recovered(kind),
                  OutboxRecord(DispatchKey(runId, s.store.runs[runId].version + 1), runId, None));
  }

  lemma {:induction false} RecoverEachKeepsLedger(kind: Recovery, s: System, ids: seq<string>)
    requires DispatchOk(s) && LedgerOk(s) && NoDuplicates(ids)
    requires forall id <- ids :: id in s.store.runs && Recoverable(kind, s.store.runs[id], s.now)
    ensures LedgerOk(RecoverEach(kind, s, ids))
  {
    if ids != [] {
      var init, last := ids[..|ids| - 1], ids[|ids| - 1];
      assert last !in init;
      RecoverEachKeeps(kind, s, init);
      RecoverEachKeepsLedger(kind, s, init);
      RecoverOneKeeps(kind, RecoverEach(kind, s, init), last);
    }
  }

  lemma RecoverBatchKeepsLedger(kind: Recovery, s: System, limit: nat)
    requires DispatchOk(s) && LedgerOk(s)
    ensures LedgerOk(RecoverEach(kind, s, Candidates(kind, s.store, limit, s.now)))
  {
    CandidatesDistinct(kind, s.store, limit, s.now);
    RecoverEachKeepsLedger(kind, s, Candidates(kind, s.store, limit, s.now));
  }

  lemma PopKeeps(s: System, workerId: string, leaseSeconds: int)
    requires LedgerOk(s)
    ensures LedgerOk(DoPopAndClaim(s, workerId, leaseSeconds))
  {
    var (queue, popped) := Pop(s.queue);
    if popped.Some? {
      SilentKeeps(s, s.(queue := queue));
      ClaimKeeps(s.(queue := queue), popped.value, workerId, leaseSeconds);
    }
  }

  lemma OtherStep(p: Params, s: System, a: Action)
    requires LedgerOk(s) && !a.OnRuns() && !a.Save?
    ensures LedgerOk(Perform(p, s, a))
  {
    if a.PopAndClaim? {
      PopKeeps(s, a.workerId, a.leaseSeconds);
    } else {
      SilentKeeps(s, Perform(p, s, a));
    }
  }

  lemma ClaimStep(p: Params, s: System, a: Action)
    requires DispatchOk(s) && LedgerOk(s) && (a.Create? || a.Claim?)
    ensures LedgerOk(Perform(p, s, a))
  {
    match a {
      case Create(run) => CreateKeeps(s, run);
      case Claim(runId, workerId, leaseSeconds) => ClaimKeeps(s, runId, workerId, leaseSeconds);
    }
  }

  lemma ApprovalStep(p: Params, s: System, a: Action)
    requires DispatchOk(s) && LedgerOk(s) && (a.OpenApproval? || a.Decide?)
    ensures LedgerOk(Perform(p, s, a))
  {
    match a {
      case OpenApproval(runId, stepId, toolName, arguments) => OpenApprovalKeeps(s, runId, stepId, toolName, arguments);
      case Decide(approvalId, approved) => DecideKeeps(s, approvalId, approved);
    }
  }

  lemma LeaseStep(p: Params, s: System, a: Action)
    requires LedgerOk(s) && (a.Renew? || a.Release?)
    ensures LedgerOk(Perform(p, s, a))
  {
    SilentKeeps(s, Perform(p, s, a));
  }

  lemma IdleStep(p: Params, s: System, a: Action)
    requires LedgerOk(s) && (a.Cancel? || a.Retry?)
    ensures LedgerOk(Perform(p, s, a))
  {
    match a {
      case Cancel(runId) => CancelKeeps(s, runId);
      case Retry(runId, at, code, message) => RetryKeeps(p, s, runId, at, code, message);
    }
  }

  lemma LedgerStep(p: Params, s: System, a: Action)
    requires DispatchOk(s) && LedgerOk(s)
    ensures LedgerOk(Perform(p, s, a))
  {
    if a.Create? || a.Claim? {
      ClaimStep(p, s, a);
    } else if a.OpenApproval? || a.Decide? {
      ApprovalStep(p, s, a);
    } else if a.Renew? || a.Release? {
      LeaseStep(p, s, a);
    } else if a.Cancel? || a.Retry? {
      IdleStep(p, s, a);
    } else if a.Save? {
      SaveKeeps(s, a.worker, a.stepId);
    } else if a.RecoverBatch? {
      RecoverBatchKeepsLedger(a.kind, s, a.limit);
    } else {
      OtherStep(p, s, a);
    }
  }
}
