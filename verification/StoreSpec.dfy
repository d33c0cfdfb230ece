/** The run store as a value: one function for every method of the source's `RunStore` protocol,
    giving the state after the call and its result. Each is one atomic step, as the lock makes it. */
module StoreSpec {
  import opened Common
  import opened Execution
  import opened RunRecords

  datatype StoreError = RunExists | RunNotFound | RunNotRunning

  datatype Result<+T> = Ok(value: T) | Err(error: StoreError)

  /** `order` keeps the insertion order of `runs`; the outbox and approvals are in insertion order and
      their ids are positions. */
  datatype Store = Store(
    runs: map<string, StoredRun>,
    order: seq<string>,
    events: map<string, seq<StoredEvent>>,
    outbox: seq<OutboxRecord>,
    steps: map<(string, StepKey), StoredStep>,
    approvals: seq<StoredApproval>)

  const EMPTY_STORE := Store(map[], [], map[], [], map[], [])

  // ---- Creation, leases ----

  function FreshRun(r: NewRun): StoredRun {
    StoredRun(r.runId, r.sessionId, r.userMessage, Queued, 0, 0, None, None, None, None, None, None, None,
              r.createdAt, r.createdAt)
  }

  function CreateRun(s: Store, r: NewRun): (Store, Result<StoredRun>) {
    if r.runId in s.runs then (s, Err(RunExists))
    else
      (s.(runs := s.runs[r.runId := FreshRun(r)], order := s.order + [r.runId], events := s.events[r.runId := []],
          outbox := s.outbox + [OutboxRecord(DispatchKey(r.runId, 0), r.runId, None)]),
       Ok(FreshRun(r)))
  }

  function GetRun(s: Store, runId: string): Result<StoredRun> {
    if runId in s.runs then Ok(s.runs[runId]) else Err(RunNotFound)
  }

  function Claimed(run: StoredRun, workerId: string, leaseSeconds: int, now: int): StoredRun {
    run.(status := Running, version := run.version + 1, leaseOwner := Some(workerId),
         leaseExpiresAt := Some(now + leaseSeconds), updatedAt := now)
  }

  predicate CanClaim(s: Store, runId: string, now: int) {
    runId in s.runs && s.runs[runId].Claimable() && s.runs[runId].LeaseFree(now)
  }

  function ClaimRun(s: Store, runId: string, workerId: string, leaseSeconds: int, now: int)
    : (Store, Result<Option<StoredRun>>)
  {
    if runId !in s.runs then (s, Err(RunNotFound))
    else if !CanClaim(s, runId, now) then (s, Ok(None))
    else
      var run := Claimed(s.runs[runId], workerId, leaseSeconds, now);
      (s.(runs := s.runs[runId := run]), Ok(Some(run)))
  }

  function RenewLease(s: Store, runId: string, workerId: string, leaseSeconds: int, now: int): (Store, bool) {
    if runId !in s.runs || s.runs[runId].leaseOwner != Some(workerId) || !s.runs[runId].status.Running? then (s, false)
    else
      (s.(runs := s.runs[runId := s.runs[runId].(leaseExpiresAt := Some(now + leaseSeconds), updatedAt := now)]), true)
  }

  function ReleaseLease(s: Store, runId: string, workerId: string): (Store, bool) {
    if runId !in s.runs || s.runs[runId].leaseOwner != Some(workerId) then (s, false)
    else (s.(runs := s.runs[runId := s.runs[runId].(leaseOwner := None, leaseExpiresAt := None)]), true)
  }

  // ---- Steps ----

  function GetCompletedStep(s: Store, runId: string, key: StepKey): Option<StoredStep> {
    if (runId, key) in s.steps && s.steps[(runId, key)].status.StepCompleted? then Some(s.steps[(runId, key)]) else None
  }

  function Stepped(run: StoredRun, checkpoint: Checkpoint, target: RunStatus, now: int): StoredRun {
    run.(status := target, checkpoint := Some(checkpoint), version := run.version + 1, updatedAt := now,
         leaseOwner := if target.Running? then run.leaseOwner else None,
         leaseExpiresAt := if target.Running? then run.leaseExpiresAt else None)
  }

  /** The step wins only if its key is new; there is no guard on the run's status. */
  function SaveStep(s: Store, step: StoredStep, target: RunStatus, now: int): (Store, Result<StoredRun>) {
    if step.runId !in s.runs then (s, Err(RunNotFound))
    else if (step.runId, step.key) in s.steps then (s, Ok(s.runs[step.runId]))
    else
      var run := Stepped(s.runs[step.runId], step.checkpoint, target, now);
      (s.(steps := s.steps[(step.runId, step.key) := step], runs := s.runs[step.runId := run]), Ok(run))
  }

  // ---- Approvals, cancellation, retries ----

  function CreatePendingApproval(
    s: Store, runId: string, stepId: string, toolName: string, arguments: Arguments, now: int)
    : (Store, Result<StoredApproval>)
  {
    if runId !in s.runs then (s, Err(RunNotFound))
    else if !s.runs[runId].status.Running? then (s, Err(RunNotRunning))
    else
      var run := s.runs[runId];
      var approval := StoredApproval(runId, stepId, ApprovalPending, toolName, arguments);
      (s.(approvals := s.approvals + [approval],
          runs := s.runs[runId := run.(status := WaitingApproval, version := run.version + 1,
                                       leaseOwner := None, leaseExpiresAt := None, updatedAt := now)]),
       Ok(approval))
  }

  predicate CanDecide(s: Store, approvalId: nat) {
    && approvalId < |s.approvals| && s.approvals[approvalId].status.ApprovalPending?
    && s.approvals[approvalId].runId in s.runs && s.runs[s.approvals[approvalId].runId].status.WaitingApproval?
  }

  function DecideApproval(s: Store, approvalId: nat, approved: bool, now: int): (Store, bool) {
    if !CanDecide(s, approvalId) then (s, false)
    else
      var approval := s.approvals[approvalId];
      var decided := approval.(status := if approved then Approved else ApprovalRejected);
      (Requeue(s.(approvals := s.approvals[approvalId := decided]), approval.runId, now), true)
  }

  function RequestCancel(s: Store, runId: string, now: int): (Store, Result<StoredRun>) {
    if runId !in s.runs then (s, Err(RunNotFound))
    else
      var run := s.runs[runId];
      if run.Terminal() then (s, Ok(run))
      else
        var updated :=
          if run.status.Running? then run.(cancelRequestedAt := Some(now), updatedAt := now)
          else run.(status := Canceled, version := run.version + 1, cancelRequestedAt := Some(now),
                    leaseOwner := None, leaseExpiresAt := None, updatedAt := now);
        (s.(runs := s.runs[runId := updated]), Ok(updated))
  }

  /** The in-memory store does not look at the run's status. */
  function ScheduleRetry(s: Store, runId: string, at: int, code: string, message: string, now: int)
    : (Store, Result<StoredRun>)
  {
    if runId !in s.runs then (s, Err(RunNotFound))
    else
      var run := s.runs[runId];
      var updated := run.(status := RetryScheduled, version := run.version + 1, nextRetryAt := Some(at),
                          errorCode := Some(code), errorMessage := Some(message),
                          leaseOwner := None, leaseExpiresAt := None, updatedAt := now);
      (s.(runs := s.runs[runId := updated]), Ok(updated))
  }

  // ---- Dispatch and recovery ----

  predicate HasKey(outbox: seq<OutboxRecord>, key: DispatchKey) {
    exists i :: 0 <= i < |outbox| && outbox[i].key == key
  }

  function AddDispatch(outbox: seq<OutboxRecord>, runId: string, version: nat): seq<OutboxRecord> {
    if HasKey(outbox, DispatchKey(runId, version)) then outbox
    else outbox + [OutboxRecord(DispatchKey(runId, version), runId, None)]
  }

  /** Back to QUEUED under a new version, with the dispatch record for that version. */
  function Requeue(s: Store, runId: string, now: int): Store
    requires runId in s.runs
  {
    var run := s.runs[runId];
    s.(runs := s.runs[runId := run.(status := Queued, version := run.version + 1, updatedAt := now)],
       outbox := AddDispatch(s.outbox, runId, run.version + 1))
  }

  datatype Recovery = ExpiredLeases | DueRetries

  predicate Recoverable(kind: Recovery, run: StoredRun, now: int) {
    match kind
    case ExpiredLeases => run.LeaseExpired(now)
    case DueRetries => run.RetryDue(now)
  }

  /** One round of a recovery loop. */
  function Recover(kind: Recovery, s: Store, runId: string, now: int): Store
    requires runId in s.runs
  {
    var run := s.runs[runId];
    var cleared :=
      match kind
      case ExpiredLeases => run.(attemptCount := run.attemptCount + 1, leaseOwner := None, leaseExpiresAt := None)
      case DueRetries => run.(nextRetryAt := None);
    Requeue(s.(runs := s.runs[runId := cleared]), runId, now)
  }

  function RecoverableIn(kind: Recovery, s: Store, ids: seq<string>, now: int): (r: seq<string>)
    ensures forall id <- r :: id in ids && id in s.runs && Recoverable(kind, s.runs[id], now)
  {
    if ids == [] then []
    else
      var last := ids[|ids| - 1];
      RecoverableIn(kind, s, ids[..|ids| - 1], now) +
      if last in s.runs && Recoverable(kind, s.runs[last], now) then [last] else []
  }

  function RecoverAll(kind: Recovery, s: Store, ids: seq<string>, now: int): (r: Store)
    requires forall id <- ids :: id in s.runs
    ensures r.runs.Keys == s.runs.Keys
  {
    if ids == [] then s
    else Recover(kind, RecoverAll(kind, s, ids[..|ids| - 1], now), ids[|ids| - 1], now)
  }

  function Candidates(kind: Recovery, s: Store, limit: nat, now: int): (r: seq<string>)
    ensures forall id <- r :: id in s.runs && Recoverable(kind, s.runs[id], now)
  {
    Take(RecoverableIn(kind, s, s.order, now), limit)
  }

  function RequeueBatch(kind: Recovery, s: Store, limit: nat, now: int): (Store, nat) {
    var ids := Candidates(kind, s, limit, now);
    (RecoverAll(kind, s, ids, now), |ids|)
  }

  // ---- Events and the outbox ----

  function AppendEvent(s: Store, runId: string, event: Event, now: int): (Store, Result<StoredEvent>) {
    if runId !in s.runs || runId !in s.events then (s, Err(RunNotFound))
    else
      var stored := StoredEvent(|s.events[runId]|, event, now);
      (s.(events := s.events[runId := s.events[runId] + [stored]]), Ok(stored))
  }

  /** Sequence numbers are 0, 1, 2, ... */
  predicate Numbered(log: seq<StoredEvent>) {
    forall i :: 0 <= i < |log| ==> log[i].sequence == i
  }

  /** `coalesce(max(sequence), -1)` */
  function LargestSequence(log: seq<StoredEvent>): (n: int)
    ensures n >= -1
  {
    if log == [] then -1 else Max(LargestSequence(log[..|log| - 1]), log[|log| - 1].sequence)
  }

  /** Taking the length as the next number and taking the largest number plus one are the same. */
  lemma {:induction false} NextNumberIsTheLength(log: seq<StoredEvent>)
    requires Numbered(log)
    ensures LargestSequence(log) + 1 == |log|
  {
    if log != [] {
      NextNumberIsTheLength(log[..|log| - 1]);
    }
  }

  function Newer(log: seq<StoredEvent>, after: int): seq<StoredEvent> {
    if log == [] then []
    else Newer(log[..|log| - 1], after) + if log[|log| - 1].sequence > after then [log[|log| - 1]] else []
  }

  function ListEvents(s: Store, runId: string, after: int, limit: nat): seq<StoredEvent> {
    if runId in s.events then Take(Newer(s.events[runId], after), limit) else []
  }

  function UnpublishedIn(outbox: seq<OutboxRecord>): (r: seq<nat>)
    ensures forall k :: 0 <= k < |r| ==> r[k] < |outbox| && outbox[r[k]].publishedAt.None?
  {
    if outbox == [] then []
    else
      UnpublishedIn(outbox[..|outbox| - 1]) +
      if outbox[|outbox| - 1].publishedAt.None? then [|outbox| - 1] else []
  }

  /** The ids of the first unpublished records. */
  function ListUnpublished(s: Store, limit: nat): (r: seq<nat>)
    ensures forall k :: 0 <= k < |r| ==> r[k] < |s.outbox| && s.outbox[r[k]].publishedAt.None?
  {
    Take(UnpublishedIn(s.outbox), limit)
  }

  function MarkPublished(s: Store, outboxId: nat, now: int): (Store, bool) {
    if |s.outbox| <= outboxId || s.outbox[outboxId].publishedAt.Some? then (s, false)
    else (s.(outbox := s.outbox[outboxId := s.outbox[outboxId].(publishedAt := Some(now))]), true)
  }

  // ---- What holds of the dictionaries in every state ----

  ghost predicate Valid(s: Store) {
    && NoDuplicates(s.order)
    && (forall id :: id in s.order <==> id in s.runs)
    && s.events.Keys == s.runs.Keys
    && (forall id <- s.runs :: s.runs[id].runId == id)
    && (forall k <- s.steps :: k.0 in s.runs && s.steps[k].runId == k.0 && s.steps[k].key == k.1)
    && (forall a <- s.approvals :: a.runId in s.runs)
  }

  lemma RecoverNext(kind: Recovery, s: Store, ids: seq<string>, i: nat, now: int)
    requires i < |ids| && forall id <- ids :: id in s.runs
    ensures RecoverAll(kind, s, ids[..i + 1], now) == Recover(kind, RecoverAll(kind, s, ids[..i], now), ids[i], now)
  {
    assert ids[..i + 1][..i] == ids[..i];
  }

  // ---- Recovery never meets a run twice ----

  lemma {:induction false} RecoverableDistinct(kind: Recovery, s: Store, ids: seq<string>, now: int)
    requires NoDuplicates(ids)
    ensures NoDuplicates(RecoverableIn(kind, s, ids, now))
  {
    if ids != [] {
      RecoverableDistinct(kind, s, ids[..|ids| - 1], now);
      assert ids[|ids| - 1] !in ids[..|ids| - 1];
    }
  }

  lemma CandidatesDistinct(kind: Recovery, s: Store, limit: nat, now: int)
    requires Valid(s)
    ensures NoDuplicates(Candidates(kind, s, limit, now))
  {
    RecoverableDistinct(kind, s, s.order, now);
  }
}
