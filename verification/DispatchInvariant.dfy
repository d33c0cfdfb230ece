/** What every action keeps about leases, the outbox and the queue. */
module DispatchInvariant {
  import opened Common
  import opened Execution
  import opened StepMachine
  import opened RunRecords
  import opened StoreSpec
  import opened RunQueue
  import opened Protocol

  /** Owner and expiry are set together, and only on a RUNNING run. */
  predicate LeaseOk(run: StoredRun) {
    run.leaseOwner.Some? == run.leaseExpiresAt.Some? && (run.leaseOwner.Some? ==> run.status.Running?)
  }

  ghost predicate Leases(s: Store) {
    forall id <- s.runs :: LeaseOk(s.runs[id])
  }

  /** Dispatch keys are unique, belong to an existing run and never run ahead of its version. */
  ghost predicate OutboxOk(s: Store) {
    && (forall i :: 0 <= i < |s.outbox| ==>
          && s.outbox[i].key.runId == s.outbox[i].runId && s.outbox[i].runId in s.runs
          && s.outbox[i].key.version <= s.runs[s.outbox[i].runId].version)
    && (forall i, j :: 0 <= i < j < |s.outbox| ==> s.outbox[i].key != s.outbox[j].key)
  }

  ghost predicate DispatcherOk(s: System, d: Dispatcher) {
    && (forall k :: 0 <= k < |d.batch| ==> d.batch[k] < |s.store.outbox|)
    && (d.enqueued ==> d.batch != [] && s.store.outbox[d.batch[0]].key in s.queue.keys)
  }

  /** Published implies enqueued, and each key was pushed at most once. */
  ghost predicate QueueOk(s: System) {
    && (forall i :: 0 <= i < |s.store.outbox| && s.store.outbox[i].publishedAt.Some? ==>
          s.store.outbox[i].key in s.queue.keys)
    && (forall k <- s.queue.keys :: HasKey(s.store.outbox, k))
    && (forall id <- s.queue.pending :: id in s.store.runs)
    && NoDuplicates(s.queue.pushed) && (forall k :: k in s.queue.pushed <==> k in s.queue.keys)
    && (forall d <- s.dispatchers :: DispatcherOk(s, s.dispatchers[d]))
  }

  /** A QUEUED run is on the queue, or the dispatch record of its current version has yet to be enqueued. */
  predicate Awake(s: System, id: string)
    requires id in s.store.runs
  {
    var run := s.store.runs[id];
    run.status.Queued? ==>
      id in s.queue.pending || (HasKey(s.store.outbox, DispatchKey(id, run.version))
                                && DispatchKey(id, run.version) !in s.queue.keys)
  }

  ghost predicate AllAwake(s: System) {
    forall id <- s.store.runs :: Awake(s, id)
  }

  ghost predicate DispatchOk(s: System) {
    Valid(s.store) && Leases(s.store) && OutboxOk(s.store) && QueueOk(s) && AllAwake(s)
  }

  // ---- Changing one run and nothing else that matters here ----

  /** t is s with run id replaced; steps, events and approvals are free to differ. */
  ghost predicate OneRunChanged(s: System, t: System, id: string) {
    && id in s.store.runs && id in t.store.runs
    && t.store.runs == s.store.runs[id := t.store.runs[id]]
    && t.store.order == s.store.order && t.store.outbox == s.store.outbox
    && t.queue == s.queue && t.dispatchers == s.dispatchers
  }

  /** The run keeps its id, its version does not fall, and it does not become QUEUED. */
  predicate SafeChange(before: StoredRun, after: StoredRun) {
    && after.runId == before.runId && before.version <= after.version && LeaseOk(after)
    && (after.status.Queued? ==> before.status.Queued? && after.version == before.version)
  }

  lemma ChangeKeepsOutbox(s: Store, t: Store, id: string)
    requires OutboxOk(s) && t.outbox == s.outbox && id in s.runs && id in t.runs
    requires t.runs == s.runs[id := t.runs[id]] && s.runs[id].version <= t.runs[id].version
    ensures OutboxOk(t)
  {
    forall i | 0 <= i < |t.outbox| ensures t.outbox[i].key.version <= t.runs[t.outbox[i].runId].version {
      var owner := t.outbox[i].runId;
      if owner != id {
        assert t.runs[owner] == s.runs[owner];
      }
    }
  }

  lemma ChangeKeepsAwake(s: System, t: System, id: string)
    requires Leases(s.store) && AllAwake(s) && OneRunChanged(s, t, id)
    requires SafeChange(s.store.runs[id], t.store.runs[id])
    ensures Leases(t.store) && AllAwake(t)
  {
    forall other | other in t.store.runs ensures Awake(t, other) && LeaseOk(t.store.runs[other]) {
      assert other in s.store.runs && Awake(s, other);
      if other != id {
        assert t.store.runs[other] == s.store.runs[other];
      }
    }
  }

  lemma ChangeKeeps(s: System, t: System, id: string)
    requires DispatchOk(s) && OneRunChanged(s, t, id) && Valid(t.store)
    requires SafeChange(s.store.runs[id], t.store.runs[id])
    ensures DispatchOk(t)
  {
    ChangeKeepsOutbox(s.store, t.store, id);
    ChangeKeepsAwake(s, t, id);
    QueueSeesMore(s, t);
  }

  /** Nothing this invariant reads has changed. */
  lemma SameKeeps(s: System, t: System)
    requires DispatchOk(s) && Valid(t.store)
    requires t.store.runs == s.store.runs && t.store.outbox == s.store.outbox
    requires t.queue == s.queue && t.dispatchers == s.dispatchers
    ensures DispatchOk(t)
  {
    forall id | id in t.store.runs ensures Awake(t, id) { assert Awake(s, id); }
    forall d | d in t.dispatchers
      ensures DispatcherOk(t, t.dispatchers[d]) {
      assert DispatcherOk(s, s.dispatchers[d]);
    }
  }

  // ---- Going back to QUEUED ----

  /** The duplicate check of `_add_dispatch_outbox` never swallows a dispatch. */
  lemma DispatchIsNew(s: Store, id: string)
    requires OutboxOk(s) && id in s.runs
    ensures !HasKey(s.outbox, DispatchKey(id, s.runs[id].version + 1))
  {
  }

  /** t is s with run id QUEUED under a higher version and its dispatch record added. */
  ghost predicate Requeued(s: System, t: System, id: string) {
    && id in s.store.runs && id in t.store.runs
    && t.store.runs == s.store.runs[id := t.store.runs[id]] && t.store.order == s.store.order
    && t.store.runs[id].runId == id && t.store.runs[id].status.Queued?
    && t.store.runs[id].version == s.store.runs[id].version + 1
    && t.store.outbox == s.store.outbox + [OutboxRecord(DispatchKey(id, t.store.runs[id].version), id, None)]
    && t.queue == s.queue && t.dispatchers == s.dispatchers
  }

  lemma OutboxGrows(s: Store, t: Store, id: string)
    requires OutboxOk(s) && id in t.runs && s.runs.Keys <= t.runs.Keys
    requires t.outbox == s.outbox + [OutboxRecord(DispatchKey(id, t.runs[id].version), id, None)]
    requires forall other <- s.runs :: s.runs[other].version <= t.runs[other].version
    requires id in s.runs ==> s.runs[id].version < t.runs[id].version
    ensures OutboxOk(t) && HasKey(t.outbox, DispatchKey(id, t.runs[id].version))
  {
    var n := |s.outbox|;
    assert t.outbox[n].key == DispatchKey(id, t.runs[id].version);
    forall i | 0 <= i < n ensures t.outbox[i] == s.outbox[i] && t.outbox[i].key != t.outbox[n].key {
    }
  }

  lemma QueueSeesMore(s: System, t: System)
    requires QueueOk(s) && t.queue == s.queue && t.dispatchers == s.dispatchers
    requires s.store.runs.Keys <= t.store.runs.Keys && |s.store.outbox| <= |t.store.outbox|
    requires t.store.outbox[..|s.store.outbox|] == s.store.outbox
    requires forall i :: |s.store.outbox| <= i < |t.store.outbox| ==> t.store.outbox[i].publishedAt.None?
    ensures QueueOk(t)
  {
    assert forall i :: 0 <= i < |s.store.outbox| ==> t.store.outbox[i] == s.store.outbox[i];
    forall k | k in t.queue.keys ensures HasKey(t.store.outbox, k) {
      assert HasKey(s.store.outbox, k);
      var i :| 0 <= i < |s.store.outbox| && s.store.outbox[i].key == k;
      assert t.store.outbox[i].key == k;
    }
    forall d | d in t.dispatchers
      ensures DispatcherOk(t, t.dispatchers[d]) {
      assert DispatcherOk(s, s.dispatchers[d]);
    }
  }

  lemma StaysAwake(s: System, t: System, id: string)
    requires id in s.store.runs && Awake(s, id) && id in t.store.runs
    requires t.store.runs[id] == s.store.runs[id] && t.queue == s.queue
    requires |s.store.outbox| <= |t.store.outbox| && t.store.outbox[..|s.store.outbox|] == s.store.outbox
    ensures Awake(t, id)
  {
    var key := DispatchKey(id, s.store.runs[id].version);
    if HasKey(s.store.outbox, key) {
      var i :| 0 <= i < |s.store.outbox| && s.store.outbox[i].key == key;
      assert t.store.outbox[i].key == key;
    }
  }

  lemma RequeueKeepsAwake(s: System, t: System, id: string)
    requires OutboxOk(s.store) && QueueOk(s) && AllAwake(s) && Requeued(s, t, id)
    requires HasKey(t.store.outbox, DispatchKey(id, t.store.runs[id].version))
    ensures AllAwake(t)
  {
    DispatchIsNew(s.store, id);
    assert DispatchKey(id, t.store.runs[id].version) !in s.queue.keys;
    assert t.store.outbox[..|s.store.outbox|] == s.store.outbox;
    forall other | other in t.store.runs ensures Awake(t, other) {
      if other != id {
        StaysAwake(s, t, other);
      }
    }
  }

  lemma RequeueKeeps(s: System, t: System, id: string)
    requires DispatchOk(s) && Requeued(s, t, id) && Valid(t.store) && LeaseOk(t.store.runs[id])
    ensures DispatchOk(t)
  {
    OutboxGrows(s.store, t.store, id);
    RequeueKeepsAwake(s, t, id);
    assert t.store.outbox[..|s.store.outbox|] == s.store.outbox;
    QueueSeesMore(s, t);
  }

  // ---- Action by action ----

  lemma CreateKeeps(s: System, run: NewRun)
    requires DispatchOk(s)
    ensures DispatchOk(DoCreate(s, run))
  {
    var t := DoCreate(s, run);
    if run.runId !in s.store.runs {
      var id := run.runId;
      assert Valid(t.store);
      OutboxGrows(s.store, t.store, id);
      assert t.store.outbox[..|s.store.outbox|] == s.store.outbox;
      QueueSeesMore(s, t);
      assert !HasKey(s.store.outbox, DispatchKey(id, 0));
      forall other | other in t.store.runs ensures Awake(t, other) && LeaseOk(t.store.runs[other]) {
        if other != id {
          StaysAwake(s, t, other);
        }
      }
    }
  }

  lemma ClaimKeeps(s: System, runId: string, workerId: string, leaseSeconds: int)
    requires DispatchOk(s)
    ensures DispatchOk(DoClaim(s, runId, workerId, leaseSeconds))
  {
    if CanClaim(s.store, runId, s.now) {
      ChangeKeeps(s, DoClaim(s, runId, workerId, leaseSeconds), runId);
    }
  }

  /** In a reachable store a claim succeeds exactly on a QUEUED or RETRY_SCHEDULED run. */
  lemma ClaimableIsEnough(s: Store, runId: string, now: int)
    requires Leases(s) && runId in s.runs
    ensures CanClaim(s, runId, now) <==> s.runs[runId].status.Queued? || s.runs[runId].status.RetryScheduled?
  {
    assert LeaseOk(s.runs[runId]);
  }

  lemma PopKeeps(s: System, workerId: string, leaseSeconds: int)
    requires DispatchOk(s)
    ensures DispatchOk(DoPopAndClaim(s, workerId, leaseSeconds))
  {
    var (queue, popped) := Pop(s.queue);
    if popped.Some? {
      var id, t := popped.value, DoPopAndClaim(s, workerId, leaseSeconds);
      assert id in s.queue.pending;
      ClaimableIsEnough(s.store, id, s.now);
      ClaimKeeps(s, id, workerId, leaseSeconds);
      var u := DoClaim(s, id, workerId, leaseSeconds);
      assert t.store == u.store && t.dispatchers == u.dispatchers;
      forall d | d in t.dispatchers
        ensures DispatcherOk(t, t.dispatchers[d]) {
        assert DispatcherOk(u, u.dispatchers[d]);
      }
      forall other | other in t.store.runs ensures Awake(t, other) {
        assert Awake(u, other);
        if other == id {
          assert !t.store.runs[id].status.Queued?;
        } else if other in s.queue.pending {
          assert s.queue.pending == [id] + queue.pending;
        }
      }
    }
  }

  lemma RenewKeeps(s: System, runId: string, workerId: string, leaseSeconds: int)
    requires DispatchOk(s)
    ensures DispatchOk(s.(store := RenewLease(s.store, runId, workerId, leaseSeconds, s.now).0))
  {
    if RenewLease(s.store, runId, workerId, leaseSeconds, s.now).1 {
      ChangeKeeps(s, s.(store := RenewLease(s.store, runId, workerId, leaseSeconds, s.now).0), runId);
    }
  }

  lemma ReleaseKeeps(s: System, runId: string, workerId: string)
    requires DispatchOk(s)
    ensures DispatchOk(s.(store := ReleaseLease(s.store, runId, workerId).0))
  {
    if ReleaseLease(s.store, runId, workerId).1 {
      ChangeKeeps(s, s.(store := ReleaseLease(s.store, runId, workerId).0), runId);
    }
  }

  lemma SaveKeeps(s: System, worker: string, stepId: string)
    requires DispatchOk(s)
    ensures DispatchOk(DoSave(s, worker, stepId))
  {
    if worker in s.workers && s.workers[worker].Computed? {
      var pc, t := s.workers[worker], DoSave(s, worker, stepId);
      if Wins(s.store, pc.runId, pc.base) {
        ChangeKeeps(s, t, pc.runId);
      } else {
        SameKeeps(s, t);
      }
    }
  }

  lemma AppendKeepsValid(s: Store, runId: string, event: Event, now: int)
    requires Valid(s)
    ensures Valid(AppendEvent(s, runId, event, now).0)
  {
    assert AppendEvent(s, runId, event, now).0.events.Keys == s.events.Keys;
  }

  lemma PublishKeeps(s: System, worker: string)
    requires DispatchOk(s)
    ensures DispatchOk(DoPublish(s, worker))
  {
    if worker in s.workers && s.workers[worker].Publishing? && s.workers[worker].events != [] {
      AppendKeepsValid(s.store, s.workers[worker].runId, s.workers[worker].events[0], s.now);
    }
    SameKeeps(s, DoPublish(s, worker));
  }

  lemma OpenApprovalKeeps(s: System, runId: string, stepId: string, toolName: string, arguments: Arguments)
    requires DispatchOk(s)
    ensures DispatchOk(DoOpenApproval(s, runId, stepId, toolName, arguments))
  {
    if runId in s.store.runs && s.store.runs[runId].status.Running? {
      ChangeKeeps(s, DoOpenApproval(s, runId, stepId, toolName, arguments), runId);
    }
  }

  lemma DecideKeeps(s: System, approvalId: nat, approved: bool)
    requires DispatchOk(s)
    ensures DispatchOk(DoDecide(s, approvalId, approved))
  {
    if CanDecide(s.store, approvalId) {
      var id := s.store.approvals[approvalId].runId;
      DispatchIsNew(s.store, id);
      assert LeaseOk(s.store.runs[id]);
      RequeueKeeps(s, DoDecide(s, approvalId, approved), id);
    }
  }

  lemma CancelIsSafe(s: System, runId: string)
    requires runId in s.store.runs && LeaseOk(s.store.runs[runId])
    ensures OneRunChanged(s, DoCancel(s, runId), runId)
    ensures SafeChange(s.store.runs[runId], DoCancel(s, runId).store.runs[runId])
  {
    var t := DoCancel(s, runId);
    assert t.store.runs == s.store.runs[runId := t.store.runs[runId]];
  }

  lemma CancelKeepsValid(s: System, runId: string)
    requires Valid(s.store) && runId in s.store.runs
    ensures Valid(DoCancel(s, runId).store)
  {
  }

  lemma CancelKeeps(s: System, runId: string)
    requires DispatchOk(s)
    ensures DispatchOk(DoCancel(s, runId))
  {
    if runId in s.store.runs {
      assert LeaseOk(s.store.runs[runId]);
      CancelIsSafe(s, runId);
      CancelKeepsValid(s, runId);
      ChangeKeeps(s, DoCancel(s, runId), runId);
    }
  }

  lemma RetryKeeps(p: Params, s: System, runId: string, at: int, code: string, message: string)
    requires DispatchOk(s)
    ensures DispatchOk(DoRetry(p, s, runId, at, code, message))
  {
    var t := DoRetry(p, s, runId, at, code, message);
    if runId in s.store.runs && (!p.guardedRetry || s.store.runs[runId].status.Running?) {
      ChangeKeeps(s, t, runId);
    }
  }

  /** What recovery relies on: the run still is what it was when it was selected. */
  lemma RecoverOneKeeps(kind: Recovery, s: System, runId: string)
    requires DispatchOk(s) && runId in s.store.runs && Recoverable(kind, s.store.runs[runId], s.now)
    ensures DispatchOk(RecoverOne(kind, s, runId))
  {
    DispatchIsNew(s.store, runId);
    assert LeaseOk(s.store.runs[runId]);
    RequeueKeeps(s, RecoverOne(kind, s, runId), runId);
  }

  lemma {:induction false} RecoverEachKeeps(kind: Recovery, s: System, ids: seq<string>)
    requires DispatchOk(s) && NoDuplicates(ids)
    requires forall id <- ids :: id in s.store.runs && Recoverable(kind, s.store.runs[id], s.now)
    ensures var t := RecoverEach(kind, s, ids);
      DispatchOk(t) && t.now == s.now && t.store.runs.Keys == s.store.runs.Keys
      && forall id <- s.store.runs :: id !in ids ==> t.store.runs[id] == s.store.runs[id]
  {
    if ids != [] {
      var init, last := ids[..|ids| - 1], ids[|ids| - 1];
      assert last !in init;
      RecoverEachKeeps(kind, s, init);
      RecoverOneKeeps(kind, RecoverEach(kind, s, init), last);
    }
  }

  lemma RecoverBatchKeeps(kind: Recovery, s: System, limit: nat)
    requires DispatchOk(s)
    ensures DispatchOk(RecoverEach(kind, s, Candidates(kind, s.store, limit, s.now)))
  {
    CandidatesDistinct(kind, s.store, limit, s.now);
    RecoverEachKeeps(kind, s, Candidates(kind, s.store, limit, s.now));
  }

  lemma ListKeeps(s: System, dispatcher: string, limit: nat)
    requires DispatchOk(s)
    ensures DispatchOk(s.(dispatchers :=
                            s.dispatchers[dispatcher := Dispatcher(ListUnpublished(s.store, limit), false)]))
  {
    var t := s.(dispatchers := s.dispatchers[dispatcher := Dispatcher(ListUnpublished(s.store, limit), false)]);
    forall d | d in t.dispatchers ensures DispatcherOk(t, t.dispatchers[d]) {
      if d != dispatcher {
      assert DispatcherOk(s, s.dispatchers[d]);
    }
    }
    forall id | id in t.store.runs ensures Awake(t, id) { assert Awake(s, id); }
  }

  lemma EnqueueKeepsAwake(s: System, t: System, i: nat, id: string)
    requires OutboxOk(s.store) && i < |s.store.outbox| && t.store == s.store
    requires t.queue == Enqueue(s.queue, s.store.outbox[i].runId, s.store.outbox[i].key)
    requires id in s.store.runs && Awake(s, id)
    ensures Awake(t, id)
  {
  }

  lemma PushKeeps(s: System, dispatcher: string)
    requires DispatchOk(s)
    ensures DispatchOk(DoPush(s, dispatcher))
  {
    var t := DoPush(s, dispatcher);
    if t != s {
      var d := s.dispatchers[dispatcher];
      var i := d.batch[0];
      assert HasKey(s.store.outbox, s.store.outbox[i].key);
      assert s.queue.keys <= t.queue.keys;
      forall other | other in t.dispatchers ensures DispatcherOk(t, t.dispatchers[other]) {
        assert DispatcherOk(s, s.dispatchers[other]);
      }
      forall id | id in t.store.runs ensures Awake(t, id) {
        EnqueueKeepsAwake(s, t, i, id);
      }
    }
  }

  /** t differs from s in publication times only. */
  ghost predicate SameRecords(s: Store, t: Store) {
    && t == s.(outbox := t.outbox) && |t.outbox| == |s.outbox|
    && forall i :: 0 <= i < |s.outbox| ==> t.outbox[i].key == s.outbox[i].key && t.outbox[i].runId == s.outbox[i].runId
  }

  lemma MarkKeepsRecords(s: Store, id: nat, now: int)
    ensures SameRecords(s, MarkPublished(s, id, now).0)
  {
  }

  lemma SameRecordsKeep(s: System, t: System)
    requires Valid(s.store) && Leases(s.store) && OutboxOk(s.store) && AllAwake(s)
    requires SameRecords(s.store, t.store) && t.queue == s.queue
    ensures Valid(t.store) && Leases(t.store) && OutboxOk(t.store) && AllAwake(t)
  {
    forall id | id in t.store.runs ensures Awake(t, id) {
      assert Awake(s, id);
      SameKeys(s.store.outbox, t.store.outbox, DispatchKey(id, s.store.runs[id].version));
    }
  }

  lemma MarkKeeps(s: System, dispatcher: string)
    requires DispatchOk(s)
    ensures DispatchOk(DoMark(s, dispatcher))
  {
    var t := DoMark(s, dispatcher);
    if t != s {
      assert DispatcherOk(s, s.dispatchers[dispatcher]);
      var i := s.dispatchers[dispatcher].batch[0];
      MarkKeepsRecords(s.store, i, s.now);
      SameRecordsKeep(s, t);
      MarkKeepsQueue(s, t, dispatcher, i);
    }
  }

  lemma SameKeys(a: seq<OutboxRecord>, b: seq<OutboxRecord>, key: DispatchKey)
    requires |a| == |b| && forall i :: 0 <= i < |a| ==> a[i].key == b[i].key
    ensures HasKey(a, key) <==> HasKey(b, key)
  {
    if HasKey(a, key) {
      var i :| 0 <= i < |a| && a[i].key == key;
      assert b[i].key == key;
    }
  }

  lemma MarkKeepsQueue(s: System, t: System, dispatcher: string, i: nat)
    requires QueueOk(s) && i < |s.store.outbox| && s.store.outbox[i].key in s.queue.keys
    requires t.store.runs == s.store.runs && t.queue == s.queue && |t.store.outbox| == |s.store.outbox|
    requires forall j :: 0 <= j < |s.store.outbox| ==> t.store.outbox[j].key == s.store.outbox[j].key
    requires forall j :: 0 <= j < |s.store.outbox| && j != i ==> t.store.outbox[j] == s.store.outbox[j]
    requires dispatcher in s.dispatchers && s.dispatchers[dispatcher].batch != []
    requires t.dispatchers == s.dispatchers[dispatcher := Dispatcher(s.dispatchers[dispatcher].batch[1..], false)]
    ensures QueueOk(t)
  {
    forall k | k in t.queue.keys ensures HasKey(t.store.outbox, k) { SameKeys(s.store.outbox, t.store.outbox, k); }
    forall d | d in t.dispatchers ensures DispatcherOk(t, t.dispatchers[d]) {
      assert DispatcherOk(s, s.dispatchers[d]);
      if d == dispatcher {
        forall k | 0 <= k < |t.dispatchers[d].batch| ensures t.dispatchers[d].batch[k] < |t.store.outbox| {
          assert t.dispatchers[d].batch[k] == s.dispatchers[d].batch[k + 1];
        }
      }
    }
  }

  lemma LeaseStep(p: Params, s: System, a: Action)
    requires DispatchOk(s) && (a.Create? || a.Claim? || a.Renew? || a.Release?)
    ensures DispatchOk(Perform(p, s, a))
  {
    match a {
      case Create(run) => CreateKeeps(s, run);
      case Claim(runId, workerId, leaseSeconds) => ClaimKeeps(s, runId, workerId, leaseSeconds);
      case Renew(runId, workerId, leaseSeconds) => RenewKeeps(s, runId, workerId, leaseSeconds);
      case Release(runId, workerId) => ReleaseKeeps(s, runId, workerId);
    }
  }

  lemma ApprovalStep(p: Params, s: System, a: Action)
    requires DispatchOk(s) && (a.OpenApproval? || a.Decide?)
    ensures DispatchOk(Perform(p, s, a))
  {
    match a {
      case OpenApproval(runId, stepId, toolName, arguments) => OpenApprovalKeeps(s, runId, stepId, toolName, arguments);
      case Decide(approvalId, approved) => DecideKeeps(s, approvalId, approved);
    }
  }

  lemma ClientStep(p: Params, s: System, a: Action)
    requires DispatchOk(s) && (a.Cancel? || a.Retry?)
    ensures DispatchOk(Perform(p, s, a))
  {
    match a {
      case Cancel(runId) => CancelKeeps(s, runId);
      case Retry(runId, at, code, message) => RetryKeeps(p, s, runId, at, code, message);
    }
  }

  lemma RunStep(p: Params, s: System, a: Action)
    requires DispatchOk(s) && a.OnRuns()
    ensures DispatchOk(Perform(p, s, a))
  {
    if a.Create? || a.Claim? || a.Renew? || a.Release? {
      LeaseStep(p, s, a);
    } else if a.RecoverBatch? {
      RecoverBatchKeeps(a.kind, s, a.limit);
    } else if a.OpenApproval? || a.Decide? {
      ApprovalStep(p, s, a);
    } else {
      ClientStep(p, s, a);
    }
  }

  lemma WorkerWrites(p: Params, s: System, a: Action)
    requires DispatchOk(s) && (a.Save? || a.Publish?)
    ensures DispatchOk(Perform(p, s, a))
  {
    match a {
      case Save(worker, stepId) => SaveKeeps(s, worker, stepId);
      case Publish(worker) => PublishKeeps(s, worker);
    }
  }

  lemma WorkerStep(p: Params, s: System, a: Action)
    requires DispatchOk(s) && a.OfWorker()
    ensures DispatchOk(Perform(p, s, a))
  {
    if a.Save? || a.Publish? {
      WorkerWrites(p, s, a);
    } else {
      WorkerReads(p, s, a);
      SameKeeps(s, Perform(p, s, a));
    }
  }

  lemma WorkerReads(p: Params, s: System, a: Action)
    requires a.OfWorker() && !a.Save? && !a.Publish?
    ensures var t := Perform(p, s, a); t.store == s.store && t.queue == s.queue && t.dispatchers == s.dispatchers
  {
  }

  lemma DispatcherStep(p: Params, s: System, a: Action)
    requires DispatchOk(s) && !a.OnRuns() && !a.OfWorker()
    ensures DispatchOk(Perform(p, s, a))
  {
    match a {
      case Tick(_) => SameKeeps(s, Perform(p, s, a));
      case PopAndClaim(workerId, leaseSeconds) => PopKeeps(s, workerId, leaseSeconds);
      case List(dispatcher, limit) => ListKeeps(s, dispatcher, limit);
      case Push(dispatcher) => PushKeeps(s, dispatcher);
      case Mark(dispatcher) => MarkKeeps(s, dispatcher);
      case Abandon(dispatcher) => AbandonKeeps(s, dispatcher);
    }
  }

  /** Every action keeps all of it. */
  lemma DispatchStep(p: Params, s: System, a: Action)
    requires DispatchOk(s)
    ensures DispatchOk(Perform(p, s, a))
  {
    if a.OnRuns() {
      RunStep(p, s, a);
    } else if a.OfWorker() {
      WorkerStep(p, s, a);
    } else {
      DispatcherStep(p, s, a);
    }
  }

  lemma AbandonKeeps(s: System, dispatcher: string)
    requires DispatchOk(s)
    ensures DispatchOk(s.(dispatchers := s.dispatchers - {dispatcher}))
  {
    var t := s.(dispatchers := s.dispatchers - {dispatcher});
    forall d | d in t.dispatchers
      ensures DispatcherOk(t, t.dispatchers[d]) {
      assert DispatcherOk(s, s.dispatchers[d]);
    }
    forall id | id in t.store.runs ensures Awake(t, id) { assert Awake(s, id); }
  }
}
