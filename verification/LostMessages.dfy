/** Why a worker must claim in the step that takes a message off the queue (app/queue/run_queue.py): what a pop alone
    would lose, and that nothing but a call on the run itself brings it back. */
module LostMessages {
  import opened Common
  import opened Execution
  import opened RunRecords
  import opened StoreSpec
  import opened RunQueue
  import opened Protocol
  import opened DispatchInvariant
  import opened Guarantees

  /** Taking a message, and no more. */
  function Popped(s: System): System { s.(queue := Pop(s.queue).0) }

  /** The dispatch record of the run's current version is unpublished and was never enqueued. */
  predicate DispatchIsComing(s: System, id: string)
    requires id in s.store.runs
  {
    var key := DispatchKey(id, s.store.runs[id].version);
    && key !in s.queue.keys
    && exists i :: 0 <= i < |s.store.outbox| && s.store.outbox[i].key == key && s.store.outbox[i].publishedAt.None?
  }

  /** QUEUED, on no queue, and with no record left that a dispatch could still enqueue. */
  ghost predicate Lost(s: System, id: string) {
    && id in s.store.runs && s.store.runs[id].status.Queued? && id !in s.queue.pending
    && forall i :: 0 <= i < |s.store.outbox| && s.store.outbox[i].runId == id ==> s.store.outbox[i].key in s.queue.keys
  }

  /** In every reachable state: a pop without a claim leaves a QUEUED run awake exactly when the run is further down the
      queue or its current dispatch is still to come, and loses it exactly when it is not further down the queue and all
      its records have been enqueued. */
  lemma PopWithoutClaimIff(p: Params, actions: seq<Action>, id: string)
    requires id in Run(p, actions).store.runs && Run(p, actions).store.runs[id].status.Queued?
    requires Run(p, actions).queue.pending != []
    ensures var s := Run(p, actions);
      && (Awake(Popped(s), id) <==> id in s.queue.pending[1..] || DispatchIsComing(s, id))
      && (Lost(Popped(s), id) <==>
            id !in s.queue.pending[1..]
            && forall i ::
                 0 <= i < |s.store.outbox| && s.store.outbox[i].publishedAt.None? && s.store.outbox[i].runId == id
                 ==> s.store.outbox[i].key in s.queue.keys)
  {
    Always(p, actions);
    var s := Run(p, actions);
    var key := DispatchKey(id, s.store.runs[id].version);
    if HasKey(s.store.outbox, key) && key !in s.queue.keys {
      var i :| 0 <= i < |s.store.outbox| && s.store.outbox[i].key == key;
      assert s.store.outbox[i].publishedAt.None?;
    }
  }

  // ---- Lost is lost ----

  /** The run is as it was, and records were only added, for other runs. */
  ghost predicate LeftAlone(s: System, t: System, id: string) {
    && id in s.store.runs && id in t.store.runs && t.store.runs[id] == s.store.runs[id]
    && |s.store.outbox| <= |t.store.outbox|
    && (forall i :: 0 <= i < |s.store.outbox| ==>
          t.store.outbox[i].runId == s.store.outbox[i].runId && t.store.outbox[i].key == s.store.outbox[i].key)
    && forall i :: |s.store.outbox| <= i < |t.store.outbox| ==> t.store.outbox[i].runId != id
  }

  lemma LeftAloneIsLost(s: System, t: System, id: string)
    requires Lost(s, id) && LeftAlone(s, t, id) && s.queue.keys <= t.queue.keys && id !in t.queue.pending
    ensures Lost(t, id)
  {
    forall i | 0 <= i < |t.store.outbox| && t.store.outbox[i].runId == id
      ensures t.store.outbox[i].key in t.queue.keys {
      assert i < |s.store.outbox| && s.store.outbox[i].key in s.queue.keys;
    }
  }

  lemma {:induction false} RecoveryLeavesAlone(kind: Recovery, s: System, ids: seq<string>, id: string)
    requires id in s.store.runs && id !in ids
    ensures var t := RecoverEach(kind, s, ids); LeftAlone(s, t, id) && t.queue == s.queue
  {
    if ids != [] {
      RecoveryLeavesAlone(kind, s, ids[..|ids| - 1], id);
    }
  }

  lemma RecoveryKeepsLost(kind: Recovery, s: System, limit: nat, id: string)
    requires Lost(s, id)
    ensures Lost(RecoverEach(kind, s, Candidates(kind, s.store, limit, s.now)), id)
  {
    var ids := Candidates(kind, s.store, limit, s.now);
    assert !Recoverable(kind, s.store.runs[id], s.now);
    RecoveryLeavesAlone(kind, s, ids, id);
    LeftAloneIsLost(s, RecoverEach(kind, s, ids), id);
  }

  lemma ClientKeepsLost(p: Params, s: System, a: Action, id: string)
    requires Lost(s, id) && a.OnRuns() && !a.RecoverBatch?
    requires id in Perform(p, s, a).store.runs && Perform(p, s, a).store.runs[id] == s.store.runs[id]
    ensures Lost(Perform(p, s, a), id)
  {
    assert LeftAlone(s, Perform(p, s, a), id);
    LeftAloneIsLost(s, Perform(p, s, a), id);
  }

  lemma WorkerKeepsLost(p: Params, s: System, a: Action, id: string)
    requires Lost(s, id) && a.OfWorker()
    requires id in Perform(p, s, a).store.runs && Perform(p, s, a).store.runs[id] == s.store.runs[id]
    ensures Lost(Perform(p, s, a), id)
  {
    var t := Perform(p, s, a);
    assert t.store.outbox == s.store.outbox && t.queue == s.queue;
    LeftAloneIsLost(s, t, id);
  }

  lemma DispatcherKeepsLost(p: Params, s: System, a: Action, id: string)
    requires Lost(s, id) && !a.OnRuns() && !a.OfWorker()
    requires id in Perform(p, s, a).store.runs && Perform(p, s, a).store.runs[id] == s.store.runs[id]
    ensures Lost(Perform(p, s, a), id)
  {
    LeftAloneIsLost(s, Perform(p, s, a), id);
  }

  /** No action brings a lost run back but one that changes the run itself. */
  lemma LostStays(p: Params, s: System, a: Action, id: string)
    requires Lost(s, id)
    ensures var t := Perform(p, s, a);
      id in t.store.runs && (t.store.runs[id] == s.store.runs[id] ==> Lost(t, id))
  {
    if a.RecoverBatch? {
      RecoveryKeepsLost(a.kind, s, a.limit, id);
    } else {
      OthersKeepRuns(p, s, a, id);
      if Perform(p, s, a).store.runs[id] == s.store.runs[id] {
        if a.OnRuns() {
          ClientKeepsLost(p, s, a, id);
        } else if a.OfWorker() {
          WorkerKeepsLost(p, s, a, id);
        } else {
          DispatcherKeepsLost(p, s, a, id);
        }
      }
    }
  }

  // ---- It happens ----

  /** A run is created, and its record is listed, enqueued and marked. */
  function Dispatched(): seq<Action> {
    [Create(NewRun("r", "s", "m", 0)), List("d", 1), Push("d"), Mark("d")]
  }

  /** The record is on the queue; the dispatcher has yet to mark it. */
  ghost predicate Pushed(s: System) {
    && s.store.outbox == [OutboxRecord(DispatchKey("r", 0), "r", None)]
    && "r" in s.store.runs && s.store.runs["r"].status.Queued?
    && s.queue.pending == ["r"] && DispatchKey("r", 0) in s.queue.keys
    && "d" in s.dispatchers && s.dispatchers["d"] == Dispatcher([0], true)
  }

  lemma PushesTheRecord(p: Params)
    ensures var a := Dispatched(); Pushed(Perform(p, Perform(p, Perform(p, INITIAL, a[0]), a[1]), a[2]))
  {
    var a := Dispatched();
    var s1 := Perform(p, INITIAL, a[0]);
    assert s1.store.outbox == [OutboxRecord(DispatchKey("r", 0), "r", None)];
    OneUnpublished(s1.store.outbox, 1);
    var s2 := Perform(p, s1, a[1]);
    assert s2.dispatchers["d"] == Dispatcher([0], false);
  }

  lemma MarkingLoses(p: Params, s: System)
    requires Pushed(s)
    ensures var t := Perform(p, s, Mark("d")); t.queue.pending == ["r"] && Lost(Popped(t), "r")
  {
  }

  /** Created, dispatched and popped: the run is QUEUED, and nobody will ever hear of it. */
  lemma PopLosesTheRun(p: Params)
    ensures var s := Run(p, Dispatched()); s.queue.pending == ["r"] && Lost(Popped(s), "r")
  {
    var a := Dispatched();
    RunExtended(p, [], a[0], [a[0]]);
    RunExtended(p, [a[0]], a[1], [a[0], a[1]]);
    RunExtended(p, [a[0], a[1]], a[2], [a[0], a[1], a[2]]);
    RunExtended(p, [a[0], a[1], a[2]], a[3], a);
    PushesTheRecord(p);
    MarkingLoses(p, Run(p, [a[0], a[1], a[2]]));
  }

  lemma OneUnpublished(outbox: seq<OutboxRecord>, limit: nat)
    requires |outbox| == 1 && outbox[0].publishedAt.None? && limit > 0
    ensures Take(UnpublishedIn(outbox), limit) == [0]
  {
    var none := outbox[..0];
    assert UnpublishedIn(none) == [];
  }
}
