/** `OutboxService.dispatch_once` (app/services/outbox_service.py), undisturbed. */
module Outbox {
  import opened Common
  import opened Execution
  import opened RunRecords
  import opened StoreSpec
  import opened RunQueue
  import opened RunStore

  /** Enqueue, then mark; `published` counts the marks that took effect. */
  function DispatchAll(s: Store, q: Queue, ids: seq<nat>, now: int): (Store, Queue, nat)
    requires forall k :: 0 <= k < |ids| ==> ids[k] < |s.outbox|
    ensures var (t, _, _) := DispatchAll(s, q, ids, now); |t.outbox| == |s.outbox|
  {
    if ids == [] then (s, q, 0)
    else
      var (t, r, published) := DispatchAll(s, q, ids[..|ids| - 1], now);
      var id := ids[|ids| - 1];
      var (u, marked) := MarkPublished(t, id, now);
      (u, Enqueue(r, t.outbox[id].runId, t.outbox[id].key), if marked then published + 1 else published)
  }

  class OutboxService {
    const store: InMemoryRunStore
    const queue: InMemoryRunQueue

    constructor (store: InMemoryRunStore, queue: InMemoryRunQueue)
      ensures this.store == store && this.queue == queue
    {
      this.store, this.queue := store, queue;
    }

    method DispatchOnce(limit: nat, now: int) returns (published: nat)
      modifies store`outbox, queue
      ensures (store.View(), queue.View(), published) ==
        DispatchAll(old(store.View()), old(queue.View()), ListUnpublished(old(store.View()), limit), now)
    {
      ghost var s, q := store.View(), queue.View();
      var ids := store.ListUnpublishedOutbox(limit);
      published := 0;
      for i := 0 to |ids|
        invariant (store.View(), queue.View(), published) == DispatchAll(s, q, ids[..i], now)
      {
        assert ids[..i + 1][..i] == ids[..i];
        var record := store.outbox[ids[i]];
        queue.EnqueueRun(record.runId, record.key);
        var marked := store.MarkOutboxPublished(ids[i], now);
        if marked {
          published := published + 1;
        }
      }
      assert ids[..|ids|] == ids;
    }
  }

  /** A pass empties the part of the outbox it listed: everything listed is on the queue and marked,
      nothing else is touched, and the count is the number of records listed. */
  lemma {:induction false} DispatchPublishes(s: Store, q: Queue, ids: seq<nat>, now: int)
    requires forall k :: 0 <= k < |ids| ==> ids[k] < |s.outbox| && s.outbox[ids[k]].publishedAt.None?
    requires NoDuplicates(ids)
    ensures var (t, r, published) := DispatchAll(s, q, ids, now);
      && published == |ids|
      && (forall k :: 0 <= k < |ids| ==>
            t.outbox[ids[k]] == s.outbox[ids[k]].(publishedAt := Some(now)) && s.outbox[ids[k]].key in r.keys)
      && (forall i :: 0 <= i < |s.outbox| && i !in ids ==> t.outbox[i] == s.outbox[i])
      && t == s.(outbox := t.outbox)
      && q.keys <= r.keys
      && (forall key <- r.keys :: key in q.keys || exists k :: 0 <= k < |ids| && s.outbox[ids[k]].key == key)
  {
    if ids != [] {
      var init, id := ids[..|ids| - 1], ids[|ids| - 1];
      assert id !in init;
      DispatchPublishes(s, q, init, now);
    }
  }

  /** The records of a pass whose keys are new to the queue go to its end, in order, each as its own run. */
  lemma {:induction false} DispatchQueues(s: Store, q: Queue, ids: seq<nat>, now: int)
    requires forall k :: 0 <= k < |ids| ==> ids[k] < |s.outbox| && s.outbox[ids[k]].publishedAt.None?
    requires NoDuplicates(ids)
    requires forall k :: 0 <= k < |ids| ==> s.outbox[ids[k]].key !in q.keys
    requires forall j, k :: 0 <= j < k < |ids| ==> s.outbox[ids[j]].key != s.outbox[ids[k]].key
    ensures var pending := DispatchAll(s, q, ids, now).1.pending;
      && |pending| == |q.pending| + |ids| && pending[..|q.pending|] == q.pending
      && forall k :: 0 <= k < |ids| ==> pending[|q.pending| + k] == s.outbox[ids[k]].runId
  {
    if ids != [] {
      var init, id := ids[..|ids| - 1], ids[|ids| - 1];
      assert id !in init;
      DispatchQueues(s, q, init, now);
      DispatchPublishes(s, q, init, now);
    }
  }
}
