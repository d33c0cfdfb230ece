/** The deduplicating queue (app/queue/run_queue.py), as a value and as an object. */
module RunQueue {
  import opened Common
  import opened RunRecords

  /** `pushed` records the accepted keys in order; the queue never reads it. */
  datatype Queue = Queue(pending: seq<string>, keys: set<DispatchKey>, pushed: seq<DispatchKey>)

  const EMPTY_QUEUE := Queue([], {}, [])

  function Enqueue(q: Queue, runId: string, key: DispatchKey): Queue {
    if key in q.keys then q
    else Queue(q.pending + [runId], q.keys + {key}, q.pushed + [key])
  }

  function Pop(q: Queue): (Queue, Option<string>) {
    if q.pending == [] then (q, None) else (q.(pending := q.pending[1..]), Some(q.pending[0]))
  }

  // ---- First in, first out ----

  datatype QueueCall = EnqueueCall(runId: string, key: DispatchKey) | PopCall

  /** The queue after these calls, and the run ids that the pops returned. */
  function Played(calls: seq<QueueCall>): (Queue, seq<string>) {
    if calls == [] then (EMPTY_QUEUE, [])
    else
      var (q, popped) := Played(calls[..|calls| - 1]);
      match calls[|calls| - 1]
      case EnqueueCall(runId, key) => (Enqueue(q, runId, key), popped)
      case PopCall =>
        var (r, runId) := Pop(q);
        (r, if runId.Some? then popped + [runId.value] else popped)
  }

  ghost predicate Known(calls: seq<QueueCall>, key: DispatchKey) {
    exists i :: 0 <= i < |calls| && calls[i].EnqueueCall? && calls[i].key == key
  }

  /** The run ids of the calls that bring a key for the first time, in order. */
  ghost function Accepted(calls: seq<QueueCall>): seq<string> {
    if calls == [] then []
    else
      var init, last := calls[..|calls| - 1], calls[|calls| - 1];
      Accepted(init) + if last.EnqueueCall? && !Known(init, last.key) then [last.runId] else []
  }

  lemma KnownMore(init: seq<QueueCall>, last: QueueCall, calls: seq<QueueCall>, key: DispatchKey)
    requires calls == init + [last]
    ensures Known(calls, key) <==> Known(init, key) || (last.EnqueueCall? && last.key == key)
  {
    if Known(init, key) {
      var i :| 0 <= i < |init| && init[i].EnqueueCall? && init[i].key == key;
      assert calls[i] == init[i];
    }
    assert calls[|init|] == last;
  }

  /** Over any calls: what was popped and what is pending are exactly the messages whose key was new, first in, first
      out; none is lost, doubled or reordered. */
  lemma {:induction false} FirstInFirstOut(calls: seq<QueueCall>)
    ensures var (q, popped) := Played(calls);
      popped + q.pending == Accepted(calls) && forall key :: key in q.keys <==> Known(calls, key)
  {
    if calls != [] {
      var init, last := calls[..|calls| - 1], calls[|calls| - 1];
      FirstInFirstOut(init);
      var (q, popped) := Played(init);
      forall key: DispatchKey
        ensures Known(calls, key) <==> Known(init, key) || (last.EnqueueCall? && last.key == key) {
        KnownMore(init, last, calls, key);
      }
      if last.PopCall? && q.pending != [] {
        assert popped + q.pending == popped + [q.pending[0]] + q.pending[1..];
      }
    }
  }

  class InMemoryRunQueue {
    var runs: seq<string>
    var keys: set<DispatchKey>
    ghost var pushed: seq<DispatchKey>

    ghost function View(): Queue
      reads this
    {
      Queue(runs, keys, pushed)
    }

    constructor ()
      ensures View() == EMPTY_QUEUE
    {
      runs, keys, pushed := [], {}, [];
    }

    method EnqueueRun(runId: string, key: DispatchKey)
      modifies this
      ensures View() == Enqueue(old(View()), runId, key)
    {
      if key in keys {
        return;
      }
      keys := keys + {key};
      runs := runs + [runId];
      pushed := pushed + [key];
    }

    method PopRun() returns (runId: Option<string>)
      modifies this
      ensures (View(), runId) == Pop(old(View()))
    {
      if runs == [] {
        return None;
      }
      runId := Some(runs[0]);
      runs := runs[1..];
    }
  }
}
