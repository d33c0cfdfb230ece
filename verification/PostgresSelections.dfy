/** What the SELECTs of the Postgres store may return, against what the in-memory store picks: outbox listings and
    recovery batches. The tables order by time, the in-memory store by insertion. */
module PostgresSelections {
  import opened Common
  import opened Execution
  import opened RunRecords
  import opened StoreSpec
  import opened PostgresRunStore
  import opened PostgresSimulation
  import opened EarliestFirst

  type Key = DispatchKey

  // ---- The two listings ----

  function CreatedAt(db: Tables): Key -> int { key => if key in db.outbox then db.outbox[key].createdAt else 0 }

  /** The keys of all unpublished records, in order of insertion. */
  function Waiting(s: Store): seq<Key> { KeysOf(FirstUnpublished(s, |s.outbox|)) }

  lemma {:induction false} UnpublishedAreFew(outbox: seq<OutboxRecord>)
    ensures |UnpublishedIn(outbox)| <= |outbox|
    ensures forall i, j :: 0 <= i < j < |UnpublishedIn(outbox)| ==> UnpublishedIn(outbox)[i] < UnpublishedIn(outbox)[j]
  {
    if outbox != [] {
      UnpublishedAreFew(outbox[..|outbox| - 1]);
    }
  }

  lemma {:induction false} UnpublishedAreAll(outbox: seq<OutboxRecord>, i: nat)
    requires i < |outbox| && outbox[i].publishedAt.None?
    ensures i in UnpublishedIn(outbox)
  {
    if i < |outbox| - 1 {
      UnpublishedAreAll(outbox[..|outbox| - 1], i);
    }
  }

  lemma ListingIsFirst(s: Store, limit: nat)
    ensures KeysOf(FirstUnpublished(s, limit)) == Take(Waiting(s), limit)
  {
    UnpublishedAreFew(s.outbox);
  }

  lemma WaitingDistinct(s: Store)
    requires DistinctKeys(s.outbox)
    ensures NoDuplicates(Waiting(s))
  {
    var ids, u := UnpublishedIn(s.outbox), Waiting(s);
    UnpublishedAreFew(s.outbox);
    forall i, j | 0 <= i < j < |u| ensures u[i] != u[j] {
      assert u[i] == s.outbox[ids[i]].key && u[j] == s.outbox[ids[j]].key;
    }
  }

  lemma WaitingIff(s: Store, db: Tables, key: Key)
    requires SameOutbox(s, db)
    ensures key in Waiting(s) <==> key in db.outbox && db.outbox[key].publishedAt.None?
  {
    var ids, u := UnpublishedIn(s.outbox), Waiting(s);
    UnpublishedAreFew(s.outbox);
    if key in u {
      var k :| 0 <= k < |u| && u[k] == key;
      assert s.outbox[ids[k]].key == key;
    }
    if key in db.outbox && db.outbox[key].publishedAt.None? {
      assert HasKey(s.outbox, key);
      var i :| 0 <= i < |s.outbox| && s.outbox[i].key == key;
      UnpublishedAreAll(s.outbox, i);
      var k :| 0 <= k < |ids| && ids[k] == i;
      assert u[k] == key;
    }
  }

  lemma SelectingIsPicking(s: Store, db: Tables, limit: nat, keys: seq<Key>)
    requires SameOutbox(s, db)
    ensures SelectsUnpublished(db, limit, keys) <==> Picks(Waiting(s), CreatedAt(db), limit, keys)
  {
    forall key ensures key in Waiting(s) <==> key in db.outbox && db.outbox[key].publishedAt.None? {
      WaitingIff(s, db, key);
    }
  }

  /** Whatever rows its SELECT returns, the Postgres store lists what the in-memory store does if and only if each of
      the first unpublished records was created strictly before all that were inserted after it. */
  lemma ListingsAgreeIff(s: Store, db: Tables, limit: nat)
    requires Related(s, db)
    ensures (forall keys :: SelectsUnpublished(db, limit, keys) ==> keys == KeysOf(FirstUnpublished(s, limit)))
       <==> InTime(Waiting(s), CreatedAt(db), limit)
  {
    ListingIsFirst(s, limit);
    WaitingDistinct(s);
    ForcedIff(Waiting(s), CreatedAt(db), limit);
    forall keys ensures SelectsUnpublished(db, limit, keys) <==> Picks(Waiting(s), CreatedAt(db), limit, keys) {
      SelectingIsPicking(s, db, limit, keys);
    }
  }

  // ---- The two recovery batches ----

  /** What the tables order by: the end of the lease, or the time of the retry. */
  function DueAt(s: Store, kind: Recovery): string -> int {
    id => if id in s.runs then SortKey(kind, s.runs[id]) else 0
  }

  /** The runs that are due, in order of insertion. */
  function DueRuns(kind: Recovery, s: Store, now: int): seq<string> { RecoverableIn(kind, s, s.order, now) }

  lemma DueIff(s: Store, db: Tables, kind: Recovery, now: int, id: string)
    requires SameRuns(s, db) && forall i :: i in s.order <==> i in s.runs
    ensures id in DueRuns(kind, s, now) <==> id in db.runs && Eligible(kind, db.runs[id].run, now)
  {
    RecoverableMembers(kind, s, s.order, now);
  }

  lemma SelectingRunsIsPicking(s: Store, db: Tables, kind: Recovery, limit: nat, now: int, ids: seq<string>)
    requires SameRuns(s, db) && forall i :: i in s.order <==> i in s.runs
    ensures Selects(kind, db, limit, now, ids) <==> Picks(DueRuns(kind, s, now), DueAt(s, kind), limit, ids)
  {
    forall id ensures id in DueRuns(kind, s, now) <==> id in db.runs && Eligible(kind, db.runs[id].run, now) {
      DueIff(s, db, kind, now, id);
    }
  }

  /** Whatever rows its SELECT returns, the Postgres store recovers the runs that the in-memory store does if and only
      if each of the first due runs is due strictly before each that the limit leaves out. */
  lemma BatchesAgreeIff(s: Store, db: Tables, kind: Recovery, limit: nat, now: int)
    requires Related(s, db)
    ensures (forall ids :: Selects(kind, db, limit, now, ids) ==> SameElements(Candidates(kind, s, limit, now), ids))
       <==> Apart(DueRuns(kind, s, now), DueAt(s, kind), limit)
  {
    var due, first := DueRuns(kind, s, now), Candidates(kind, s, limit, now);
    RecoverableDistinct(kind, s, s.order, now);
    ForcedSetIff(due, DueAt(s, kind), limit);
    forall ids
      ensures Selects(kind, db, limit, now, ids) <==> Picks(due, DueAt(s, kind), limit, ids)
      ensures SameElements(first, ids) <==> SameElements(ids, first)
    {
      SelectingRunsIsPicking(s, db, kind, limit, now, ids);
    }
  }

  // ---- Any call, before its rows are known ----

  /** The same call, whatever rows its SELECT returns. */
  predicate SameRequest(request: Call, call: Call) {
    match request
    case RecoverBatch(kind, limit, _) => call.RecoverBatch? && call.kind == kind && call.limit == limit
    case Unpublished(limit, _) => call.Unpublished? && call.limit == limit
    case _ => call == request
  }

  /** When a request means the same to both stores: it depends on what they hold before the call only. */
  ghost predicate AgreesBefore(s: Store, db: Tables, request: Call, now: int) {
    match request
    case RecoverBatch(kind, limit, _) => Apart(DueRuns(kind, s, now), DueAt(s, kind), limit)
    case Unpublished(limit, _) => InTime(Waiting(s), CreatedAt(db), limit)
    case _ => Agrees(s, request, now)
  }

  ghost predicate AgreesAnyway(s: Store, db: Tables, request: Call, now: int) {
    forall call :: SameRequest(request, call) && Admissible(db, call, now) ==> Agrees(s, call, now)
  }

  lemma BatchRequest(s: Store, db: Tables, kind: Recovery, limit: nat, some: seq<string>, now: int, request: Call)
    requires request == RecoverBatch(kind, limit, some)
    ensures AgreesAnyway(s, db, request, now) <==>
            forall ids :: Selects(kind, db, limit, now, ids) ==> SameElements(Candidates(kind, s, limit, now), ids)
  {
    if AgreesAnyway(s, db, request, now) {
      forall ids | Selects(kind, db, limit, now, ids) ensures SameElements(Candidates(kind, s, limit, now), ids) {
        var call := RecoverBatch(kind, limit, ids);
        assert SameRequest(request, call) && Admissible(db, call, now);
      }
    }
  }

  lemma ListingRequest(s: Store, db: Tables, limit: nat, some: seq<Key>, now: int, request: Call)
    requires request == Unpublished(limit, some)
    ensures AgreesAnyway(s, db, request, now) <==>
            forall keys :: SelectsUnpublished(db, limit, keys) ==> keys == KeysOf(FirstUnpublished(s, limit))
  {
    if AgreesAnyway(s, db, request, now) {
      forall keys | SelectsUnpublished(db, limit, keys) ensures keys == KeysOf(FirstUnpublished(s, limit)) {
        var call := Unpublished(limit, keys);
        assert SameRequest(request, call) && Admissible(db, call, now);
      }
    }
  }

  lemma AgreesAnywayIff(s: Store, db: Tables, request: Call, now: int)
    requires Related(s, db)
    ensures AgreesAnyway(s, db, request, now) <==> AgreesBefore(s, db, request, now)
  {
    match request {
      case RecoverBatch(kind, limit, some) => {
        BatchRequest(s, db, kind, limit, some, now, request);
        BatchesAgreeIff(s, db, kind, limit, now);
      }
      case Unpublished(limit, some) => {
        ListingRequest(s, db, limit, some, now, request);
        ListingsAgreeIff(s, db, limit);
      }
      case _ => assert SameRequest(request, request) && Admissible(db, request, now);
    }
  }

  /** A request has equal results and leads to related states, whatever rows its SELECT returns, if and only if the two
      stores meet a condition that can be looked up before the call. */
  lemma RequestSimulatedIff(s: Store, db: Tables, request: Call, now: int)
    requires Related(s, db)
    ensures (forall call :: SameRequest(request, call) && Admissible(db, call, now) ==> Simulated(s, db, call, now))
            <==> AgreesBefore(s, db, request, now)
  {
    AgreesAnywayIff(s, db, request, now);
    forall call | SameRequest(request, call) && Admissible(db, call, now)
      ensures Simulated(s, db, call, now) <==> Agrees(s, call, now)
    {
      SimulatedIff(s, db, call, now);
    }
  }
}
