/** Histories after which one call means different things to the two stores. */
module PostgresDifferences {
  import opened Common
  import opened Execution
  import opened RunRecords
  import opened StoreSpec
  import opened PostgresRunStore
  import opened PostgresSimulation
  import opened PostgresSelections

  const RUN_A := NewRun("a", "s", "m", 0)
  const RUN_B := NewRun("b", "s", "m", 0)
  const KEY_A := DispatchKey("a", 0)
  const KEY_B := DispatchKey("b", 0)

  lemma OneMoreCall(init: seq<Timed>, last: Timed, whole: seq<Timed>)
    requires whole == init + [last]
    ensures var (s, db) := After(init);
            After(whole) == (InMemory(s, last.call, last.now).0, InTables(s.outbox, db, last.call, last.now).0)
    ensures AllAgree(init) && Admissible(After(init).1, last.call, last.now)
            && Agrees(After(init).0, last.call, last.now)
        ==> AllAgree(whole)
  {
    assert whole[..|whole| - 1] == init;
  }

  // ---- Two runs, created at the same time ----

  function TwoRuns(): seq<Timed> { [Timed(Create(RUN_A), 0), Timed(Create(RUN_B), 0)] }

  ghost predicate BothQueued(s: Store, db: Tables) {
    && s.runs == map["a" := FreshRun(RUN_A), "b" := FreshRun(RUN_B)] && s.order == ["a", "b"]
    && s.outbox == [OutboxRecord(KEY_A, "a", None), OutboxRecord(KEY_B, "b", None)]
    && db.outbox == map[KEY_A := OutboxRow("a", 0, None), KEY_B := OutboxRow("b", 0, None)]
  }

  lemma CreateAdded(init: seq<Timed>, r: NewRun, whole: seq<Timed>)
    requires AllAgree(init) && whole == init + [Timed(Create(r), 0)]
    ensures AllAgree(whole)
    ensures After(whole) == (CreateRun(After(init).0, r).0, CreateRow(After(init).1, r).0)
  {
    OneMoreCall(init, Timed(Create(r), 0), whole);
  }

  lemma QueuedOneAfterTheOther(s: Store, db: Tables)
    requires s == EMPTY_STORE && db == Tables(map[], map[], [], map[], [])
    ensures BothQueued(CreateRun(CreateRun(s, RUN_A).0, RUN_B).0, CreateRow(CreateRow(db, RUN_A).0, RUN_B).0)
  {
  }

  lemma TwoRunsAreQueued()
    ensures var (s, db) := After(TwoRuns()); BothQueued(s, db) && Related(s, db) && AllAgree(TwoRuns())
  {
    var none := TwoRuns()[..0];
    CreateAdded(none, RUN_A, [TwoRuns()[0]]);
    CreateAdded([TwoRuns()[0]], RUN_B, TwoRuns());
    QueuedOneAfterTheOther(After(none).0, After(none).1);
    HistoriesStayRelated(TwoRuns());
  }

  /** A QUEUED run is asked for approval: the in-memory store refuses, the Postgres store inserts the approval. */
  lemma AskDiffers()
    ensures var (s, db) := After(TwoRuns());
            Related(s, db) && !Simulated(s, db, Ask("a", "x", "t", map[]), 0)
  {
    var (s, db) := After(TwoRuns());
    TwoRunsAreQueued();
    SimulatedIff(s, db, Ask("a", "x", "t", map[]), 0);
  }

  lemma FirstOfTwo(s: Store, db: Tables)
    requires BothQueued(s, db)
    ensures KeysOf(FirstUnpublished(s, 1)) == [KEY_A] && SelectsUnpublished(db, 1, [KEY_B])
  {
    var none := s.outbox[..0];
    assert UnpublishedIn(none) == [];
    assert s.outbox[..1] == [s.outbox[0]] && s.outbox[..1][..0] == none;
    assert UnpublishedIn(s.outbox[..1]) == [0];
    assert UnpublishedIn(s.outbox) == [0, 1];
  }

  /** Their dispatch records have the same creation time: with a limit of 1 the SELECT may return the second. */
  lemma ListingDiffers()
    ensures var (s, db) := After(TwoRuns());
            && Related(s, db) && SelectsUnpublished(db, 1, [KEY_B]) && !Simulated(s, db, Unpublished(1, [KEY_B]), 0)
  {
    var (s, db) := After(TwoRuns());
    TwoRunsAreQueued();
    FirstOfTwo(s, db);
    OtherRowDiffers(s, db, Unpublished(1, [KEY_B]));
  }

  lemma OtherRowDiffers(s: Store, db: Tables, call: Call)
    requires Related(s, db) && call.Unpublished? && SelectsUnpublished(db, call.limit, call.rows)
    requires call.rows != KeysOf(FirstUnpublished(s, call.limit))
    ensures !Simulated(s, db, call, 0)
  {
    SimulatedIff(s, db, call, 0);
  }

  // ---- Two expired leases ----

  function TwoLeases(): seq<Timed> { TwoRuns() + [Timed(Claim("a", "w", 5), 0)] + [Timed(Claim("b", "w", 3), 0)] }

  ghost predicate BothLeased(s: Store) {
    && s.runs == map["a" := Claimed(FreshRun(RUN_A), "w", 5, 0), "b" := Claimed(FreshRun(RUN_B), "w", 3, 0)]
    && s.order == ["a", "b"]
  }

  lemma ClaimAdded(init: seq<Timed>, id: string, lease: int, whole: seq<Timed>)
    requires AllAgree(init) && whole == init + [Timed(Claim(id, "w", lease), 0)]
    requires id in After(init).0.runs && After(init).0.runs[id].status.Queued?
             && After(init).0.runs[id].leaseExpiresAt.None?
    ensures var s, t := After(init).0, After(whole).0;
            AllAgree(whole) && t.runs == s.runs[id := Claimed(s.runs[id], "w", lease, 0)] && t.order == s.order
  {
    OneMoreCall(init, Timed(Claim(id, "w", lease), 0), whole);
    assert CanClaim(After(init).0, id, 0);
  }

  lemma TwoLeasesAreHeld()
    ensures BothLeased(After(TwoLeases()).0) && Related(After(TwoLeases()).0, After(TwoLeases()).1)
  {
    var one := TwoRuns() + [Timed(Claim("a", "w", 5), 0)];
    TwoRunsAreQueued();
    ClaimAdded(TwoRuns(), "a", 5, one);
    ClaimAdded(one, "b", 3, TwoLeases());
    LeasedOneAfterTheOther(After(TwoRuns()).0, After(TwoRuns()).1, After(one).0, After(TwoLeases()).0);
    HistoriesStayRelated(TwoLeases());
  }

  lemma LeasedOneAfterTheOther(s: Store, db: Tables, t: Store, u: Store)
    requires BothQueued(s, db) && t.order == s.order && u.order == t.order
    requires t.runs == s.runs["a" := Claimed(s.runs["a"], "w", 5, 0)]
    requires u.runs == t.runs["b" := Claimed(s.runs["b"], "w", 3, 0)]
    ensures BothLeased(u)
  {
  }

  lemma FirstExpired(s: Store)
    requires BothLeased(s)
    ensures Candidates(ExpiredLeases, s, 1, 10) == ["a"]
  {
    var none := s.order[..0];
    assert RecoverableIn(ExpiredLeases, s, none, 10) == [];
    assert s.order[..1] == ["a"] && s.order[..1][..0] == none;
    assert RecoverableIn(ExpiredLeases, s, s.order[..1], 10) == ["a"];
    assert RecoverableIn(ExpiredLeases, s, s.order, 10) == ["a", "b"];
  }

  lemma FirstByTime(s: Store, db: Tables)
    requires BothLeased(s) && SameRuns(s, db)
    ensures Selects(ExpiredLeases, db, 1, 10, ["b"])
  {
    assert db.runs["a"].run == s.runs["a"] && db.runs["b"].run == s.runs["b"];
  }

  lemma BatchDiffersAt(s: Store, db: Tables)
    requires Related(s, db) && Candidates(ExpiredLeases, s, 1, 10) == ["a"] && Selects(ExpiredLeases, db, 1, 10, ["b"])
    ensures !Simulated(s, db, RecoverBatch(ExpiredLeases, 1, ["b"]), 10)
  {
    RecoverySimulatedIff(s, db, ExpiredLeases, 1, ["b"], 10);
    assert "a" in ["a"] && "a" !in ["b"];
  }

  /** The lease of the run created later ends first: with a limit of 1 one store recovers the one run, the other the
      other. */
  lemma BatchDiffers()
    ensures var (s, db) := After(TwoLeases());
            && Related(s, db) && Selects(ExpiredLeases, db, 1, 10, ["b"])
            && !Simulated(s, db, RecoverBatch(ExpiredLeases, 1, ["b"]), 10)
  {
    var (s, db) := After(TwoLeases());
    TwoLeasesAreHeld();
    FirstExpired(s);
    FirstByTime(s, db);
    BatchDiffersAt(s, db);
  }
}
