/** What the protocol does not give: reachable states in which `save_step`, looking at no status, moves a
    CANCELED run, or leaves a re-queued run RUNNING without a lease, where recovery cannot see it. */
module Anomalies {
  import opened Common
  import opened Execution
  import opened StepMachine
  import opened RunRecords
  import opened StoreSpec
  import opened RunQueue
  import opened Protocol
  import opened DispatchInvariant
  import opened ProgressInvariant
  import opened Guarantees
  import opened Orchestrator

  const REPLY := Reply(Some(PlanResult(Respond, "", None, Some("a"), None)), ToolRaised("", ""), None)
  const FIRST := FirstCheckpoint("r", "s", "m", [])

  /** A worker plans the run's first step while its lease runs out and the run is queued again. */
  function GoStale(): seq<Action> {
    [Create(NewRun("r", "s", "m", 0)), Claim("r", "w", 1), Load("w", "r"), Check("w"), Compute("w", REPLY),
     Tick(2), RecoverBatch(ExpiredLeases, 1)]
  }

  /** The run waits in the queue under version 2, with no lease; the stale worker still holds its plan. */
  ghost predicate StaleAndQueued(s: System) {
    && "r" in s.store.runs && s.store.runs["r"].status.Queued? && s.store.runs["r"].version == 2
    && s.store.runs["r"].leaseOwner.None? && s.store.runs["r"].leaseExpiresAt.None?
    && s.workers == map["w" := Computed("r", FIRST, REPLY, AfterPlan(FIRST, REPLY.plan.value))]
    && s.store.steps == map[]
    && s.store.outbox == [OutboxRecord(DispatchKey("r", 0), "r", None), OutboxRecord(DispatchKey("r", 2), "r", None)]
    && s.queue == EMPTY_QUEUE && s.dispatchers == map[]
  }

  /** After claim and load: RUNNING, leased until 1, one worker about to look up its key. */
  ghost predicate Started(s: System) {
    && s.store.runs.Keys == {"r"} && s.store.order == ["r"] && s.now == 0
    && s.store.runs["r"] == Claimed(FreshRun(NewRun("r", "s", "m", 0)), "w", 1, 0)
    && s.workers == map["w" := Loaded("r", FIRST)] && s.store.steps == map[]
    && s.store.outbox == [OutboxRecord(DispatchKey("r", 0), "r", None)]
    && s.queue == EMPTY_QUEUE && s.dispatchers == map[]
  }

  lemma Starts(p: Params)
    ensures Started(Run(p, GoStale()[..3]))
  {
    var a := GoStale();
    var s1 := Perform(p, INITIAL, a[0]);
    var s2 := Perform(p, s1, a[1]);
    RunThree(p, a[0], a[1], a[2]);
    assert a[..3] == [a[0], a[1], a[2]];
    assert CanClaim(s1.store, "r", 0);
  }

  lemma RunThree(p: Params, a: Action, b: Action, c: Action)
    ensures Run(p, [a, b, c]) == Perform(p, Perform(p, Perform(p, INITIAL, a), b), c)
  {
    RunExtended(p, [], a, [a]);
    RunExtended(p, [a], b, [a, b]);
    RunExtended(p, [a, b], c, [a, b, c]);
  }

  lemma PlansWhileExpiring(p: Params, s: System)
    requires Started(s)
    ensures var t := Perform(p, Perform(p, Perform(p, s, Check("w")), Compute("w", REPLY)), Tick(2));
      && t == s.(workers := map["w" := Computed("r", FIRST, REPLY, AfterPlan(FIRST, REPLY.plan.value))], now := 2)
  {
    assert Advance(p.config, FIRST, REPLY) == Turned(AfterPlan(FIRST, REPLY.plan.value), []);
  }

  lemma ExpiredRunIsRequeued(p: Params, s: System)
    requires s.store.runs.Keys == {"r"} && s.store.order == ["r"] && s.now == 2
    requires s.store.runs["r"] == Claimed(FreshRun(NewRun("r", "s", "m", 0)), "w", 1, 0)
    requires s.workers == map["w" := Computed("r", FIRST, REPLY, AfterPlan(FIRST, REPLY.plan.value))]
    requires s.store.steps == map[] && s.store.outbox == [OutboxRecord(DispatchKey("r", 0), "r", None)]
    requires s.queue == EMPTY_QUEUE && s.dispatchers == map[]
    ensures StaleAndQueued(Perform(p, s, RecoverBatch(ExpiredLeases, 1)))
  {
    assert ["r"][..0] == [];
    assert RecoverableIn(ExpiredLeases, s.store, [], s.now) == [];
    assert RecoverableIn(ExpiredLeases, s.store, ["r"], s.now) == ["r"];
    assert Candidates(ExpiredLeases, s.store, 1, s.now) == ["r"];
    assert RecoverEach(ExpiredLeases, s, []) == s;
    assert RecoverEach(ExpiredLeases, s, ["r"]) == RecoverOne(ExpiredLeases, s, "r");
    assert !HasKey(s.store.outbox, DispatchKey("r", 2));
  }

  lemma StaleStateIsReachable(p: Params)
    ensures StaleAndQueued(Run(p, GoStale()))
  {
    var a := GoStale();
    Starts(p);
    var s := Run(p, a[..3]);
    RunOneMore(p, a[..3], a[3]);
    RunOneMore(p, a[..4], a[4]);
    RunOneMore(p, a[..5], a[5]);
    RunOneMore(p, a[..6], a[6]);
    assert a[..3] + [a[3]] == a[..4] && a[..4] + [a[4]] == a[..5] && a[..5] + [a[5]] == a[..6] && a[..6] + [a[6]] == a;
    PlansWhileExpiring(p, s);
    ExpiredRunIsRequeued(p, Run(p, a[..6]));
  }

  lemma RunTwoMore(p: Params, actions: seq<Action>, a: Action, b: Action)
    ensures Run(p, actions + [a, b]) == Perform(p, Perform(p, Run(p, actions), a), b)
  {
    RunExtended(p, actions, a, actions + [a]);
    RunExtended(p, actions + [a], b, actions + [a, b]);
  }

  /** A canceled run comes back: the stale worker's save makes it RUNNING again. */
  lemma CanceledRunIsReopened(p: Params)
    ensures var s := Run(p, GoStale() + [Cancel("r")]); "r" in s.store.runs && s.store.runs["r"].status.Canceled?
    ensures var t := Run(p, GoStale() + [Cancel("r"), Save("w", "x")]);
            "r" in t.store.runs && t.store.runs["r"].status.Running?
  {
    StaleStateIsReachable(p);
    RunOneMore(p, GoStale(), Cancel("r"));
    RunTwoMore(p, GoStale(), Cancel("r"), Save("w", "x"));
  }

  // ---- RUNNING without a lease ----

  /** RUNNING, and at no time will a claim or a recovery pick the run up as it stands. */
  ghost predicate Stranded(s: System, id: string) {
    && id in s.store.runs && s.store.runs[id].status.Running?
    && (forall now :: !CanClaim(s.store, id, now))
    && (forall kind, now :: !Recoverable(kind, s.store.runs[id], now))
  }

  /** That is, RUNNING without a lease. */
  lemma StrandedIff(s: System, id: string)
    ensures Stranded(s, id)
       <==> id in s.store.runs && s.store.runs[id].status.Running? && s.store.runs[id].leaseExpiresAt.None?
  {
    if id in s.store.runs && s.store.runs[id].leaseExpiresAt.Some? && s.store.runs[id].status.Running? {
      assert Recoverable(ExpiredLeases, s.store.runs[id], s.store.runs[id].leaseExpiresAt.value + 1);
    }
  }

  /** This save is the first under its key, and leaves the run with the given status. */
  predicate WinsWith(s: System, a: Action, id: string, target: RunStatus) {
    && a.Save? && a.worker in s.workers && s.workers[a.worker].Computed? && s.workers[a.worker].runId == id
    && Wins(s.store, id, s.workers[a.worker].base) && TargetStatus(s.workers[a.worker].outcome) == target
  }

  /** The two ways into that state: a save that goes on with a run that has no lease, and the owner giving up the lease
      of a RUNNING run. Neither call looks at the status. */
  predicate Strands(s: System, a: Action, id: string) {
    && id in s.store.runs
    && ((WinsWith(s, a, id, Running) && s.store.runs[id].leaseExpiresAt.None?)
        || (a.Release? && a.runId == id && s.store.runs[id].status.Running?
            && s.store.runs[id].leaseOwner == Some(a.workerId)))
  }

  /** And the three ways out: a save that stops the run, a retry, and a request for approval. */
  predicate Frees(s: System, a: Action, id: string) {
    || WinsWith(s, a, id, WaitingApproval) || WinsWith(s, a, id, Completed)
    || (a.Retry? && a.runId == id) || (a.OpenApproval? && a.runId == id)
  }

  predicate Unleased(s: System, id: string) {
    id in s.store.runs && s.store.runs[id].status.Running? && s.store.runs[id].leaseExpiresAt.None?
  }

  predicate UnleasedAfter(s: System, t: System, a: Action, id: string) {
    Unleased(t, id) <==> if Unleased(s, id) then !Frees(s, a, id) else Strands(s, a, id)
  }

  lemma {:induction false} RecoveredIsQueued(kind: Recovery, s: System, ids: seq<string>, id: string)
    ensures var t := RecoverEach(kind, s, ids);
      id in t.store.runs ==>
        id in s.store.runs && (t.store.runs[id] == s.store.runs[id] || t.store.runs[id].status.Queued?)
  {
    if ids != [] {
      RecoveredIsQueued(kind, s, ids[..|ids| - 1], id);
    }
  }

  lemma UnleasedByRecovery(p: Params, s: System, a: Action, id: string)
    requires DispatchOk(s) && a.RecoverBatch?
    ensures UnleasedAfter(s, Perform(p, s, a), a, id)
  {
    RecoveredIsQueued(a.kind, s, Candidates(a.kind, s.store, a.limit, s.now), id);
    if id in s.store.runs {
      RecoveryDue(s, a.kind, a.limit, id);
    }
  }

  ghost predicate AllLeasesOk(s: System) { forall i <- s.store.runs :: LeaseOk(s.store.runs[i]) }

  lemma UnleasedByLeasing(p: Params, s: System, a: Action, id: string)
    requires AllLeasesOk(s) && (a.Create? || a.Claim? || a.PopAndClaim? || a.Renew? || a.Release?)
    ensures UnleasedAfter(s, Perform(p, s, a), a, id)
  {
  }

  lemma UnleasedByClient(p: Params, s: System, a: Action, id: string)
    requires AllLeasesOk(s) && (a.OpenApproval? || a.Decide? || a.Cancel? || a.Retry?)
    ensures UnleasedAfter(s, Perform(p, s, a), a, id)
  {
  }

  lemma UnleasedByWorker(p: Params, s: System, a: Action, id: string)
    requires a.OfWorker()
    ensures UnleasedAfter(s, Perform(p, s, a), a, id)
  {
    if !a.Save? {
      assert Perform(p, s, a).store.runs == s.store.runs;
    }
  }

  lemma UnleasedByDispatcher(p: Params, s: System, a: Action, id: string)
    requires !a.OnRuns() && !a.OfWorker() && !a.PopAndClaim?
    ensures UnleasedAfter(s, Perform(p, s, a), a, id)
  {
    assert Perform(p, s, a).store.runs == s.store.runs;
  }

  /** When exactly a run is stranded: it becomes so by a winning save while it has no lease, or by its owner's release,
      and stays so until a save stops it, a retry is scheduled or an approval is asked for. */
  lemma StrandedExactly(p: Params, actions: seq<Action>, a: Action, id: string)
    ensures var s, t := Run(p, actions), Run(p, actions + [a]);
      Stranded(t, id) <==> if Stranded(s, id) then !Frees(s, a, id) else Strands(s, a, id)
  {
    var s := Run(p, actions);
    Always(p, actions);
    RunOneMore(p, actions, a);
    StrandedIff(s, id);
    StrandedIff(Run(p, actions + [a]), id);
    if a.RecoverBatch? {
      UnleasedByRecovery(p, s, a, id);
    } else if a.OfWorker() {
      UnleasedByWorker(p, s, a, id);
    } else if a.OpenApproval? || a.Decide? || a.Cancel? || a.Retry? {
      UnleasedByClient(p, s, a, id);
    } else if a.OnRuns() || a.PopAndClaim? {
      UnleasedByLeasing(p, s, a, id);
    } else {
      UnleasedByDispatcher(p, s, a, id);
    }
  }

  /** A stale save after the re-queue followed by a crash: RUNNING, nobody's, unseen. */
  lemma StaleSaveStrandsTheRun(p: Params)
    ensures var s := Run(p, GoStale() + [Save("w", "x"), Crash("w")]); s.workers == map[] && Stranded(s, "r")
  {
    StaleStateIsReachable(p);
    RunTwoMore(p, GoStale(), Save("w", "x"), Crash("w"));
    StrandedIff(Run(p, GoStale() + [Save("w", "x"), Crash("w")]), "r");
  }

  /** The owner's release of a run it has just claimed does the same. */
  lemma ReleaseStrandsTheRun(p: Params)
    ensures Stranded(Run(p, [Create(NewRun("r", "s", "m", 0)), Claim("r", "w", 1), Release("r", "w")]), "r")
  {
    var a := [Create(NewRun("r", "s", "m", 0)), Claim("r", "w", 1), Release("r", "w")];
    RunThree(p, a[0], a[1], a[2]);
    assert CanClaim(Perform(p, INITIAL, a[0]).store, "r", 0);
    StrandedIff(Run(p, a), "r");
  }

  // ---- Events of steps that were not committed ----

  /** A save publishes all its events whether it wins or not: they are in the log, and the step is committed exactly
      when the worker's checkpoint was still the current one and the run had not stopped. */
  lemma LoserStillPublishes(p: Params, actions: seq<Action>, w: string, stepId: string)
    requires var s := Run(p, actions); w in s.workers && s.workers[w].Computed?
    ensures var s := Run(p, actions); var pc := s.workers[w];
      var t := PerformAll(p, DoSave(s, w, stepId), [Publish(w), Publish(w), Publish(w)]);
      && pc.runId in s.store.runs
      && t.store.events == AppendAll(s.store, pc.runId, pc.outcome.events, s.now).events
      && Commits(t.history, pc.runId) == Commits(s.history, pc.runId)
           + if pc.base == s.store.runs[pc.runId].Current() && !Stopped(Commits(s.history, pc.runId))
             then [Commit(pc.base, pc.reply, pc.outcome)] else []
  {
    var s := Run(p, actions);
    var pc, t := s.workers[w], DoSave(s, w, stepId);
    Always(p, actions);
    assert PcOk(p.config, s.store, pc);
    FewEvents(p.config, pc.base, pc.reply);
    PublishesAll(p, t, w, pc.runId, pc.outcome.events);
    SaveIsCompareAndSwap(p.config, s, w);
    CommitsGrow(s.history, Fact(pc.runId, Committed(Commit(pc.base, pc.reply, pc.outcome))), pc.runId);
    SameAppends(s.store, t.store, pc.runId, pc.outcome.events, s.now);
  }

  lemma {:induction false} SameAppends(s: Store, t: Store, id: string, events: seq<Event>, now: int)
    requires s.events == t.events && s.runs.Keys == t.runs.Keys
    ensures var u, v := AppendAll(s, id, events, now), AppendAll(t, id, events, now);
      u.events == v.events && u.runs.Keys == s.runs.Keys && v.runs.Keys == t.runs.Keys
  {
    if events != [] {
      SameAppends(s, t, id, events[..|events| - 1], now);
    }
  }
}
