/** Event streams over runs of the whole system: the numbers in the log, what sessions deliver of it, and when that is
    everything. */
module EventStream {
  import opened Common
  import opened Execution
  import opened StepMachine
  import opened RunRecords
  import opened StoreSpec
  import opened RunQueue
  import opened Protocol
  import opened ProgressInvariant
  import opened Guarantees
  import opened EventReplay

  // ---- The log ----

  ghost predicate LogsNumbered(s: Store) {
    forall id <- s.events :: Numbered(s.events[id])
  }

  /** Events are only ever added at the end. */
  ghost predicate LogsGrow(s: Store, t: Store) {
    forall id <- s.events :: id in t.events && s.events[id] <= t.events[id]
  }

  lemma LogStep(p: Params, s: System, a: Action)
    requires Valid(s.store) && LogsNumbered(s.store)
    ensures LogsNumbered(Perform(p, s, a).store) && LogsGrow(s.store, Perform(p, s, a).store)
  {
    if a.Publish? {
      PublishLog(s, a.worker);
    } else if a.Create? {
      CreateLog(s, a.run);
    } else if a.RecoverBatch? {
      RecoveryKeepsLogs(a.kind, s, Candidates(a.kind, s.store, a.limit, s.now));
    } else {
      OthersKeepLogs(p, s, a);
    }
  }

  lemma PublishLog(s: System, w: string)
    requires LogsNumbered(s.store)
    ensures LogsNumbered(DoPublish(s, w).store) && LogsGrow(s.store, DoPublish(s, w).store)
  {
  }

  lemma CreateLog(s: System, run: NewRun)
    requires Valid(s.store) && LogsNumbered(s.store)
    ensures LogsNumbered(DoCreate(s, run).store) && LogsGrow(s.store, DoCreate(s, run).store)
  {
  }

  lemma OthersKeepLogs(p: Params, s: System, a: Action)
    requires !a.Publish? && !a.Create? && !a.RecoverBatch?
    ensures Perform(p, s, a).store.events == s.store.events
  {
  }

  lemma {:induction false} RecoveryKeepsLogs(kind: Recovery, s: System, ids: seq<string>)
    ensures RecoverEach(kind, s, ids).store.events == s.store.events
  {
    if ids != [] {
      RecoveryKeepsLogs(kind, s, ids[..|ids| - 1]);
    }
  }

  lemma {:induction false} AlwaysNumbered(p: Params, actions: seq<Action>)
    ensures LogsNumbered(Run(p, actions).store)
  {
    if actions != [] {
      var init := actions[..|actions| - 1];
      AlwaysNumbered(p, init);
      Always(p, init);
      LogStep(p, Run(p, init), actions[|actions| - 1]);
    }
  }

  lemma NextLogs(p: Params, init: seq<Action>, a: Action, whole: seq<Action>)
    requires whole == init + [a]
    ensures LogsGrow(Run(p, init).store, Run(p, whole).store)
  {
    AlwaysNumbered(p, init);
    Always(p, init);
    RunExtended(p, init, a, whole);
    LogStep(p, Run(p, init), a);
  }

  lemma LogsGrowOn(s: Store, t: Store, u: Store)
    requires LogsGrow(s, t) && LogsGrow(t, u)
    ensures LogsGrow(s, u)
  {
  }

  lemma {:induction false} LaterLogs(p: Params, actions: seq<Action>, j: nat, k: nat)
    requires j <= k <= |actions|
    ensures LogsGrow(Run(p, actions[..j]).store, Run(p, actions[..k]).store)
    decreases k
  {
    if j < k {
      LaterLogs(p, actions, j, k - 1);
      NextLogs(p, actions[..k - 1], actions[k - 1], actions[..k]);
      LogsGrowOn(Run(p, actions[..j]).store, Run(p, actions[..k - 1]).store, Run(p, actions[..k]).store);
    }
  }

  /** The log that a client reads after these actions of the whole system. */
  ghost predicate LogAfter(p: Params, actions: seq<Action>, id: string, log: seq<StoredEvent>) {
    id in Run(p, actions).store.events && Run(p, actions).store.events[id] == log
  }

  lemma LogsSeen(p: Params, actions: seq<Action>, j: nat, k: nat, id: string, before: seq<StoredEvent>,
                 log: seq<StoredEvent>)
    requires j <= k <= |actions| && LogAfter(p, actions[..j], id, before) && LogAfter(p, actions[..k], id, log)
    ensures Numbered(before) && before <= log
  {
    AlwaysNumbered(p, actions[..j]);
    LaterLogs(p, actions, j, k);
  }

  lemma LogsGrowing(p: Params, actions: seq<Action>, cuts: seq<nat>, id: string, logs: seq<seq<StoredEvent>>)
    requires |logs| == |cuts|
    requires forall i :: 0 <= i < |cuts| ==> cuts[i] <= |actions| && LogAfter(p, actions[..cuts[i]], id, logs[i])
    requires forall i, j :: 0 <= i < j < |cuts| ==> cuts[i] <= cuts[j]
    ensures Growing(logs)
  {
    forall i | 0 <= i < |logs| ensures Numbered(logs[i]) {
      LogsSeen(p, actions, cuts[i], cuts[i], id, logs[i], logs[i]);
    }
    forall i, j | 0 <= i < j < |logs| ensures logs[i] <= logs[j] {
      LogsSeen(p, actions, cuts[i], cuts[j], id, logs[i], logs[j]);
    }
  }

  /** These are logs of the run that a client reads one after the other while the whole system runs. */
  ghost predicate Reads(p: Params, actions: seq<Action>, cuts: seq<nat>, id: string, logs: seq<seq<StoredEvent>>) {
    && |logs| == |cuts| && logs != []
    && (forall i :: 0 <= i < |cuts| ==> cuts[i] <= |actions| && LogAfter(p, actions[..cuts[i]], id, logs[i]))
    && forall i, j :: 0 <= i < j < |cuts| ==> cuts[i] <= cuts[j]
  }

  /** Contiguous delivery in the whole system: replays at any moments, in any number of sessions each resumed
      from the last delivered id, deliver one contiguous slice of the run's log, from any cursor. */
  lemma ReplayAcrossSessions(
    p: Params, actions: seq<Action>, cuts: seq<nat>, id: string, logs: seq<seq<StoredEvent>>, cursor: int)
    requires Reads(p, actions, cuts, id, logs)
    ensures var log := logs[|logs| - 1];
      Numbered(log) && SliceOf(log, cursor, Deliveries(logs, cursor), FinalCursor(logs, cursor))
  {
    LogsGrowing(p, actions, cuts, id, logs);
    DeliveriesAreContiguous(logs, cursor);
  }

  /** A session that returned after n replays has sent the run's events, all that are stored in the end, exactly when at
      most 200 were newer than its cursor at its last replay and none was appended after that. */
  lemma SessionIsCompleteIff(
    p: Params, actions: seq<Action>, cuts: seq<nat>, id: string, around: Surroundings, after: int, n: nat,
    final: seq<StoredEvent>)
    requires n > 0 && Reads(p, actions, cuts, id, FirstLogs(around.log, n)) && LogAfter(p, actions, id, final)
    ensures var last := around.log(n - 1);
      EventsIn(Sent(around, after, n)) == Newer(final, after)
      <==> |Newer(last, CursorAt(around, after, n - 1))| <= REPLAY_LIMIT && Newer(final, after) == Newer(last, after)
  {
    var init, logs := FirstLogs(around.log, n - 1), FirstLogs(around.log, n);
    SentAfter(around, after, n - 1, init, logs);
    LogsCompleteIff(p, actions, cuts, id, init, around.log(n - 1), logs, after, final);
  }

  lemma LogsCompleteIff(
    p: Params, actions: seq<Action>, cuts: seq<nat>, id: string, init: seq<seq<StoredEvent>>, log: seq<StoredEvent>,
    logs: seq<seq<StoredEvent>>, cursor: int, final: seq<StoredEvent>)
    requires Reads(p, actions, cuts, id, logs) && LogAfter(p, actions, id, final) && logs == init + [log]
    ensures Deliveries(logs, cursor) == Newer(final, cursor)
      <==> |Newer(log, FinalCursor(init, cursor))| <= REPLAY_LIMIT && Newer(final, cursor) == Newer(log, cursor)
  {
    LogsGrowing(p, actions, cuts, id, logs);
    assert actions[..|actions|] == actions;
    LogsSeen(p, actions, cuts[|cuts| - 1], |actions|, id, logs[|logs| - 1], final);
    AlwaysNumbered(p, actions);
    assert logs[..|logs| - 1] == init;
    DeliveredAllIff(logs, cursor, final);
  }

  /** Not every event need be delivered: when an answer step is committed the run is already COMPLETED, so a
      session that looks now returns, while the step's events are still to be appended. */
  lemma CompletedBeforeItsEvents(p: Params, actions: seq<Action>, w: string, stepId: string)
    requires var s := Run(p, actions);
      w in s.workers && s.workers[w].Computed? && Wins(s.store, s.workers[w].runId, s.workers[w].base)
      && s.workers[w].outcome.completed
    ensures var s, t := Run(p, actions), Run(p, actions + [Save(w, stepId)]); var id := s.workers[w].runId;
      && id in t.store.runs && t.store.runs[id].status.Completed? && t.store.events == s.store.events
      && w in t.workers && t.workers[w].Publishing? && t.workers[w].events == s.workers[w].outcome.events
      && |t.workers[w].events| == 2 && t.workers[w].events[1] == RunCompleted
  {
    RunOneMore(p, actions, Save(w, stepId));
    Always(p, actions);
    CompletedStep(p, Run(p, actions), w);
  }

  lemma CompletedStep(p: Params, s: System, w: string)
    requires ProgressOk(p.config, s) && w in s.workers && s.workers[w].Computed? && s.workers[w].outcome.completed
    ensures var events := s.workers[w].outcome.events; |events| == 2 && events[1] == RunCompleted
    ensures !s.workers[w].outcome.waitingForApproval
  {
    var pc := s.workers[w];
    assert PcOk(p.config, s.store, pc);
    AdvanceMoves(p.config, pc.base, pc.reply);
    assert Advance(p.config, pc.base, pc.reply) == AfterAnswer(pc.base, pc.reply.answer);
  }
}
