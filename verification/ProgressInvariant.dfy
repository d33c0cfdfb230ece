/** Why racing, stale and crashed workers still commit one linear execution: the step key turns
    `save_step` into a compare-and-swap on the checkpoint. */
module ProgressInvariant {
  import opened Common
  import opened Execution
  import opened StepMachine
  import opened RunRecords
  import opened StoreSpec
  import opened RunQueue
  import opened Protocol

  /** The steps committed for a run, oldest first. */
  function Commits(history: seq<Fact>, id: string): seq<Commit> {
    if history == [] then []
    else
      var last := history[|history| - 1];
      Commits(history[..|history| - 1], id) +
      if last.runId == id && last.deed.Committed? then [last.deed.commit] else []
  }

  lemma CommitsGrow(history: seq<Fact>, fact: Fact, id: string)
    ensures Commits(history + [fact], id) ==
      Commits(history, id) + if fact.runId == id && fact.deed.Committed? then [fact.deed.commit] else []
  {
    assert (history + [fact])[..|history|] == history;
  }

  /** The last committed step waits for an approval or answers: the run has reached a boundary. */
  predicate Stopped(cs: seq<Commit>) {
    cs != [] && cs[|cs| - 1].outcome.Boundary()
  }

  function FirstOf(run: StoredRun): Checkpoint {
    FirstCheckpoint(run.runId, run.sessionId, run.userMessage, [])
  }

  /** The checkpoint the k-th step starts from. */
  function BaseAt(first: Checkpoint, cs: seq<Commit>, k: nat): Checkpoint
    requires k <= |cs|
  {
    if k == 0 then first else cs[k - 1].outcome.checkpoint
  }

  /** Computed by `advance` from its base. */
  predicate Genuine(config: Config, c: Commit) {
    Advance(config, c.base, c.reply).Turned? && Advance(config, c.base, c.reply).outcome == c.outcome
  }

  /** A boundary leaves the checkpoint alone; any other step moves strictly forward. */
  predicate Moved(c: Commit) {
    if c.outcome.Boundary() then c.outcome.checkpoint == c.base else Before(c.base, c.outcome.checkpoint)
  }

  /** Each step starts from exactly the checkpoint it replaced, up to the current one; only the last can be
      a boundary. */
  ghost predicate Chained(first: Checkpoint, current: Checkpoint, cs: seq<Commit>) {
    && (forall k {:trigger BaseAt(first, cs, k)} :: 0 <= k < |cs| ==> cs[k].base == BaseAt(first, cs, k))
    && (forall k {:trigger Moved(cs[k])} :: 0 <= k < |cs| ==> Moved(cs[k]))
    && (forall k :: 0 <= k < |cs| - 1 ==> !cs[k].outcome.Boundary())
    && current == BaseAt(first, cs, |cs|)
  }

  ghost predicate AllGenuine(config: Config, cs: seq<Commit>) {
    forall k {:trigger Genuine(config, cs[k])} :: 0 <= k < |cs| ==> Genuine(config, cs[k])
  }

  /** The step table holds exactly the rows of these steps, each under the key of its base. */
  ghost predicate TableMatches(s: Store, id: string, cs: seq<Commit>) {
    && (forall k :: 0 <= k < |cs| ==>
          && (id, KeyOf(id, cs[k].base)) in s.steps
          && SameRow(s.steps[(id, KeyOf(id, cs[k].base))], cs[k]))
    && (forall key :: (id, key) in s.steps ==> exists k :: 0 <= k < |cs| && key == KeyOf(id, cs[k].base))
  }

  predicate SameRow(row: StoredStep, c: Commit) {
    row.status.StepCompleted? && row.checkpoint == c.outcome.checkpoint && row.stepType == c.outcome.stepType
    && row.sequence == c.base.nextStep
    && row.output == StepOutput(c.outcome.waitingForApproval, c.outcome.completed, c.outcome.finalResponse)
  }

  /** Every superseded checkpoint comes strictly before the current one. */
  ghost predicate Ahead(current: Checkpoint, cs: seq<Commit>) {
    !Stopped(cs) ==> forall k :: 0 <= k < |cs| ==> Before(cs[k].base, current)
  }

  ghost predicate RunProgress(config: Config, s: Store, id: string, cs: seq<Commit>)
    requires id in s.runs
  {
    var run := s.runs[id];
    && Chained(FirstOf(run), run.Current(), cs) && AllGenuine(config, cs)
    && TableMatches(s, id, cs)
    && Ahead(run.Current(), cs)
    && (run.status.Completed? ==> Stopped(cs) && cs[|cs| - 1].outcome.completed)
  }

  predicate GenuineMove(config: Config, c: Commit) { Genuine(config, c) && Moved(c) }

  lemma GenuineMoves(config: Config, c: Commit)
    requires Genuine(config, c)
    ensures GenuineMove(config, c)
  {
    AdvanceMoves(config, c.base, c.reply);
  }

  /** What a worker holds is the current checkpoint, or one whose key is already committed. */
  predicate PcOk(config: Config, s: Store, pc: Pc) {
    && pc.runId in s.runs
    && (!pc.Publishing? ==> pc.base == s.runs[pc.runId].Current() || (pc.runId, KeyOf(pc.runId, pc.base)) in s.steps)
    && (pc.Computed? ==> GenuineMove(config, Commit(pc.base, pc.reply, pc.outcome)))
  }

  ghost predicate WorkersOk(config: Config, s: System) {
    forall w {:trigger PcOk(config, s.store, s.workers[w])} :: w in s.workers ==> PcOk(config, s.store, s.workers[w])
  }

  ghost predicate AllProgress(config: Config, s: System) {
    && (forall id {:trigger RunProgress(config, s.store, id, Commits(s.history, id))} :: id in s.store.runs ==>
          RunProgress(config, s.store, id, Commits(s.history, id)))
    && (forall i :: 0 <= i < |s.history| ==> s.history[i].runId in s.store.runs)
  }

  ghost predicate ProgressOk(config: Config, s: System) {
    Valid(s.store) && AllProgress(config, s) && WorkersOk(config, s)
  }

  // ---- The compare-and-swap ----

  lemma KeyTaken(s: Store, id: string, first: Checkpoint, current: Checkpoint, cs: seq<Commit>)
    requires Chained(first, current, cs) && TableMatches(s, id, cs) && Ahead(current, cs)
    ensures (id, KeyOf(id, current)) in s.steps <==> Stopped(cs)
  {
    if Stopped(cs) {
      assert Moved(cs[|cs| - 1]);
    } else {
      forall k | 0 <= k < |cs| ensures KeyOf(id, current) != KeyOf(id, cs[k].base) {
        assert Before(cs[k].base, current);
      }
    }
  }

  /** The current checkpoint's key is committed exactly when the run has reached a boundary. */
  lemma KeyTakenIffStopped(config: Config, s: System, id: string)
    requires ProgressOk(config, s) && id in s.store.runs
    ensures (id, KeyOf(id, s.store.runs[id].Current())) in s.store.steps <==> Stopped(Commits(s.history, id))
  {
    var cs, run := Commits(s.history, id), s.store.runs[id];
    assert RunProgress(config, s.store, id, cs);
    KeyTaken(s.store, id, FirstOf(run), run.Current(), cs);
  }

  /** A save takes effect exactly when the worker's base is still the current checkpoint and the run has
      not reached a boundary; leases and status play no part. */
  lemma SaveIsCompareAndSwap(config: Config, s: System, w: string)
    requires ProgressOk(config, s) && w in s.workers && s.workers[w].Computed?
    ensures var pc := s.workers[w];
      Wins(s.store, pc.runId, pc.base) <==>
        pc.runId in s.store.runs && pc.base == s.store.runs[pc.runId].Current()
            && !Stopped(Commits(s.history, pc.runId))
  {
    var pc := s.workers[w];
    assert PcOk(config, s.store, pc);
    KeyTakenIffStopped(config, s, pc.runId);
  }

  // ---- Committing one step ----

  lemma ChainGrows(first: Checkpoint, current: Checkpoint, cs: seq<Commit>, c: Commit)
    requires Chained(first, current, cs) && Ahead(current, cs) && !Stopped(cs)
    requires c.base == current && Moved(c)
    ensures Chained(first, c.outcome.checkpoint, cs + [c]) && Ahead(c.outcome.checkpoint, cs + [c])
  {
    var longer := cs + [c];
    forall k | 0 <= k < |longer| ensures longer[k].base == BaseAt(first, longer, k) {
      assert BaseAt(first, longer, k) == BaseAt(first, cs, k);
    }
    forall k | 0 <= k < |longer| ensures Moved(longer[k]) {
      if k < |cs| {
        assert Moved(cs[k]);
      }
    }
  }

  lemma GenuineGrows(config: Config, cs: seq<Commit>, c: Commit)
    requires AllGenuine(config, cs) && Genuine(config, c)
    ensures AllGenuine(config, cs + [c])
  {
    forall k | 0 <= k < |cs + [c]| ensures Genuine(config, (cs + [c])[k]) {
      if k < |cs| {
        assert Genuine(config, cs[k]);
      }
    }
  }

  lemma TableGrows(s: Store, t: Store, id: string, cs: seq<Commit>, c: Commit, row: StoredStep)
    requires TableMatches(s, id, cs) && (id, KeyOf(id, c.base)) !in s.steps && SameRow(row, c)
    requires t.steps == s.steps[(id, KeyOf(id, c.base)) := row]
    ensures TableMatches(t, id, cs + [c])
  {
    var longer := cs + [c];
    assert longer[|cs|] == c;
    forall key | (id, key) in t.steps ensures exists k :: 0 <= k < |longer| && key == KeyOf(id, longer[k].base) {
      if (id, key) in s.steps {
        var k :| 0 <= k < |cs| && key == KeyOf(id, cs[k].base);
        assert longer[k] == cs[k];
      }
    }
  }

  lemma OtherTable(s: Store, t: Store, id: string, other: string, key: StepKey, row: StoredStep, cs: seq<Commit>)
    requires TableMatches(s, other, cs) && other != id && t.steps == s.steps[(id, key) := row]
    ensures TableMatches(t, other, cs)
  {
    forall k | (other, k) in t.steps ensures exists i :: 0 <= i < |cs| && k == KeyOf(other, cs[i].base) {
      assert (other, k) in s.steps;
    }
  }

  lemma RunProgressGrows(config: Config, s: Store, t: Store, id: string, cs: seq<Commit>, c: Commit, row: StoredStep,
                         now: int)
    requires id in s.runs && RunProgress(config, s, id, cs) && !Stopped(cs)
    requires c.base == s.runs[id].Current() && GenuineMove(config, c) && SameRow(row, c)
    requires (id, KeyOf(id, c.base)) !in s.steps && t.steps == s.steps[(id, KeyOf(id, c.base)) := row]
    requires id in t.runs && t.runs[id] == Stepped(s.runs[id], c.outcome.checkpoint, TargetStatus(c.outcome), now)
    ensures RunProgress(config, t, id, cs + [c])
  {
    var run := s.runs[id];
    ChainGrows(FirstOf(run), run.Current(), cs, c);
    GenuineGrows(config, cs, c);
    TableGrows(s, t, id, cs, c, row);
  }

  lemma OtherProgress(config: Config, s: Store, t: Store, id: string, other: string, key: StepKey, row: StoredStep,
                      cs: seq<Commit>)
    requires other in s.runs && RunProgress(config, s, other, cs) && other != id
    requires t.steps == s.steps[(id, key) := row] && other in t.runs && t.runs[other] == s.runs[other]
    ensures RunProgress(config, t, other, cs)
  {
    OtherTable(s, t, id, other, key, row, cs);
  }

  lemma SaveProgress(config: Config, s: Store, t: Store, id: string, c: Commit, row: StoredStep, now: int,
                     other: string, cs: seq<Commit>, after: seq<Commit>)
    requires after == cs + if other == id then [c] else []
    requires other in s.runs && RunProgress(config, s, other, cs) && (other == id ==> !Stopped(cs))
    requires id in s.runs && c.base == s.runs[id].Current() && GenuineMove(config, c) && SameRow(row, c)
    requires (id, KeyOf(id, c.base)) !in s.steps && t.steps == s.steps[(id, KeyOf(id, c.base)) := row]
    requires t.runs == s.runs[id := Stepped(s.runs[id], c.outcome.checkpoint, TargetStatus(c.outcome), now)]
    ensures RunProgress(config, t, other, after)
  {
    if other == id {
      RunProgressGrows(config, s, t, id, cs, c, row, now);
    } else {
      assert after == cs;
      OtherProgress(config, s, t, id, other, KeyOf(id, c.base), row, cs);
    }
  }

  lemma WinningSave(config: Config, s: System, w: string, stepId: string)
    requires ProgressOk(config, s) && w in s.workers && s.workers[w].Computed?
    requires Wins(s.store, s.workers[w].runId, s.workers[w].base)
    ensures AllProgress(config, DoSave(s, w, stepId))
  {
    var pc, t := s.workers[w], DoSave(s, w, stepId);
    var c, row := Commit(pc.base, pc.reply, pc.outcome), StepRow(stepId, pc.runId, pc.base, pc.outcome);
    SaveIsCompareAndSwap(config, s, w);
    assert PcOk(config, s.store, pc);
    forall other | other in t.store.runs ensures RunProgress(config, t.store, other, Commits(t.history, other)) {
      CommitsGrow(s.history, Fact(pc.runId, Committed(c)), other);
      assert RunProgress(config, s.store, other, Commits(s.history, other));
      SaveProgress(config, s.store, t.store, pc.runId, c, row, s.now, other, Commits(s.history, other),
                   Commits(t.history, other));
    }
  }

  lemma WinningSaveWorkers(config: Config, s: System, w: string, stepId: string)
    requires ProgressOk(config, s) && w in s.workers && s.workers[w].Computed?
    requires Wins(s.store, s.workers[w].runId, s.workers[w].base)
    ensures WorkersOk(config, DoSave(s, w, stepId))
  {
    var pc, t := s.workers[w], DoSave(s, w, stepId);
    SaveIsCompareAndSwap(config, s, w);
    forall v | v in t.workers ensures PcOk(config, t.store, t.workers[v]) {
      if v != w {
        assert PcOk(config, s.store, s.workers[v]);
      }
    }
  }

  // ---- Everything else leaves progress alone ----

  predicate SameSteps(before: StoredRun, after: StoredRun) {
    && after.runId == before.runId && after.sessionId == before.sessionId && after.userMessage == before.userMessage
    && after.checkpoint == before.checkpoint
    && (after.status.Completed? ==> before.status.Completed?)
  }

  /** No step committed: same step table, same checkpoints, no run newly COMPLETED. */
  ghost predicate Calm(s: Store, t: Store) {
    && t.runs.Keys == s.runs.Keys && t.steps == s.steps
    && forall id {:trigger SameSteps(s.runs[id], t.runs[id])} :: id in s.runs ==> SameSteps(s.runs[id], t.runs[id])
  }

  predicate Quiet(more: seq<Fact>, s: Store) {
    |more| <= 1 && (|more| == 1 ==> more[0].runId in s.runs && !more[0].deed.Committed?)
  }

  lemma CalmRun(config: Config, s: Store, t: Store, id: string, cs: seq<Commit>)
    requires id in s.runs && id in t.runs && RunProgress(config, s, id, cs)
    requires t.steps == s.steps && SameSteps(s.runs[id], t.runs[id])
    ensures RunProgress(config, t, id, cs)
  {
  }

  lemma QuietCommits(history: seq<Fact>, more: seq<Fact>, s: Store, id: string)
    requires Quiet(more, s)
    ensures Commits(history + more, id) == Commits(history, id)
  {
    if |more| == 1 {
      assert more == [more[0]];
      CommitsGrow(history, more[0], id);
    } else {
      assert history + more == history;
    }
  }

  lemma CalmKeeps(config: Config, s: System, t: System, more: seq<Fact>)
    requires ProgressOk(config, s) && Valid(t.store) && Calm(s.store, t.store)
    requires Quiet(more, s.store) && t.history == s.history + more
    requires forall w <- t.workers :: w in s.workers && t.workers[w] == s.workers[w]
    ensures ProgressOk(config, t)
  {
    CalmRuns(config, s, t, more);
    CalmWorkers(config, s, t);
  }

  lemma CalmRuns(config: Config, s: System, t: System, more: seq<Fact>)
    requires ProgressOk(config, s) && Calm(s.store, t.store)
    requires Quiet(more, s.store) && t.history == s.history + more
    ensures AllProgress(config, t)
  {
    forall id | id in t.store.runs ensures RunProgress(config, t.store, id, Commits(t.history, id)) {
      CalmRunKeeps(config, s, t, more, id);
    }
  }

  lemma CalmRunKeeps(config: Config, s: System, t: System, more: seq<Fact>, id: string)
    requires ProgressOk(config, s) && Calm(s.store, t.store) && id in t.store.runs
    requires Quiet(more, s.store) && t.history == s.history + more
    ensures RunProgress(config, t.store, id, Commits(t.history, id))
  {
    QuietCommits(s.history, more, s.store, id);
    assert RunProgress(config, s.store, id, Commits(s.history, id));
    assert SameSteps(s.store.runs[id], t.store.runs[id]);
    CalmRun(config, s.store, t.store, id, Commits(s.history, id));
  }

  lemma CalmWorkers(config: Config, s: System, t: System)
    requires WorkersOk(config, s) && Calm(s.store, t.store)
    requires forall w <- t.workers :: w in s.workers && t.workers[w] == s.workers[w]
    ensures WorkersOk(config, t)
  {
    forall w | w in t.workers ensures PcOk(config, t.store, t.workers[w]) {
      assert PcOk(config, s.store, s.workers[w]);
      assert SameSteps(s.store.runs[t.workers[w].runId], t.store.runs[t.workers[w].runId]);
    }
  }

  lemma WorkerMoves(config: Config, s: System, t: System, w: string)
    requires ProgressOk(config, s) && t.store == s.store && t.history == s.history
    requires w in t.workers && t.workers == s.workers[w := t.workers[w]] && PcOk(config, s.store, t.workers[w])
    ensures ProgressOk(config, t)
  {
    forall v | v in t.workers ensures PcOk(config, t.store, t.workers[v]) {
      if v != w {
        assert PcOk(config, s.store, s.workers[v]);
      }
    }
  }

  lemma LoadKeeps(config: Config, s: System, w: string, id: string)
    requires ProgressOk(config, s)
    ensures ProgressOk(config, DoLoad(s, w, id))
  {
    if w !in s.workers && id in s.store.runs {
      WorkerMoves(config, s, DoLoad(s, w, id), w);
    }
  }

  lemma CheckKeeps(config: Config, s: System, w: string)
    requires ProgressOk(config, s)
    ensures ProgressOk(config, DoCheck(s, w))
  {
    if w in s.workers && s.workers[w].Loaded? {
      assert PcOk(config, s.store, s.workers[w]);
      if w in DoCheck(s, w).workers {
        WorkerMoves(config, s, DoCheck(s, w), w);
      } else {
        CalmKeeps(config, s, DoCheck(s, w), []);
      }
    }
  }

  lemma ComputeKeeps(p: Params, s: System, w: string, reply: Reply)
    requires ProgressOk(p.config, s)
    ensures ProgressOk(p.config, DoCompute(p, s, w, reply))
  {
    if w in s.workers && s.workers[w].Missing? {
      var pc, turn := s.workers[w], Advance(p.config, s.workers[w].base, reply);
      assert PcOk(p.config, s.store, pc);
      if turn.Turned? {
        GenuineMoves(p.config, Commit(pc.base, reply, turn.outcome));
      }
      if w in DoCompute(p, s, w, reply).workers {
        WorkerMoves(p.config, s, DoCompute(p, s, w, reply), w);
      } else {
        CalmKeeps(p.config, s, DoCompute(p, s, w, reply), []);
      }
    }
  }

  lemma SaveKeeps(config: Config, s: System, w: string, stepId: string)
    requires ProgressOk(config, s) && Valid(DoSave(s, w, stepId).store)
    ensures ProgressOk(config, DoSave(s, w, stepId))
  {
    if w in s.workers && s.workers[w].Computed? {
      assert PcOk(config, s.store, s.workers[w]);
      if Wins(s.store, s.workers[w].runId, s.workers[w].base) {
        WinningSave(config, s, w, stepId);
        WinningSaveWorkers(config, s, w, stepId);
      } else {
        WorkerMoves(config, s, DoSave(s, w, stepId), w);
      }
    }
  }

  lemma AppendKeeps(config: Config, s: System, t: System)
    requires ProgressOk(config, s) && Valid(t.store)
    requires t == s.(store := s.store.(events := t.store.events))
    ensures ProgressOk(config, t)
  {
    CalmKeeps(config, s, t, []);
  }

  lemma PublishKeeps(config: Config, s: System, w: string)
    requires ProgressOk(config, s) && Valid(DoPublish(s, w).store)
    ensures ProgressOk(config, DoPublish(s, w))
  {
    if w in s.workers && s.workers[w].Publishing? {
      var t := DoPublish(s, w);
      assert PcOk(config, s.store, s.workers[w]);
      if w in t.workers {
        var u := s.(store := t.store);
        AppendKeeps(config, s, u);
        WorkerMoves(config, u, t, w);
      } else {
        CalmKeeps(config, s, t, []);
      }
    }
  }

  lemma NewRunProgress(config: Config, s: Store, run: NewRun)
    requires Valid(s) && run.runId !in s.runs
    ensures RunProgress(config, CreateRun(s, run).0, run.runId, [])
  {
  }

  lemma CreateCommits(history: seq<Fact>, run: NewRun, id: string)
    requires forall i :: 0 <= i < |history| ==> history[i].runId != run.runId
    ensures Commits(history + [Fact(run.runId, Created)], id) == if id == run.runId then [] else Commits(history, id)
  {
    CommitsGrow(history, Fact(run.runId, Created), id);
    CommitsOfUnknown(history, run.runId);
  }

  lemma CreateProgress(config: Config, s: Store, run: NewRun, id: string, cs: seq<Commit>)
    requires Valid(s) && run.runId !in s.runs && id in CreateRun(s, run).0.runs
    requires if id == run.runId then cs == [] else RunProgress(config, s, id, cs)
    ensures RunProgress(config, CreateRun(s, run).0, id, cs)
  {
    if id == run.runId {
      NewRunProgress(config, s, run);
    } else {
      CalmRun(config, s, CreateRun(s, run).0, id, cs);
    }
  }

  lemma CreateKeeps(config: Config, s: System, run: NewRun)
    requires ProgressOk(config, s) && Valid(DoCreate(s, run).store)
    ensures ProgressOk(config, DoCreate(s, run))
  {
    var t := DoCreate(s, run);
    if run.runId !in s.store.runs {
      forall id | id in t.store.runs ensures RunProgress(config, t.store, id, Commits(t.history, id)) {
        CreateCommits(s.history, run, id);
        assert id != run.runId ==> RunProgress(config, s.store, id, Commits(s.history, id));
        CreateProgress(config, s.store, run, id, Commits(t.history, id));
      }
      CreateKeepsWorkers(config, s, t, run);
    }
  }

  lemma CreateKeepsWorkers(config: Config, s: System, t: System, run: NewRun)
    requires WorkersOk(config, s) && run.runId !in s.store.runs
    requires t.workers == s.workers && t.store == CreateRun(s.store, run).0
    ensures WorkersOk(config, t)
  {
    forall w | w in t.workers ensures PcOk(config, t.store, t.workers[w]) {
      assert PcOk(config, s.store, s.workers[w]);
    }
  }

  lemma {:induction false} CommitsOfUnknown(history: seq<Fact>, id: string)
    requires forall i :: 0 <= i < |history| ==> history[i].runId != id
    ensures Commits(history, id) == []
  {
    if history != [] {
      CommitsOfUnknown(history[..|history| - 1], id);
    }
  }

  lemma {:induction false} RecoverEachKeeps(config: Config, kind: Recovery, s: System, ids: seq<string>)
    requires ProgressOk(config, s)
    ensures ProgressOk(config, RecoverEach(kind, s, ids))
  {
    if ids != [] {
      var init, last := ids[..|ids| - 1], ids[|ids| - 1];
      RecoverEachKeeps(config, kind, s, init);
      if last in RecoverEach(kind, s, init).store.runs {
        RecoverOneCalm(config, kind, RecoverEach(kind, s, init), last);
      }
    }
  }

  lemma RecoverOneCalm(config: Config, kind: Recovery, s: System, id: string)
    requires ProgressOk(config, s) && id in s.store.runs
    ensures ProgressOk(config, RecoverOne(kind, s, id))
  {
    CalmKeeps(config, s, RecoverOne(kind, s, id), [Fact(id, Recovered(kind))]);
  }

  // ---- The other calls on the store are calm ----

  lemma ClaimCalm(config: Config, s: System, runId: string, workerId: string, leaseSeconds: int)
    requires ProgressOk(config, s)
    ensures ProgressOk(config, DoClaim(s, runId, workerId, leaseSeconds))
  {
    if CanClaim(s.store, runId, s.now) {
      CalmKeeps(config, s, DoClaim(s, runId, workerId, leaseSeconds), [Fact(runId, ClaimedRun)]);
    }
  }

  lemma PopCalm(config: Config, s: System, workerId: string, leaseSeconds: int)
    requires ProgressOk(config, s)
    ensures ProgressOk(config, DoPopAndClaim(s, workerId, leaseSeconds))
  {
    var (queue, popped) := Pop(s.queue);
    if popped.Some? {
      CalmKeeps(config, s, s.(queue := queue), []);
      ClaimCalm(config, s.(queue := queue), popped.value, workerId, leaseSeconds);
    }
  }

  lemma RenewCalm(config: Config, s: System, runId: string, workerId: string, leaseSeconds: int)
    requires ProgressOk(config, s)
    ensures ProgressOk(config, s.(store := RenewLease(s.store, runId, workerId, leaseSeconds, s.now).0))
  {
    CalmKeeps(config, s, s.(store := RenewLease(s.store, runId, workerId, leaseSeconds, s.now).0), []);
  }

  lemma ReleaseCalm(config: Config, s: System, runId: string, workerId: string)
    requires ProgressOk(config, s)
    ensures ProgressOk(config, s.(store := ReleaseLease(s.store, runId, workerId).0))
  {
    CalmKeeps(config, s, s.(store := ReleaseLease(s.store, runId, workerId).0), []);
  }

  lemma OpenApprovalCalm(config: Config, s: System, runId: string, stepId: string, toolName: string,
                         arguments: Arguments)
    requires ProgressOk(config, s)
    ensures ProgressOk(config, DoOpenApproval(s, runId, stepId, toolName, arguments))
  {
    var t := DoOpenApproval(s, runId, stepId, toolName, arguments);
    if runId in s.store.runs && s.store.runs[runId].status.Running? {
      CalmKeeps(config, s, t, [Fact(runId, ApprovalOpened)]);
    }
  }

  lemma DecideCalm(config: Config, s: System, approvalId: nat, approved: bool)
    requires ProgressOk(config, s)
    ensures ProgressOk(config, DoDecide(s, approvalId, approved))
  {
    if CanDecide(s.store, approvalId) {
      CalmKeeps(config, s, DoDecide(s, approvalId, approved),
                [Fact(s.store.approvals[approvalId].runId, ApprovalDecided)]);
    }
  }

  lemma CancelCalm(config: Config, s: System, runId: string)
    requires ProgressOk(config, s)
    ensures ProgressOk(config, DoCancel(s, runId))
  {
    if runId in s.store.runs {
      var run, t := s.store.runs[runId], DoCancel(s, runId);
      var more := if run.Terminal() || run.status.Running? then [] else [Fact(runId, CanceledIdle)];
      assert t.history == s.history + more;
      CalmKeeps(config, s, t, more);
    }
  }

  lemma RetryCalm(p: Params, s: System, runId: string, at: int, code: string, message: string)
    requires ProgressOk(p.config, s)
    ensures ProgressOk(p.config, DoRetry(p, s, runId, at, code, message))
  {
    var t := DoRetry(p, s, runId, at, code, message);
    if runId in s.store.runs && (!p.guardedRetry || s.store.runs[runId].status.Running?) {
      CalmKeeps(p.config, s, t, [Fact(runId, RetryPlanned)]);
    }
  }

  lemma LeaseStep(p: Params, s: System, a: Action)
    requires ProgressOk(p.config, s) && Valid(Perform(p, s, a).store)
             && (a.Create? || a.Claim? || a.Renew? || a.Release?)
    ensures ProgressOk(p.config, Perform(p, s, a))
  {
    match a {
      case Create(run) => CreateKeeps(p.config, s, run);
      case Claim(runId, workerId, leaseSeconds) => ClaimCalm(p.config, s, runId, workerId, leaseSeconds);
      case Renew(runId, workerId, leaseSeconds) => RenewCalm(p.config, s, runId, workerId, leaseSeconds);
      case Release(runId, workerId) => ReleaseCalm(p.config, s, runId, workerId);
    }
  }

  lemma ClientStep(p: Params, s: System, a: Action)
    requires ProgressOk(p.config, s) && (a.OpenApproval? || a.Decide? || a.Cancel? || a.Retry?)
    ensures ProgressOk(p.config, Perform(p, s, a))
  {
    match a {
      case OpenApproval(runId, stepId, toolName, arguments) =>
        OpenApprovalCalm(p.config, s, runId, stepId, toolName, arguments);
      case Decide(approvalId, approved) => DecideCalm(p.config, s, approvalId, approved);
      case Cancel(runId) => CancelCalm(p.config, s, runId);
      case Retry(runId, at, code, message) => RetryCalm(p, s, runId, at, code, message);
    }
  }

  lemma ReadStep(p: Params, s: System, a: Action)
    requires ProgressOk(p.config, s) && (a.Load? || a.Check? || a.Compute?)
    ensures ProgressOk(p.config, Perform(p, s, a))
  {
    match a {
      case Load(worker, runId) => LoadKeeps(p.config, s, worker, runId);
      case Check(worker) => CheckKeeps(p.config, s, worker);
      case Compute(worker, reply) => ComputeKeeps(p, s, worker, reply);
    }
  }

  lemma CrashKeeps(config: Config, s: System, w: string)
    requires ProgressOk(config, s)
    ensures ProgressOk(config, s.(workers := s.workers - {w}))
  {
    CalmKeeps(config, s, s.(workers := s.workers - {w}), []);
  }

  lemma DispatcherStep(p: Params, s: System, a: Action)
    requires ProgressOk(p.config, s) && Valid(Perform(p, s, a).store)
    requires !a.OnRuns() && !a.OfWorker() && !a.PopAndClaim?
    ensures ProgressOk(p.config, Perform(p, s, a))
  {
    DispatchersTouchTheOutbox(p, s, a);
    OutboxCalm(p.config, s, Perform(p, s, a));
  }

  lemma DispatchersTouchTheOutbox(p: Params, s: System, a: Action)
    requires !a.OnRuns() && !a.OfWorker() && !a.PopAndClaim?
    ensures var t := Perform(p, s, a);
      t.store == s.store.(outbox := t.store.outbox) && t.workers == s.workers && t.history == s.history
  {
  }

  lemma OutboxCalm(config: Config, s: System, t: System)
    requires ProgressOk(config, s) && Valid(t.store) && t.store == s.store.(outbox := t.store.outbox)
    requires t.workers == s.workers && t.history == s.history
    ensures ProgressOk(config, t)
  {
    CalmKeeps(config, s, t, []);
  }

  lemma ProgressStep(p: Params, s: System, a: Action)
    requires ProgressOk(p.config, s) && Valid(Perform(p, s, a).store)
    ensures ProgressOk(p.config, Perform(p, s, a))
  {
    if a.Create? || a.Claim? || a.Renew? || a.Release? {
      LeaseStep(p, s, a);
    } else if a.RecoverBatch? {
      RecoverEachKeeps(p.config, a.kind, s, Candidates(a.kind, s.store, a.limit, s.now));
    } else if a.OnRuns() {
      ClientStep(p, s, a);
    } else if a.Load? || a.Check? || a.Compute? {
      ReadStep(p, s, a);
    } else if a.Save? {
      SaveKeeps(p.config, s, a.worker, a.stepId);
    } else if a.Publish? {
      PublishKeeps(p.config, s, a.worker);
    } else if a.Crash? {
      CrashKeeps(p.config, s, a.worker);
    } else if a.PopAndClaim? {
      PopCalm(p.config, s, a.workerId, a.leaseSeconds);
    } else {
      DispatcherStep(p, s, a);
    }
  }
}
