/** What the durable run protocol guarantees in every reachable state, for any number of workers and
    dispatchers, any interleaving, any crashes and any oracle replies. */
module Guarantees {
  import opened Common
  import opened Execution
  import opened StepMachine
  import opened Sessions
  import opened RunRecords
  import opened StoreSpec
  import opened RunQueue
  import opened Protocol
  import opened DispatchInvariant
  import opened ProgressInvariant
  import opened Ledger

  ghost predicate Sound(p: Params, s: System) {
    DispatchOk(s) && ProgressOk(p.config, s) && LedgerOk(s)
  }

  lemma SoundStep(p: Params, s: System, a: Action)
    requires Sound(p, s)
    ensures Sound(p, Perform(p, s, a))
  {
    DispatchStep(p, s, a);
    ProgressStep(p, s, a);
    LedgerStep(p, s, a);
  }

  lemma {:induction false} Always(p: Params, actions: seq<Action>)
    ensures Sound(p, Run(p, actions))
  {
    if actions != [] {
      Always(p, actions[..|actions| - 1]);
      SoundStep(p, Run(p, actions[..|actions| - 1]), actions[|actions| - 1]);
    }
  }

  // ---- One linear, sequential execution ----

  /** The replies the committed steps were computed from. */
  function RepliesOf(cs: seq<Commit>): Replies {
    (i: nat) => if i < |cs| then cs[i].reply else Reply(None, ToolRaised("", ""), None)
  }

  function EndingAt(cs: seq<Commit>, k: nat): Ending
    requires k <= |cs|
  {
    if k == 0 || !cs[k - 1].outcome.Boundary() then Pending
    else if cs[k - 1].outcome.completed then Finished
    else AwaitingApproval
  }

  function EventsUpTo(cs: seq<Commit>, k: nat): seq<Event>
    requires k <= |cs|
  {
    if k == 0 then [RunStarted] else EventsUpTo(cs, k - 1) + cs[k - 1].outcome.events
  }

  /** Session s is the committed steps, played in order. */
  predicate Replays(s: Session, first: Checkpoint, cs: seq<Commit>, k: nat)
    requires k <= |cs|
  {
    s.checkpoint == BaseAt(first, cs, k) && s.turns == k && s.ending == EndingAt(cs, k) && s.events == EventsUpTo(cs, k)
  }

  lemma ReplayTurn(config: Config, first: Checkpoint, current: Checkpoint, cs: seq<Commit>, s: Session, k: nat)
    requires k < |cs| && Chained(first, current, cs) && AllGenuine(config, cs) && Replays(s, first, cs, k)
    ensures s.ending.Pending? && Replays(TakeTurn(config, s, cs[k].reply, true), first, cs, k + 1)
  {
    assert Genuine(config, cs[k]) && cs[k].base == BaseAt(first, cs, k);
    assert k > 0 ==> !cs[k - 1].outcome.Boundary();
    assert Moved(cs[k]);
  }

  lemma {:induction false} ChainReplays(
    config: Config, start: Session, current: Checkpoint, cs: seq<Commit>, k: nat)
    requires start.ending.Pending? && start.turns == 0 && start.events == [RunStarted] && k <= |cs|
    requires Chained(start.checkpoint, current, cs) && AllGenuine(config, cs)
    ensures Replays(RunTurns(config, start, RepliesOf(cs), k, true), start.checkpoint, cs, k)
  {
    if k > 0 {
      ChainReplays(config, start, current, cs, k - 1);
      ReplayTurn(config, start.checkpoint, current, cs, RunTurns(config, start, RepliesOf(cs), k - 1, true), k - 1);
    }
  }

  function StartOf(run: StoredRun): Session {
    StreamStart(run.runId, run.sessionId, run.userMessage, [])
  }

  /** The committed steps of a durable run are a run of the sequential `stream` loop on the same replies:
      same checkpoints, same events, same ending, whatever raced, went stale or crashed. */
  lemma DurableRunIsSequential(p: Params, actions: seq<Action>, id: string)
    requires id in Run(p, actions).store.runs
    ensures var s := Run(p, actions); var run, cs := s.store.runs[id], Commits(s.history, id);
      var session := RunTurns(p.config, StartOf(run), RepliesOf(cs), |cs|, true);
      && session.checkpoint == run.Current()
      && session.turns == |cs| && session.ending == EndingAt(cs, |cs|) && session.events == EventsUpTo(cs, |cs|)
  {
    Always(p, actions);
    var s := Run(p, actions);
    var run, cs := s.store.runs[id], Commits(s.history, id);
    assert RunProgress(p.config, s.store, id, cs);
    ChainReplays(p.config, StartOf(run), run.Current(), cs, |cs|);
  }

  lemma TableOfRun(config: Config, s: System, id: string)
    requires ProgressOk(config, s) && id in s.store.runs
    ensures var cs := Commits(s.history, id);
      && TableMatches(s.store, id, cs)
      && (forall j, k :: 0 <= j < k < |cs| ==> KeyOf(id, cs[j].base) != KeyOf(id, cs[k].base))
  {
    var cs := Commits(s.history, id);
    assert RunProgress(config, s.store, id, cs);
    ChainIsOrdered(FirstOf(s.store.runs[id]), s.store.runs[id].Current(), cs);
  }

  /** The step table holds exactly those steps, each under the key of the checkpoint it replaced, and
      never more than 2m+1 of them. */
  lemma StepTableIsTheChain(p: Params, actions: seq<Action>, id: string)
    requires id in Run(p, actions).store.runs
    ensures var s := Run(p, actions); var cs := Commits(s.history, id);
      && TableMatches(s.store, id, cs)
      && (forall j, k :: 0 <= j < k < |cs| ==> KeyOf(id, cs[j].base) != KeyOf(id, cs[k].base))
      && |cs| <= 2 * p.config.StepLimit() + 1
  {
    Always(p, actions);
    var s := Run(p, actions);
    TableOfRun(p.config, s, id);
    DurableRunIsSequential(p, actions, id);
    AtMostTwoPerStep(p.config, StartOf(s.store.runs[id]), RepliesOf(Commits(s.history, id)), |Commits(s.history, id)|);
  }

  lemma AtMostTwoPerStep(config: Config, start: Session, replies: Replies, n: nat)
    requires IsStreamStart(start)
    ensures RunTurns(config, start, replies, n, true).turns <= 2 * config.StepLimit() + 1
  {
    StreamKeepsInvariant(config, start, replies, n);
  }

  lemma {:induction false} BasesClimb(first: Checkpoint, current: Checkpoint, cs: seq<Commit>, j: nat, k: nat)
    requires Chained(first, current, cs) && j < k < |cs|
    ensures Before(cs[j].base, cs[k].base)
    decreases k
  {
    assert Moved(cs[k - 1]) && cs[k].base == BaseAt(first, cs, k);
    if j < k - 1 {
      BasesClimb(first, current, cs, j, k - 1);
    }
  }

  lemma ChainIsOrdered(first: Checkpoint, current: Checkpoint, cs: seq<Commit>)
    requires Chained(first, current, cs)
    ensures forall j, k :: 0 <= j < k < |cs| ==> Before(cs[j].base, cs[k].base)
  {
    forall j, k | 0 <= j < k < |cs| ensures Before(cs[j].base, cs[k].base) {
      BasesClimb(first, current, cs, j, k);
    }
  }

  // ---- Boundaries are final ----

  /** The current checkpoint's key is committed exactly when the last step waits or answers. */
  lemma BoundaryMeansCommittedKey(p: Params, actions: seq<Action>, id: string)
    requires id in Run(p, actions).store.runs
    ensures var s := Run(p, actions);
      (id, KeyOf(id, s.store.runs[id].Current())) in s.store.steps <==> Stopped(Commits(s.history, id))
  {
    Always(p, actions);
    KeyTakenIffStopped(p.config, Run(p, actions), id);
  }

  /** At most one more committed step for the run, and none if it had stopped. */
  ghost predicate CommitsAppended(s: System, t: System, id: string) {
    var before, after := Commits(s.history, id), Commits(t.history, id);
    && id in t.store.runs
    && (after == before || (|after| == |before| + 1 && after[..|before|] == before))
    && (Stopped(before) ==> after == before)
  }

  lemma NoneAppended(s: System, t: System, id: string)
    requires id in t.store.runs && Commits(t.history, id) == Commits(s.history, id)
    ensures CommitsAppended(s, t, id)
  {
  }

  /** An action adds at most one committed step to a run, and none once the run has stopped. */
  lemma CommitsAppend(p: Params, s: System, a: Action, id: string)
    requires Sound(p, s) && id in s.store.runs
    ensures CommitsAppended(s, Perform(p, s, a), id)
  {
    var t := Perform(p, s, a);
    if a.Save? {
      SavingAppends(p, s, a, id, t);
    } else if a.RecoverBatch? {
      RecoveryAppends(p, s, a, id, t);
    } else {
      OthersAppend(p, s, a, id, t);
    }
  }

  lemma SavingAppends(p: Params, s: System, a: Action, id: string, t: System)
    requires a.Save? && Sound(p, s) && id in s.store.runs && t == Perform(p, s, a)
    ensures CommitsAppended(s, t, id)
  {
    SaveAppends(p, s, a.worker, a.stepId, id);
  }

  lemma OthersAppend(p: Params, s: System, a: Action, id: string, t: System)
    requires !a.Save? && !a.RecoverBatch? && id in s.store.runs && t == Perform(p, s, a)
    ensures CommitsAppended(s, t, id)
  {
    OthersCommitNothing(p, s, a, id);
    NoneAppended(s, t, id);
  }

  lemma RecoveryAppends(p: Params, s: System, a: Action, id: string, t: System)
    requires a.RecoverBatch? && id in s.store.runs && t == Perform(p, s, a)
    ensures CommitsAppended(s, t, id)
  {
    RecoveryCommitsNothing(a.kind, s, Candidates(a.kind, s.store, a.limit, s.now), id);
    NoneAppended(s, t, id);
  }

  lemma SaveAppends(p: Params, s: System, w: string, stepId: string, id: string)
    requires Sound(p, s) && id in s.store.runs
    ensures CommitsAppended(s, DoSave(s, w, stepId), id)
  {
    if w in s.workers && s.workers[w].Computed? {
      var pc := s.workers[w];
      SaveIsCompareAndSwap(p.config, s, w);
      CommitsGrow(s.history, Fact(pc.runId, Committed(Commit(pc.base, pc.reply, pc.outcome))), id);
    }
  }

  lemma {:induction false} RecoveryCommitsNothing(kind: Recovery, s: System, ids: seq<string>, id: string)
    requires id in s.store.runs
    ensures var t := RecoverEach(kind, s, ids); id in t.store.runs && Commits(t.history, id) == Commits(s.history, id)
  {
    if ids != [] {
      var u, last := RecoverEach(kind, s, ids[..|ids| - 1]), ids[|ids| - 1];
      RecoveryCommitsNothing(kind, s, ids[..|ids| - 1], id);
      CommitsGrow(u.history, Fact(last, Recovered(kind)), id);
    }
  }

  /** Any action but a save or a recovery reports at most one deed, and not a commit. */
  lemma OthersReportLittle(p: Params, s: System, a: Action)
    requires !a.Save? && !a.RecoverBatch?
    ensures var t := Perform(p, s, a);
      t.history == s.history || exists f: Fact :: !f.deed.Committed? && t.history == s.history + [f]
  {
  }

  lemma LittleCommitsNothing(before: seq<Fact>, after: seq<Fact>, id: string)
    requires after == before || exists f: Fact :: !f.deed.Committed? && after == before + [f]
    ensures Commits(after, id) == Commits(before, id)
  {
    if after != before {
      var f: Fact :| !f.deed.Committed? && after == before + [f];
      CommitsGrow(before, f, id);
    }
  }

  lemma OthersKeepRuns(p: Params, s: System, a: Action, id: string)
    requires id in s.store.runs && !a.RecoverBatch?
    ensures id in Perform(p, s, a).store.runs
  {
  }

  lemma OthersCommitNothing(p: Params, s: System, a: Action, id: string)
    requires id in s.store.runs && !a.Save? && !a.RecoverBatch?
    ensures var t := Perform(p, s, a); id in t.store.runs && Commits(t.history, id) == Commits(s.history, id)
  {
    OthersKeepRuns(p, s, a, id);
    OthersReportLittle(p, s, a);
    LittleCommitsNothing(s.history, Perform(p, s, a).history, id);
  }

  predicate StoppedWith(s: System, id: string, cs: seq<Commit>) {
    id in s.store.runs && Commits(s.history, id) == cs && Stopped(cs)
  }

  lemma StoppedStep(p: Params, s: System, a: Action, id: string, cs: seq<Commit>)
    requires Sound(p, s) && StoppedWith(s, id, cs)
    ensures StoppedWith(Perform(p, s, a), id, cs)
  {
    CommitsAppend(p, s, a, id);
  }

  lemma {:induction false} StoppedStays(p: Params, actions: seq<Action>, more: seq<Action>, id: string, cs: seq<Commit>)
    requires StoppedWith(Run(p, actions), id, cs)
    ensures StoppedWith(Run(p, actions + more), id, cs)
  {
    if more == [] {
      assert actions + more == actions;
    } else {
      var init, last := more[..|more| - 1], more[|more| - 1];
      StoppedStays(p, actions, init, id, cs);
      Always(p, actions + init);
      StoppedStep(p, Run(p, actions + init), last, id, cs);
      SplitLast(actions, more);
      RunExtended(p, actions + init, last, actions + more);
    }
  }

  /** Once a run has stopped, nothing that can happen afterwards commits a step or moves its checkpoint. */
  lemma StoppedIsFinal(p: Params, actions: seq<Action>, more: seq<Action>, id: string)
    requires id in Run(p, actions).store.runs && Stopped(Commits(Run(p, actions).history, id))
    ensures var cs, t := Commits(Run(p, actions).history, id), Run(p, actions + more);
      id in t.store.runs && Commits(t.history, id) == cs && t.store.runs[id].Current() == cs[|cs| - 1].base
  {
    StoppedStays(p, actions, more, id, Commits(Run(p, actions).history, id));
    Always(p, actions + more);
    StoppedAtLastBase(p.config, Run(p, actions + more), id);
  }

  lemma RunOneMore(p: Params, actions: seq<Action>, a: Action)
    ensures Run(p, actions + [a]) == Perform(p, Run(p, actions), a)
  {
    RunExtended(p, actions, a, actions + [a]);
  }

  lemma RunExtended(p: Params, init: seq<Action>, last: Action, whole: seq<Action>)
    requires whole == init + [last]
    ensures Run(p, whole) == Perform(p, Run(p, init), last)
  {
    assert whole[..|whole| - 1] == init;
  }

  lemma StoppedAtLastBase(config: Config, s: System, id: string)
    requires ProgressOk(config, s) && id in s.store.runs && Stopped(Commits(s.history, id))
    ensures s.store.runs[id].Current() == Commits(s.history, id)[|Commits(s.history, id)| - 1].base
  {
    var cs := Commits(s.history, id);
    assert RunProgress(config, s.store, id, cs);
    StoppedBase(config, s.store, id, cs, cs[|cs| - 1]);
  }

  lemma StoppedBase(config: Config, s: Store, id: string, cs: seq<Commit>, last: Commit)
    requires id in s.runs && RunProgress(config, s, id, cs) && Stopped(cs) && last == cs[|cs| - 1]
    ensures s.runs[id].Current() == last.base
  {
    assert Moved(last);
  }

  /** The approval wedge: a durable run that has committed an approval request never completes, whatever is
      decided and however often it is resumed. */
  lemma ApprovalWedge(p: Params, actions: seq<Action>, more: seq<Action>, id: string)
    requires id in Run(p, actions).store.runs && Stopped(Commits(Run(p, actions).history, id))
    requires var cs := Commits(Run(p, actions).history, id); !cs[|cs| - 1].outcome.completed
    ensures id in Run(p, actions + more).store.runs && !Run(p, actions + more).store.runs[id].status.Completed?
  {
    StoppedIsFinal(p, actions, more, id);
    Always(p, actions + more);
    var t := Run(p, actions + more);
    assert RunProgress(p.config, t.store, id, Commits(t.history, id));
  }

  lemma CompletedStepEndsTheCall(s: System, id: string, w: string)
    requires id in s.store.runs && w !in s.workers
    requires GetCompletedStep(s.store, id, KeyOf(id, s.store.runs[id].Current())).Some?
    ensures DoCheck(DoLoad(s, w, id), w) == s
  {
    assert DoLoad(s, w, id).workers - {w} == s.workers;
  }

  /** A worker that resumes a stopped run finds its step already done and ends where it began: the loop of
      `run_to_boundary` goes round for ever without changing anything. */
  lemma StoppedRunSpins(p: Params, actions: seq<Action>, id: string, w: string)
    requires var s := Run(p, actions); id in s.store.runs && w !in s.workers && Stopped(Commits(s.history, id))
    ensures Perform(p, Perform(p, Run(p, actions), Load(w, id)), Check(w)) == Run(p, actions)
  {
    Always(p, actions);
    var s := Run(p, actions);
    KeyTakenIffStopped(p.config, s, id);
    StepsAreCompleted(p.config, s, id);
    CompletedStepEndsTheCall(s, id, w);
  }

  lemma StepsAreCompleted(config: Config, s: System, id: string)
    requires ProgressOk(config, s) && id in s.store.runs
    ensures forall key :: (id, key) in s.store.steps ==> s.store.steps[(id, key)].status.StepCompleted?
  {
    var cs := Commits(s.history, id);
    assert RunProgress(config, s.store, id, cs);
    forall key | (id, key) in s.store.steps ensures s.store.steps[(id, key)].status.StepCompleted? {
      var k :| 0 <= k < |cs| && key == KeyOf(id, cs[k].base);
      assert SameRow(s.store.steps[(id, key)], cs[k]);
    }
  }

  // ---- Terminal statuses ----

  /** The two calls that look at no status: a save that wins, and a retry in the in-memory store. */
  predicate Reopens(p: Params, s: System, a: Action, id: string) {
    || (a.Save? && a.worker in s.workers && s.workers[a.worker].Computed? && s.workers[a.worker].runId == id
        && Wins(s.store, id, s.workers[a.worker].base))
    || (a.Retry? && a.runId == id && !p.guardedRetry)
  }

  /** COMPLETED, FAILED and CANCELED are left exactly by those two calls. */
  lemma TerminalUnlessReopened(p: Params, actions: seq<Action>, a: Action, id: string)
    requires id in Run(p, actions).store.runs && Run(p, actions).store.runs[id].Terminal()
    ensures LeavesAlone(p, Run(p, actions), Run(p, actions + [a]), a, id)
  {
    RunOneMore(p, actions, a);
    Always(p, actions);
    TerminalKept(p, Run(p, actions), a, id);
  }

  lemma TerminalKept(p: Params, s: System, a: Action, id: string)
    requires DispatchOk(s) && id in s.store.runs && s.store.runs[id].Terminal()
    ensures LeavesAlone(p, s, Perform(p, s, a), a, id)
  {
    assert LeaseOk(s.store.runs[id]);
    if a.RecoverBatch? {
      RecoveryDue(s, a.kind, a.limit, id);
    } else {
      TerminalStep(p, s, a, id);
    }
  }

  predicate LeavesAlone(p: Params, s: System, t: System, a: Action, id: string)
    requires id in s.store.runs
  {
    && id in t.store.runs
    && if !Reopens(p, s, a, id) then t.store.runs[id] == s.store.runs[id]
       else
         && t.store.runs[id].version == s.store.runs[id].version + 1
         && t.store.runs[id].status == if a.Save? then TargetStatus(s.workers[a.worker].outcome) else RetryScheduled
  }

  lemma TerminalLeaseStep(p: Params, s: System, a: Action, id: string)
    requires id in s.store.runs && s.store.runs[id].Terminal() && LeaseOk(s.store.runs[id])
    requires a.Create? || a.Claim? || a.Renew? || a.Release?
    ensures LeavesAlone(p, s, Perform(p, s, a), a, id)
  {
  }

  lemma TerminalClientStep(p: Params, s: System, a: Action, id: string)
    requires id in s.store.runs && s.store.runs[id].Terminal()
    requires a.OpenApproval? || a.Decide? || a.Cancel? || a.Retry?
    ensures LeavesAlone(p, s, Perform(p, s, a), a, id)
  {
  }

  lemma TerminalOtherStep(p: Params, s: System, a: Action, id: string)
    requires id in s.store.runs && s.store.runs[id].Terminal() && !a.OnRuns()
    ensures LeavesAlone(p, s, Perform(p, s, a), a, id)
  {
  }

  lemma TerminalStep(p: Params, s: System, a: Action, id: string)
    requires id in s.store.runs && s.store.runs[id].Terminal() && LeaseOk(s.store.runs[id]) && !a.RecoverBatch?
    ensures LeavesAlone(p, s, Perform(p, s, a), a, id)
  {
    if a.Create? || a.Claim? || a.Renew? || a.Release? {
      TerminalLeaseStep(p, s, a, id);
    } else if a.OnRuns() {
      TerminalClientStep(p, s, a, id);
    } else {
      TerminalOtherStep(p, s, a, id);
    }
  }

  /** COMPLETED is absorbing, stale workers included, except for a retry in the in-memory store. */
  lemma CompletedIsAbsorbing(p: Params, actions: seq<Action>, a: Action, id: string)
    requires id in Run(p, actions).store.runs && Run(p, actions).store.runs[id].status.Completed?
    ensures var t := Run(p, actions + [a]);
      id in t.store.runs
      && (t.store.runs[id].status.Completed? <==> !(a.Retry? && a.runId == id && !p.guardedRetry))
  {
    Always(p, actions);
    CompletedIsNotReopenedBySaves(p, Run(p, actions), a, id);
    TerminalUnlessReopened(p, actions, a, id);
    RunOneMore(p, actions, a);
  }

  lemma CompletedIsNotReopenedBySaves(p: Params, s: System, a: Action, id: string)
    requires ProgressOk(p.config, s) && id in s.store.runs && s.store.runs[id].status.Completed?
    ensures Reopens(p, s, a, id) <==> a.Retry? && a.runId == id && !p.guardedRetry
  {
    assert RunProgress(p.config, s.store, id, Commits(s.history, id));
    if a.Save? && a.worker in s.workers && s.workers[a.worker].Computed? {
      SaveIsCompareAndSwap(p.config, s, a.worker);
    }
  }

  // ---- Dispatch ----

  /** No lost wake-up: a QUEUED run is on the queue, or the dispatch record of its current version is
      unpublished and was never enqueued. */
  lemma NoLostWakeUp(p: Params, actions: seq<Action>, id: string)
    requires id in Run(p, actions).store.runs && Run(p, actions).store.runs[id].status.Queued?
    ensures var s := Run(p, actions); var key := DispatchKey(id, s.store.runs[id].version);
      || id in s.queue.pending
      || (key !in s.queue.keys
          && exists i ::
               0 <= i < |s.store.outbox| && s.store.outbox[i].key == key && s.store.outbox[i].publishedAt.None?)
  {
    Always(p, actions);
    var s := Run(p, actions);
    assert Awake(s, id);
    if id !in s.queue.pending {
      var i :| 0 <= i < |s.store.outbox| && s.store.outbox[i].key == DispatchKey(id, s.store.runs[id].version);
      assert s.store.outbox[i].publishedAt.None?;
    }
  }

  /** Dispatch keys are distinct as texts, published implies enqueued, and each key is pushed at most once. */
  lemma DispatchKeysUsedOnce(p: Params, actions: seq<Action>)
    ensures var s := Run(p, actions); var outbox := s.store.outbox;
      && (forall i, j :: 0 <= i < j < |outbox| ==> outbox[i].key.Text() != outbox[j].key.Text())
      && (forall i :: 0 <= i < |outbox| && outbox[i].publishedAt.Some? ==> outbox[i].key in s.queue.keys)
      && NoDuplicates(s.queue.pushed)
      && (forall k :: k in s.queue.pushed ==> HasKey(outbox, k))
  {
    Always(p, actions);
    var outbox := Run(p, actions).store.outbox;
    forall i, j | 0 <= i < j < |outbox| ensures outbox[i].key.Text() != outbox[j].key.Text() {
      if outbox[i].key.Text() == outbox[j].key.Text() {
        DispatchTextInjective(outbox[i].key, outbox[j].key);
      }
    }
  }

  // ---- Leases and counts ----

  /** `claim_run` succeeds exactly on a QUEUED or RETRY_SCHEDULED run; a lease is whole and only on a RUNNING run. */
  lemma ClaimNeedsOnlyStatus(p: Params, actions: seq<Action>, id: string, workerId: string, leaseSeconds: int)
    requires id in Run(p, actions).store.runs
    ensures var s := Run(p, actions); var run := s.store.runs[id];
      && (run.leaseOwner.Some? <==> run.leaseExpiresAt.Some?)
      && (run.leaseOwner.Some? ==> run.status.Running?)
      && (ClaimRun(s.store, id, workerId, leaseSeconds, s.now).1 != Ok(None)
          <==> run.status.Queued? || run.status.RetryScheduled?)
  {
    Always(p, actions);
    var s := Run(p, actions);
    assert LeaseOk(s.store.runs[id]);
    ClaimableIsEnough(s.store, id, s.now);
  }

  lemma RecoveryDue(s: System, kind: Recovery, limit: nat, id: string)
    requires DispatchOk(s) && id in s.store.runs
    ensures var t := RecoverEach(kind, s, Candidates(kind, s.store, limit, s.now));
      id in t.store.runs && (t.store.runs[id] != s.store.runs[id] ==> Recoverable(kind, s.store.runs[id], s.now))
  {
    CandidatesDistinct(kind, s.store, limit, s.now);
    DispatchInvariant.RecoverEachKeeps(kind, s, Candidates(kind, s.store, limit, s.now));
  }

  /** Recovery touches only runs whose lease has expired or whose retry is due. */
  lemma RecoveryTakesOnlyTheDue(p: Params, actions: seq<Action>, kind: Recovery, limit: nat, id: string)
    requires id in Run(p, actions).store.runs
    ensures var s := Run(p, actions); var t := Perform(p, s, RecoverBatch(kind, limit));
      id in t.store.runs && (t.store.runs[id] != s.store.runs[id] ==> Recoverable(kind, s.store.runs[id], s.now))
  {
    Always(p, actions);
    RecoveryDue(Run(p, actions), kind, limit, id);
  }

  /** Conservation over whole histories. */
  lemma HistoryIsConserved(p: Params, actions: seq<Action>, id: string)
    requires id in Run(p, actions).store.runs
    ensures var s := Run(p, actions); var run, c := s.store.runs[id], CountsOf(s.history, id);
      && run.version == c.claims + c.commits + c.approvals + c.decided + c.canceled + c.retries + c.expired + c.due
      && run.attemptCount == c.expired
      && Dispatches(s.store.outbox, id) == 1 + c.decided + c.expired + c.due
      && c.claims <= 1 + c.expired + c.retries + c.decided
      && c.commits == |Commits(s.history, id)|
  {
    Always(p, actions);
    var s := Run(p, actions);
    CommitsCounted(s.history, id);
    assert Balanced(s.store.runs[id], CountsOf(s.history, id), Dispatches(s.store.outbox, id));
  }

  lemma {:induction false} CommitsCounted(history: seq<Fact>, id: string)
    ensures CountsOf(history, id).commits == |Commits(history, id)|
  {
    if history != [] {
      CommitsCounted(history[..|history| - 1], id);
    }
  }
}
