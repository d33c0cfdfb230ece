/** The worker (app/services/run_orchestrator.py): `execute_next_step` and `run_to_boundary` as written,
    undisturbed, and their place in the transition system. */
module Orchestrator {
  import opened Common
  import opened Execution
  import opened StepMachine
  import opened Sessions
  import opened Runtime
  import opened RunRecords
  import opened StoreSpec
  import opened RunStore
  import opened RunQueue
  import opened Protocol
  import opened ProgressInvariant
  import opened Guarantees

  function AppendAll(s: Store, runId: string, events: seq<Event>, now: int): Store {
    if events == [] then s
    else AppendEvent(AppendAll(s, runId, events[..|events| - 1], now), runId, events[|events| - 1], now).0
  }

  lemma {:induction false} AppendKeepsKeys(s: Store, runId: string, events: seq<Event>, now: int)
    requires Valid(s)
    ensures Valid(AppendAll(s, runId, events, now))
    ensures AppendAll(s, runId, events, now) == s.(events := AppendAll(s, runId, events, now).events)
  {
    if events != [] {
      AppendKeepsKeys(s, runId, events[..|events| - 1], now);
      var t := AppendAll(s, runId, events[..|events| - 1], now);
      assert AppendEvent(t, runId, events[|events| - 1], now).0.events.Keys == t.events.Keys;
    }
  }

  /** None: an exception left the call. A step found completed comes back without its flags. */
  function ExecuteNext(config: Config, s: Store, runId: string, reply: Reply, stepId: string, now: int)
    : (Store, Option<StepOutcome>)
  {
    if runId !in s.runs then (s, None)
    else
      var base := s.runs[runId].Current();
      var done := GetCompletedStep(s, runId, KeyOf(runId, base));
      if done.Some? then (s, Some(Continue(done.value.stepType, done.value.checkpoint, [])))
      else
        match Advance(config, base, reply)
        case Raised => (s, None)
        case Turned(outcome, _) =>
          var saved := SaveStep(s, StepRow(stepId, runId, base, outcome), TargetStatus(outcome), now).0;
          (AppendAll(saved, runId, outcome.events, now), Some(outcome))
  }

  /** How a watched call of `run_to_boundary` stands: still going round, returned, or left by an exception. */
  datatype Exit = Going | Returned | Raising

  function ExitAfter(outcome: Option<StepOutcome>): Exit {
    if outcome.None? then Raising else if outcome.value.Boundary() then Returned else Going
  }

  /** The loop of `run_to_boundary`, cut after n rounds. */
  function Rounds(config: Config, s: Store, runId: string, replies: Replies, stepIds: nat -> string, n: nat, now: int)
    : (r: (Store, Exit))
  {
    if n == 0 then (s, Going)
    else
      var (t, exit) := Rounds(config, s, runId, replies, stepIds, n - 1, now);
      if !exit.Going? then (t, exit)
      else
        var (u, outcome) := ExecuteNext(config, t, runId, replies(n - 1), stepIds(n - 1), now);
        (u, ExitAfter(outcome))
  }

  class RunOrchestrator {
    const store: InMemoryRunStore
    const runtime: AgentRuntime
    const workerId: string
    const leaseSeconds: int

    constructor (store: InMemoryRunStore, runtime: AgentRuntime, workerId: string, leaseSeconds: int)
      ensures this.store == store && this.runtime == runtime
      ensures this.workerId == workerId && this.leaseSeconds == leaseSeconds
    {
      this.store, this.runtime, this.workerId, this.leaseSeconds := store, runtime, workerId, leaseSeconds;
    }

    method ClaimForWork(runId: string, now: int) returns (claimed: bool)
      modifies store`runs
      ensures store.View() == ClaimRun(old(store.View()), runId, workerId, leaseSeconds, now).0
      ensures claimed == CanClaim(old(store.View()), runId, now)
    {
      var result := store.ClaimRun(runId, workerId, leaseSeconds, now);
      claimed := result.Ok? && result.value.Some?;
    }

    method ExecuteNextStep(runId: string, reply: Reply, stepId: string, now: int) returns (outcome: Option<StepOutcome>)
      requires Valid(store.View())
      modifies store, runtime
      ensures (store.View(), outcome) == ExecuteNext(runtime.config, old(store.View()), runId, reply, stepId, now)
      ensures Valid(store.View())
    {
      var found := store.GetRun(runId);
      if found.Err? {
        return None;
      }
      var checkpoint := found.value.Current();
      var key := KeyOf(runId, checkpoint);
      var completed := store.GetCompletedStep(runId, key);
      if completed.Some? {
        return Some(Continue(completed.value.stepType, completed.value.checkpoint, []));
      }
      var turn := runtime.AdvanceStep(checkpoint, reply);
      if turn.Raised? {
        return None;
      }
      SaveOutcome(runId, checkpoint, turn.outcome, stepId, now);
      return Some(turn.outcome);
    }

    /** The second half of `execute_next_step`: save, then publish the step's events one by one. */
    method SaveOutcome(runId: string, checkpoint: Checkpoint, outcome: StepOutcome, stepId: string, now: int)
      requires Valid(store.View()) && runId in store.runs
      modifies store
      ensures store.View() ==
        AppendAll(SaveStep(old(store.View()), StepRow(stepId, runId, checkpoint, outcome), TargetStatus(outcome),
                           now).0,
                  runId, outcome.events, now)
      ensures Valid(store.View())
    {
      var target := Running;
      if outcome.waitingForApproval {
        target := WaitingApproval;
      } else if outcome.completed {
        target := Completed;
      }
      var saved := store.SaveStep(StepRow(stepId, runId, checkpoint, outcome), target, now);
      assert Valid(store.View());
      PublishEvents(runId, outcome.events, now);
    }

    method PublishEvents(runId: string, events: seq<Event>, now: int)
      requires Valid(store.View()) && runId in store.runs
      modifies store
      ensures store.View() == AppendAll(old(store.View()), runId, events, now) && Valid(store.View())
    {
      ghost var s := store.View();
      for i := 0 to |events|
        invariant store.View() == AppendAll(s, runId, events[..i], now) && Valid(store.View())
      {
        AppendKeepsKeys(s, runId, events[..i + 1], now);
        assert events[..i + 1][..i] == events[..i];
        var stored := store.AppendEvent(runId, events[i], now);
      }
      assert events[..|events|] == events;
    }

    /** `run_to_boundary`, watched for at most `limit` rounds. When the store is that of a reachable state whose worker
        is idle, the whole call is told in terms of the protocol: `Drives` names no loop. */
    method RunToBoundary(runId: string, replies: Replies, stepIds: nat -> string, limit: nat, now: int,
                         ghost p: Params, ghost before: seq<Action>)
      returns (exit: Exit)
      requires Valid(store.View())
      modifies store, runtime
      ensures !CanClaim(old(store.View()), runId, now) ==> store.View() == old(store.View()) && exit.Returned?
      ensures Stands(p, before, workerId, old(store.View()), now, runtime.config)
              && CanClaim(old(store.View()), runId, now)
        ==> Drives(p, before, workerId, leaseSeconds, runId, replies, stepIds, limit, store.View(), exit)
    {
      var claimed := ClaimForWork(runId, now);
      if !claimed {
        return Returned;
      }
      ghost var s := store.View();
      exit := Going;
      var round := 0;
      while round < limit && exit.Going?
        invariant round <= limit && Valid(store.View())
        invariant (store.View(), exit) == Rounds(runtime.config, s, runId, replies, stepIds, round, now)
      {
        var outcome := ExecuteNextStep(runId, replies(round), stepIds(round), now);
        if outcome.None? {
          exit := Raising;
        } else if outcome.value.Boundary() {
          exit := Returned;
        }
        round := round + 1;
      }
      ExitStays(runtime.config, s, runId, replies, stepIds, round, limit, now);
      if Stands(p, before, workerId, old(store.View()), now, runtime.config) {
        RoundsDrive(p, before, workerId, leaseSeconds, runId, replies, stepIds, limit);
      }
    }
  }

  lemma {:induction false} ExitStays(
    config: Config, s: Store, runId: string, replies: Replies, stepIds: nat -> string, n: nat, k: nat, now: int)
    requires n <= k && (n == k || !Rounds(config, s, runId, replies, stepIds, n, now).1.Going?)
    ensures Rounds(config, s, runId, replies, stepIds, k, now) == Rounds(config, s, runId, replies, stepIds, n, now)
    decreases k
  {
    if n < k {
      ExitStays(config, s, runId, replies, stepIds, n, k - 1, now);
    }
  }

  // ---- The call is a sequence of protocol actions ----

  function CallActions(w: string, runId: string, reply: Reply, stepId: string): seq<Action> {
    [Load(w, runId), Check(w), Compute(w, reply), Save(w, stepId), Publish(w), Publish(w), Publish(w)]
  }

  function PerformAll(p: Params, s: System, actions: seq<Action>): System {
    if actions == [] then s
    else Perform(p, PerformAll(p, s, actions[..|actions| - 1]), actions[|actions| - 1])
  }

  lemma {:induction false} RunThenPerform(p: Params, before: seq<Action>, actions: seq<Action>)
    ensures Run(p, before + actions) == PerformAll(p, Run(p, before), actions)
  {
    if actions == [] {
      assert before + actions == before;
    } else {
      var init, last := actions[..|actions| - 1], actions[|actions| - 1];
      RunThenPerform(p, before, init);
      SplitLast(before, actions);
      RunExtended(p, before + init, last, before + actions);
    }
  }

  lemma SevenActions(p: Params, s: System, a: seq<Action>)
    requires |a| == 7
    ensures PerformAll(p, s, a) == PerformAll(p, Perform(p, Perform(p, Perform(p, Perform(p, s, a[0]), a[1]), a[2]),
                                                         a[3]), a[4..])
  {
    PerformSplit(p, s, a[..4], a[4..]);
    assert a[..4] + a[4..] == a;
    FourActions(p, s, a[..4]);
  }

  lemma FourActions(p: Params, s: System, a: seq<Action>)
    requires |a| == 4
    ensures PerformAll(p, s, a) == Perform(p, Perform(p, Perform(p, Perform(p, s, a[0]), a[1]), a[2]), a[3])
  {
    assert a[..3][..2] == a[..2] && a[..2][..1] == a[..1] && a[..1][..0] == [];
    assert PerformAll(p, s, a[..1]) == Perform(p, s, a[0]);
    assert PerformAll(p, s, a[..2]) == Perform(p, PerformAll(p, s, a[..1]), a[1]);
    assert PerformAll(p, s, a[..3]) == Perform(p, PerformAll(p, s, a[..2]), a[2]);
  }

  lemma {:induction false} PerformSplit(p: Params, s: System, a: seq<Action>, b: seq<Action>)
    ensures PerformAll(p, s, a + b) == PerformAll(p, PerformAll(p, s, a), b)
  {
    if b == [] {
      assert a + b == a;
    } else {
      var init, last := b[..|b| - 1], b[|b| - 1];
      PerformSplit(p, s, a, init);
      SplitLast(a, b);
      PerformExtended(p, s, a + init, last, a + b);
    }
  }

  lemma PerformExtended(p: Params, s: System, init: seq<Action>, last: Action, whole: seq<Action>)
    requires whole == init + [last]
    ensures PerformAll(p, s, whole) == Perform(p, PerformAll(p, s, init), last)
  {
    assert whole[..|whole| - 1] == init;
  }

  lemma AppendFirst(s: Store, runId: string, events: seq<Event>, now: int)
    requires |events| <= 2
    ensures AppendAll(s, runId, events, now) == (
      if |events| == 0 then s
      else if |events| == 1 then AppendEvent(s, runId, events[0], now).0
      else AppendEvent(AppendEvent(s, runId, events[0], now).0, runId, events[1], now).0)
  {
    if |events| > 0 {
      assert events[..1][..0] == [];
      assert AppendAll(s, runId, events[..1], now) == AppendEvent(s, runId, events[0], now).0;
      if |events| == 1 {
        assert events[..1] == events;
      }
    }
  }

  /** Three turns of publishing append the events of any step and take the worker out of the call. */
  lemma PublishesAll(p: Params, s: System, w: string, id: string, events: seq<Event>)
    requires w in s.workers && s.workers[w] == Publishing(id, events) && |events| <= 2
    ensures PerformAll(p, s, [Publish(w), Publish(w), Publish(w)]) ==
      s.(store := AppendAll(s.store, id, events, s.now), workers := s.workers - {w})
  {
    var a := [Publish(w), Publish(w), Publish(w)];
    assert a[..2][..1] == a[..1] && a[..1][..0] == [];
    assert PerformAll(p, s, a[..1]) == DoPublish(s, w);
    assert PerformAll(p, s, a[..2]) == DoPublish(DoPublish(s, w), w);
    AppendFirst(s.store, id, events, s.now);
    if |events| == 2 {
      assert events[1..][1..] == [];
    }
  }

  lemma FewEvents(config: Config, cp: Checkpoint, reply: Reply)
    requires Advance(config, cp, reply).Turned?
    ensures |Advance(config, cp, reply).outcome.events| <= 2
  {
    if cp.pendingAction.Tool? {
      ToolReports(config, cp, reply.tool);
    }
  }

  /** The seven actions of an undisturbed call whose key is new. */
  lemma CallState(p: Params, s: System, w: string, id: string, reply: Reply, stepId: string)
    requires Valid(s.store)
    requires w !in s.workers && id in s.store.runs && (id, KeyOf(id, s.store.runs[id].Current())) !in s.store.steps
    requires Advance(p.config, s.store.runs[id].Current(), reply).Turned?
    ensures var base := s.store.runs[id].Current(); var outcome := Advance(p.config, base, reply).outcome;
      var saved := SaveStep(s.store, StepRow(stepId, id, base, outcome), TargetStatus(outcome), s.now).0;
      PerformAll(p, s, CallActions(w, id, reply, stepId)) ==
        s.(store := AppendAll(saved, id, outcome.events, s.now),
           history := s.history + [Fact(id, Committed(Commit(base, reply, outcome)))])
  {
    var base := s.store.runs[id].Current();
    var outcome := Advance(p.config, base, reply).outcome;
    var a := CallActions(w, id, reply, stepId);
    SevenActions(p, s, a);
    FewEvents(p.config, base, reply);
    SavedState(p, s, w, id, reply, stepId);
    var u := DoSave(s.(workers := s.workers[w := Computed(id, base, reply, outcome)]), w, stepId);
    assert u.workers - {w} == s.workers;
    PublishesAll(p, u, w, id, outcome.events);
    assert a[4..] == [Publish(w), Publish(w), Publish(w)];
  }

  /** Undisturbed, a call leaves the store as `ExecuteNext` says, and commits one step unless the run has stopped. */
  lemma CallCommits(p: Params, s: System, w: string, id: string, reply: Reply, stepId: string)
    requires Sound(p, s) && w !in s.workers && id in s.store.runs && !Stopped(Commits(s.history, id))
    requires Advance(p.config, s.store.runs[id].Current(), reply).Turned?
    ensures var t := PerformAll(p, s, CallActions(w, id, reply, stepId));
      var base := s.store.runs[id].Current(); var outcome := Advance(p.config, base, reply).outcome;
      && t.store == ExecuteNext(p.config, s.store, id, reply, stepId, s.now).0
      && w !in t.workers && id in t.store.runs
      && t.store.runs[id].status == TargetStatus(outcome)
      && Commits(t.history, id) == Commits(s.history, id) + [Commit(base, reply, outcome)]
  {
    var base := s.store.runs[id].Current();
    var outcome := Advance(p.config, base, reply).outcome;
    KeyTakenIffStopped(p.config, s, id);
    CallState(p, s, w, id, reply, stepId);
    CommitsGrow(s.history, Fact(id, Committed(Commit(base, reply, outcome))), id);
    SavedRun(s.store, id, base, outcome, stepId, s.now);
  }

  lemma SavedRun(s: Store, id: string, base: Checkpoint, outcome: StepOutcome, stepId: string, now: int)
    requires id in s.runs && (id, KeyOf(id, base)) !in s.steps
    ensures var saved := SaveStep(s, StepRow(stepId, id, base, outcome), TargetStatus(outcome), now).0;
      var t := AppendAll(saved, id, outcome.events, now);
      id in t.runs && t.runs[id].status == TargetStatus(outcome)
  {
    AppendKeepsRuns(SaveStep(s, StepRow(stepId, id, base, outcome), TargetStatus(outcome), now).0, id, outcome.events,
                    now);
  }

  lemma SavedState(p: Params, s: System, w: string, id: string, reply: Reply, stepId: string)
    requires w !in s.workers && id in s.store.runs && (id, KeyOf(id, s.store.runs[id].Current())) !in s.store.steps
    requires Advance(p.config, s.store.runs[id].Current(), reply).Turned?
    ensures var base := s.store.runs[id].Current(); var outcome := Advance(p.config, base, reply).outcome;
      Perform(p, Perform(p, Perform(p, Perform(p, s, Load(w, id)), Check(w)), Compute(w, reply)), Save(w, stepId)) ==
      DoSave(s.(workers := s.workers[w := Computed(id, base, reply, outcome)]), w, stepId)
  {
    var base := s.store.runs[id].Current();
    assert DoCheck(DoLoad(s, w, id), w).workers == s.workers[w := Missing(id, base)];
    var u := s.(workers := s.workers[w := Missing(id, base)]);
    assert DoCompute(p, u, w, reply).workers ==
      s.workers[w := Computed(id, base, reply, Advance(p.config, base, reply).outcome)];
  }

  lemma {:induction false} AppendKeepsRuns(s: Store, id: string, events: seq<Event>, now: int)
    ensures AppendAll(s, id, events, now).runs == s.runs
  {
    if events != [] {
      AppendKeepsRuns(s, id, events[..|events| - 1], now);
    }
  }

  // ---- A lone worker reaches a boundary ----

  function Calls(w: string, id: string, replies: Replies, stepIds: nat -> string, n: nat): seq<Action> {
    if n == 0 then [] else Calls(w, id, replies, stepIds, n - 1) + CallActions(w, id, replies(n - 1), stepIds(n - 1))
  }

  /** No oracle raises. */
  ghost predicate Responsive(replies: Replies) {
    forall i: nat :: replies(i).plan.Some? && replies(i).answer.Some?
  }

  ghost predicate AtBoundary(s: System, id: string) {
    && id in s.store.runs && Stopped(Commits(s.history, id))
    && (s.store.runs[id].status.WaitingApproval? || s.store.runs[id].status.Completed?)
  }

  /** One more call: a step further, or nothing at all on a stopped run. */
  lemma CallAdvances(p: Params, s: System, w: string, id: string, reply: Reply, stepId: string)
    requires Sound(p, s) && w !in s.workers && id in s.store.runs && reply.plan.Some? && reply.answer.Some?
    requires AtBoundary(s, id) || !Stopped(Commits(s.history, id))
    ensures var t := PerformAll(p, s, CallActions(w, id, reply, stepId));
      && w !in t.workers && id in t.store.runs
      && (AtBoundary(s, id) ==> t == s)
      && (!AtBoundary(s, id) ==> |Commits(t.history, id)| == |Commits(s.history, id)| + 1)
      && (AtBoundary(t, id) || !Stopped(Commits(t.history, id)))
  {
    if AtBoundary(s, id) {
      SpinsWholeCall(p, s, w, id, reply, stepId);
    } else {
      assert Advance(p.config, s.store.runs[id].Current(), reply).Turned?;
      CallCommits(p, s, w, id, reply, stepId);
    }
  }

  lemma SpinsWholeCall(p: Params, s: System, w: string, id: string, reply: Reply, stepId: string)
    requires Sound(p, s) && w !in s.workers && id in s.store.runs && Stopped(Commits(s.history, id))
    ensures PerformAll(p, s, CallActions(w, id, reply, stepId)) == s
  {
    KeyTakenIffStopped(p.config, s, id);
    StepsAreCompleted(p.config, s, id);
    FindsItDone(p, s, w, id, reply, stepId);
  }

  lemma FindsItDone(p: Params, s: System, w: string, id: string, reply: Reply, stepId: string)
    requires w !in s.workers && id in s.store.runs
    requires GetCompletedStep(s.store, id, KeyOf(id, s.store.runs[id].Current())).Some?
    ensures PerformAll(p, s, CallActions(w, id, reply, stepId)) == s
  {
    var a := CallActions(w, id, reply, stepId);
    SevenActions(p, s, a);
    FoundDone(p, s, w, id);
    assert a[4..] == [Publish(w), Publish(w), Publish(w)];
    IdlePublishes(p, s, w, a[4..]);
  }

  lemma FoundDone(p: Params, s: System, w: string, id: string)
    requires w !in s.workers && id in s.store.runs
    requires GetCompletedStep(s.store, id, KeyOf(id, s.store.runs[id].Current())).Some?
    ensures Perform(p, Perform(p, s, Load(w, id)), Check(w)) == s
  {
    assert DoLoad(s, w, id).workers - {w} == s.workers;
  }

  lemma {:induction false} IdlePublishes(p: Params, s: System, w: string, actions: seq<Action>)
    requires w !in s.workers && forall i :: 0 <= i < |actions| ==> actions[i] == Publish(w)
    ensures PerformAll(p, s, actions) == s
  {
    if actions != [] {
      IdlePublishes(p, s, w, actions[..|actions| - 1]);
    }
  }

  /** The run has stopped at a boundary, or at least n steps are committed and it has not stopped. */
  ghost predicate Advanced(s: System, w: string, id: string, n: nat) {
    && w !in s.workers && id in s.store.runs
    && (AtBoundary(s, id) || (!Stopped(Commits(s.history, id)) && |Commits(s.history, id)| >= n))
  }

  lemma AdvancedStep(p: Params, s: System, w: string, id: string, reply: Reply, stepId: string, n: nat)
    requires Sound(p, s) && Advanced(s, w, id, n) && reply.plan.Some? && reply.answer.Some?
    ensures Advanced(PerformAll(p, s, CallActions(w, id, reply, stepId)), w, id, n + 1)
  {
    CallAdvances(p, s, w, id, reply, stepId);
  }

  lemma OneMoreCall(p: Params, done: seq<Action>, w: string, id: string, reply: Reply, stepId: string, n: nat)
    requires Advanced(Run(p, done), w, id, n) && reply.plan.Some? && reply.answer.Some?
    ensures Advanced(Run(p, done + CallActions(w, id, reply, stepId)), w, id, n + 1)
  {
    Always(p, done);
    AdvancedStep(p, Run(p, done), w, id, reply, stepId, n);
    RunThenPerform(p, done, CallActions(w, id, reply, stepId));
  }

  lemma CallsMore(before: seq<Action>, w: string, id: string, replies: Replies, stepIds: nat -> string, n: nat)
    requires n > 0
    ensures before + Calls(w, id, replies, stepIds, n)
         == before + Calls(w, id, replies, stepIds, n - 1) + CallActions(w, id, replies(n - 1), stepIds(n - 1))
  {
  }

  lemma {:induction false} CallsAdvance(p: Params, before: seq<Action>, w: string, id: string, replies: Replies,
                                        stepIds: nat -> string, n: nat)
    requires Advanced(Run(p, before), w, id, 0) && Responsive(replies)
    ensures Advanced(Run(p, before + Calls(w, id, replies, stepIds, n)), w, id, n)
  {
    if n == 0 {
      assert before + Calls(w, id, replies, stepIds, 0) == before;
    } else {
      CallsAdvance(p, before, w, id, replies, stepIds, n - 1);
      var done, reply := before + Calls(w, id, replies, stepIds, n - 1), replies(n - 1);
      OneMoreCall(p, done, w, id, reply, stepIds(n - 1), n - 1);
      CallsMore(before, w, id, replies, stepIds, n);
    }
  }

  /** From any reachable state a worker left alone, whose oracles do not raise, brings a run that has not
      stopped to WAITING_APPROVAL or COMPLETED within 2m+1 calls. */
  lemma LoneWorkerReachesBoundary(p: Params, before: seq<Action>, w: string, id: string, replies: Replies,
                                  stepIds: nat -> string)
    requires var s := Run(p, before); w !in s.workers && id in s.store.runs && !Stopped(Commits(s.history, id))
    requires Responsive(replies)
    ensures AtBoundary(Run(p, before + Calls(w, id, replies, stepIds, 2 * p.config.StepLimit() + 1)), id)
  {
    var n := 2 * p.config.StepLimit() + 1;
    CallsAdvance(p, before, w, id, replies, stepIds, n);
    var actions := before + Calls(w, id, replies, stepIds, n);
    var t := Run(p, actions);
    if !AtBoundary(t, id) {
      NotStoppedIsShort(p, actions, id);
      assert false;
    }
  }

  // ---- run_to_boundary, as the protocol sees it ----

  /** The store and the clock are those of this reachable state, and the worker is idle there. */
  ghost predicate Stands(p: Params, before: seq<Action>, w: string, store: Store, now: int, config: Config) {
    var s := Run(p, before);
    store == s.store && now == s.now && config == p.config && w !in s.workers
  }

  /** The state after the claim and n undisturbed calls of `execute_next_step`. */
  function AfterCalls(p: Params, before: seq<Action>, w: string, lease: int, id: string, replies: Replies,
                      stepIds: nat -> string, n: nat): System
  {
    Run(p, before + [Claim(id, w, lease)] + Calls(w, id, replies, stepIds, n))
  }

  ghost predicate StoppedAt(s: System, id: string) { Stopped(Commits(s.history, id)) }

  /** After k calls the run has not stopped. */
  ghost predicate GoesOnAt(p: Params, before: seq<Action>, w: string, lease: int, id: string, replies: Replies,
                           stepIds: nat -> string, k: nat)
  {
    !StoppedAt(AfterCalls(p, before, w, lease, id, replies, stepIds, k), id)
  }

  /** The first n calls commit a step each, and none but the last of them waits or completes. */
  ghost predicate StepByStep(p: Params, before: seq<Action>, w: string, lease: int, id: string, replies: Replies,
                             stepIds: nat -> string, n: nat)
  {
    && (forall k: nat :: k < n ==> GoesOnAt(p, before, w, lease, id, replies, stepIds, k))
    && |Commits(AfterCalls(p, before, w, lease, id, replies, stepIds, n).history, id)| ==
       |Commits(Run(p, before).history, id)| + n
  }

  /** The call has made n calls of `execute_next_step` that left no exception. It has returned exactly when the last of
      them committed a step that waits or completes; it goes on only because it is watched no longer; and it was left by
      an exception only because the next call raised. */
  ghost predicate DrivesFor(p: Params, before: seq<Action>, w: string, lease: int, id: string, replies: Replies,
                            stepIds: nat -> string, limit: nat, store: Store, exit: Exit, n: nat)
  {
    var t := AfterCalls(p, before, w, lease, id, replies, stepIds, n);
    && n <= limit && store == t.store && id in store.runs && StepByStep(p, before, w, lease, id, replies, stepIds, n)
    && (exit.Returned? <==> StoppedAt(t, id)) && (exit.Returned? ==> n > 0 && AtBoundary(t, id))
    && (exit.Going? ==> n == limit)
    && (exit.Raising? ==> n < limit && Advance(p.config, store.runs[id].Current(), replies(n)).Raised?)
  }

  /** What a call of `run_to_boundary` that gets its claim does in a reachable state: on a stopped run nothing but the
      claim, and it does not return; on any other the claim and then calls of `execute_next_step`. */
  ghost predicate Drives(p: Params, before: seq<Action>, w: string, lease: int, id: string, replies: Replies,
                         stepIds: nat -> string, limit: nat, store: Store, exit: Exit)
  {
    if StoppedAt(Run(p, before), id) then exit.Going? && store == Run(p, before + [Claim(id, w, lease)]).store
    else exists n: nat :: DrivesFor(p, before, w, lease, id, replies, stepIds, limit, store, exit, n)
  }

  /** What one undisturbed call does to a run that has not stopped. */
  ghost predicate Called(p: Params, s: System, t: System, w: string, id: string, reply: Reply, after: Store,
                         outcome: Option<StepOutcome>)
    requires id in s.store.runs
  {
    if Advance(p.config, s.store.runs[id].Current(), reply).Raised? then after == s.store && outcome == None
    else
      && after == t.store && outcome.Some? && t.now == s.now && w !in t.workers && id in t.store.runs
      && |Commits(t.history, id)| == |Commits(s.history, id)| + 1
      && (outcome.value.Boundary() <==> StoppedAt(t, id)) && (StoppedAt(t, id) ==> AtBoundary(t, id))
  }

  lemma CallIsMade(p: Params, s: System, w: string, id: string, reply: Reply, stepId: string)
    requires Sound(p, s) && w !in s.workers && id in s.store.runs && !StoppedAt(s, id)
    ensures var t := PerformAll(p, s, CallActions(w, id, reply, stepId));
      var (after, outcome) := ExecuteNext(p.config, s.store, id, reply, stepId, s.now);
      Called(p, s, t, w, id, reply, after, outcome)
  {
    KeyTakenIffStopped(p.config, s, id);
    if Advance(p.config, s.store.runs[id].Current(), reply).Turned? {
      CallCommits(p, s, w, id, reply, stepId);
      CallState(p, s, w, id, reply, stepId);
    }
  }

  lemma NextCall(p: Params, done: seq<Action>, more: seq<Action>, w: string, id: string, reply: Reply, stepId: string)
    requires var s := Run(p, done); w !in s.workers && id in s.store.runs && !StoppedAt(s, id)
    requires more == done + CallActions(w, id, reply, stepId)
    ensures var s := Run(p, done);
      var (after, outcome) := ExecuteNext(p.config, s.store, id, reply, stepId, s.now);
      Called(p, s, Run(p, more), w, id, reply, after, outcome)
  {
    Always(p, done);
    CallIsMade(p, Run(p, done), w, id, reply, stepId);
    RunThenPerform(p, done, CallActions(w, id, reply, stepId));
  }

  /** After n rounds that all went on, the run has not stopped, and store and clock are those of the protocol. */
  ghost predicate GoingOn(p: Params, before: seq<Action>, w: string, lease: int, id: string, replies: Replies,
                          stepIds: nat -> string, n: nat, t: System, now: int, store: Store)
  {
    && t == AfterCalls(p, before, w, lease, id, replies, stepIds, n)
    && store == t.store && t.now == now && w !in t.workers && id in t.store.runs && !StoppedAt(t, id)
    && StepByStep(p, before, w, lease, id, replies, stepIds, n)
  }

  lemma ClaimedState(p: Params, before: seq<Action>, w: string, lease: int, id: string, replies: Replies,
                     stepIds: nat -> string, none: seq<Action>)
    requires none == [] && CanClaim(Run(p, before).store, id, Run(p, before).now)
    ensures var s, t := Run(p, before), Run(p, before + [Claim(id, w, lease)]);
      && t == AfterCalls(p, before, w, lease, id, replies, stepIds, 0)
      && t.store == ClaimRun(s.store, id, w, lease, s.now).0 && t.now == s.now && t.workers == s.workers
      && id in t.store.runs && Commits(t.history, id) == Commits(s.history, id)
  {
    var s := Run(p, before);
    RunOneMore(p, before, Claim(id, w, lease));
    assert before + [Claim(id, w, lease)] + none == before + [Claim(id, w, lease)];
    CommitsGrow(s.history, Fact(id, ClaimedRun), id);
  }

  lemma NextRound(p: Params, before: seq<Action>, w: string, lease: int, id: string, replies: Replies,
                  stepIds: nat -> string, n: nat, t: System, now: int, store: Store, after: Store,
                  outcome: Option<StepOutcome>, u: System)
    requires GoingOn(p, before, w, lease, id, replies, stepIds, n, t, now, store)
    requires (after, outcome) == ExecuteNext(p.config, store, id, replies(n), stepIds(n), now)
    requires u == AfterCalls(p, before, w, lease, id, replies, stepIds, n + 1)
    ensures Called(p, t, u, w, id, replies(n), after, outcome)
    ensures outcome.Some? ==> StepByStep(p, before, w, lease, id, replies, stepIds, n + 1)
  {
    var start := before + [Claim(id, w, lease)];
    CallsMore(start, w, id, replies, stepIds, n + 1);
    NextCall(p, start + Calls(w, id, replies, stepIds, n), start + Calls(w, id, replies, stepIds, n + 1), w, id,
             replies(n), stepIds(n));
    if outcome.Some? {
      OneMoreStep(p, before, w, lease, id, replies, stepIds, n, t, u);
    }
  }

  lemma OneMoreStep(p: Params, before: seq<Action>, w: string, lease: int, id: string, replies: Replies,
                    stepIds: nat -> string, n: nat, t: System, u: System)
    requires StepByStep(p, before, w, lease, id, replies, stepIds, n) && !StoppedAt(t, id)
    requires t == AfterCalls(p, before, w, lease, id, replies, stepIds, n)
    requires u == AfterCalls(p, before, w, lease, id, replies, stepIds, n + 1)
    requires |Commits(u.history, id)| == |Commits(t.history, id)| + 1
    ensures StepByStep(p, before, w, lease, id, replies, stepIds, n + 1)
  {
    assert GoesOnAt(p, before, w, lease, id, replies, stepIds, n);
  }

  lemma {:induction false} RoundsFollow(p: Params, before: seq<Action>, w: string, lease: int, id: string,
                                        replies: Replies, stepIds: nat -> string, limit: nat, s: Store, now: int)
    returns (n: nat)
    requires CanClaim(Run(p, before).store, id, Run(p, before).now) && w !in Run(p, before).workers
    requires !StoppedAt(Run(p, before), id)
    requires s == Run(p, before + [Claim(id, w, lease)]).store && now == Run(p, before).now
    ensures var (store, exit) := Rounds(p.config, s, id, replies, stepIds, limit, now);
      && DrivesFor(p, before, w, lease, id, replies, stepIds, limit, store, exit, n)
      && var t := AfterCalls(p, before, w, lease, id, replies, stepIds, n);
         exit.Going? ==> GoingOn(p, before, w, lease, id, replies, stepIds, n, t, now, store)
  {
    if limit == 0 {
      ClaimedState(p, before, w, lease, id, replies, stepIds, []);
      n := 0;
    } else {
      n := RoundsFollow(p, before, w, lease, id, replies, stepIds, limit - 1, s, now);
      var (store, exit) := Rounds(p.config, s, id, replies, stepIds, limit - 1, now);
      if exit.Going? {
        var t, u := AfterCalls(p, before, w, lease, id, replies, stepIds, n),
                    AfterCalls(p, before, w, lease, id, replies, stepIds, limit);
        var (after, outcome) := ExecuteNext(p.config, store, id, replies(n), stepIds(n), now);
        NextRound(p, before, w, lease, id, replies, stepIds, n, t, now, store, after, outcome, u);
        if outcome.Some? {
          n := limit;
        }
      }
    }
  }

  lemma {:induction false} SpinningRounds(config: Config, s: Store, id: string, replies: Replies,
                                          stepIds: nat -> string,
                                          n: nat, now: int)
    requires id in s.runs && GetCompletedStep(s, id, KeyOf(id, s.runs[id].Current())).Some?
    ensures Rounds(config, s, id, replies, stepIds, n, now) == (s, Going)
  {
    if n > 0 {
      SpinningRounds(config, s, id, replies, stepIds, n - 1, now);
    }
  }

  lemma RoundsDrive(p: Params, before: seq<Action>, w: string, lease: int, id: string, replies: Replies,
                    stepIds: nat -> string, limit: nat)
    requires var s := Run(p, before); CanClaim(s.store, id, s.now) && w !in s.workers
    ensures var s := Run(p, before);
      var (store, exit) :=
        Rounds(p.config, ClaimRun(s.store, id, w, lease, s.now).0, id, replies, stepIds, limit, s.now);
      Drives(p, before, w, lease, id, replies, stepIds, limit, store, exit)
  {
    var s, t := Run(p, before), Run(p, before + [Claim(id, w, lease)]);
    ClaimedState(p, before, w, lease, id, replies, stepIds, []);
    if StoppedAt(s, id) {
      Always(p, before + [Claim(id, w, lease)]);
      KeyTakenIffStopped(p.config, t, id);
      StepsAreCompleted(p.config, t, id);
      SpinningRounds(p.config, t.store, id, replies, stepIds, limit, s.now);
    } else {
      var n := RoundsFollow(p, before, w, lease, id, replies, stepIds, limit, t.store, s.now);
    }
  }

  /** Watched for 2m+1 rounds or more, with oracles that do not raise, a call that gets its claim returns, and leaves a
      run that had not stopped WAITING_APPROVAL or COMPLETED. */
  lemma DrivenToBoundary(p: Params, before: seq<Action>, w: string, lease: int, id: string, replies: Replies,
                         stepIds: nat -> string, limit: nat, store: Store, exit: Exit)
    requires Drives(p, before, w, lease, id, replies, stepIds, limit, store, exit) && !StoppedAt(Run(p, before), id)
    requires Responsive(replies) && limit >= 2 * p.config.StepLimit() + 1
    ensures exit.Returned? && id in store.runs
    ensures store.runs[id].status.WaitingApproval? || store.runs[id].status.Completed?
  {
    var n: nat :| DrivesFor(p, before, w, lease, id, replies, stepIds, limit, store, exit, n);
    DrivesToBoundary(p, before, w, lease, id, replies, stepIds, limit, store, exit, n,
                     before + [Claim(id, w, lease)] + Calls(w, id, replies, stepIds, n));
  }

  lemma DrivesToBoundary(p: Params, before: seq<Action>, w: string, lease: int, id: string, replies: Replies,
                         stepIds: nat -> string, limit: nat, store: Store, exit: Exit, n: nat, actions: seq<Action>)
    requires DrivesFor(p, before, w, lease, id, replies, stepIds, limit, store, exit, n)
    requires actions == before + [Claim(id, w, lease)] + Calls(w, id, replies, stepIds, n)
    requires Responsive(replies) && limit >= 2 * p.config.StepLimit() + 1
    ensures exit.Returned? && AtBoundary(Run(p, actions), id) && store == Run(p, actions).store
  {
    assert Run(p, actions) == AfterCalls(p, before, w, lease, id, replies, stepIds, n);
    assert Advance(p.config, store.runs[id].Current(), replies(n)).Turned?;
    if exit.Going? {
      NotStoppedIsShort(p, actions, id);
      assert false;
    }
  }

  lemma NotStoppedIsShort(p: Params, actions: seq<Action>, id: string)
    requires id in Run(p, actions).store.runs && !StoppedAt(Run(p, actions), id)
    ensures |Commits(Run(p, actions).history, id)| <= 2 * p.config.StepLimit()
  {
    DurableRunIsSequential(p, actions, id);
    var t := Run(p, actions);
    var cs := Commits(t.history, id);
    StillRunning(p.config, StartOf(t.store.runs[id]), RepliesOf(cs), |cs|);
  }
}
