/** The approval gate of durable runs: a worker computes from checkpoints that hold no decision, so no worker, stale or
    losing ones included, ever hands a call that needs approval to the executor. */
module DurableApproval {
  import opened Common
  import opened Execution
  import opened StepMachine
  import opened RunRecords
  import opened StoreSpec
  import opened RunQueue
  import opened Protocol

  predicate UndecidedRun(run: StoredRun) { run.Current().approvalDecision.None? }

  predicate UndecidedPc(pc: Pc) {
    && (!pc.Publishing? ==> pc.base.approvalDecision.None?)
    && (pc.Computed? ==> pc.outcome.checkpoint.approvalDecision.None?)
  }

  ghost predicate Undecided(s: System) {
    && (forall id {:trigger UndecidedRun(s.store.runs[id])} :: id in s.store.runs ==> UndecidedRun(s.store.runs[id]))
    && forall w {:trigger UndecidedPc(s.workers[w])} :: w in s.workers ==> UndecidedPc(s.workers[w])
  }

  /** A step makes no decision of its own. */
  lemma AdvanceKeepsUndecided(config: Config, cp: Checkpoint, reply: Reply)
    requires cp.approvalDecision.None? && Advance(config, cp, reply).Turned?
    ensures Advance(config, cp, reply).outcome.checkpoint.approvalDecision.None?
  {
  }

  /** What it hands to the executor is the pending call, and needs no approval. */
  lemma UndecidedExecutesFreely(config: Config, cp: Checkpoint, reply: Reply, call: ToolCall)
    requires cp.approvalDecision.None? && Advance(config, cp, reply).Turned?
             && call in Advance(config, cp, reply).executed
    ensures cp.pendingToolName == Some(call.name) && cp.pendingToolArguments == call.arguments
    ensures call.name in config.registry && !config.NeedsApproval(call.name)
  {
  }

  predicate SameDecision(before: StoredRun, after: StoredRun) {
    after.Current().approvalDecision == before.Current().approvalDecision
  }

  /** Every run was there before with the same decision, or is new. */
  ghost predicate RunsKept(s: System, t: System) {
    forall id {:trigger t.store.runs[id]} :: id in t.store.runs ==>
      if id in s.store.runs then SameDecision(s.store.runs[id], t.store.runs[id]) else UndecidedRun(t.store.runs[id])
  }

  lemma KeptStayUndecided(s: System, t: System)
    requires Undecided(s) && RunsKept(s, t)
    requires forall w {:trigger t.workers[w]} :: w in t.workers ==> w in s.workers && t.workers[w] == s.workers[w]
    ensures Undecided(t)
  {
    forall id | id in t.store.runs ensures UndecidedRun(t.store.runs[id]) {
      if id in s.store.runs {
        assert UndecidedRun(s.store.runs[id]) && SameDecision(s.store.runs[id], t.store.runs[id]);
      }
    }
    forall w | w in t.workers ensures UndecidedPc(t.workers[w]) {
      assert UndecidedPc(s.workers[w]);
    }
  }

  lemma {:induction false} RecoveryKeepsDecisions(kind: Recovery, s: System, ids: seq<string>)
    ensures var t := RecoverEach(kind, s, ids);
      && t.workers == s.workers && t.store.runs.Keys == s.store.runs.Keys
      && forall id {:trigger t.store.runs[id]} :: id in t.store.runs ==>
           SameDecision(s.store.runs[id], t.store.runs[id])
  {
    if ids != [] {
      RecoveryKeepsDecisions(kind, s, ids[..|ids| - 1]);
    }
  }

  lemma LeaseKeepsDecisions(p: Params, s: System, a: Action)
    requires a.Create? || a.Claim? || a.Renew? || a.Release?
    ensures RunsKept(s, Perform(p, s, a)) && Perform(p, s, a).workers == s.workers
  {
  }

  lemma ClientKeepsDecisions(p: Params, s: System, a: Action)
    requires a.OpenApproval? || a.Decide? || a.Cancel? || a.Retry?
    ensures RunsKept(s, Perform(p, s, a)) && Perform(p, s, a).workers == s.workers
  {
  }

  lemma OthersKeepDecisions(p: Params, s: System, a: Action)
    requires !a.OnRuns() && !a.OfWorker()
    ensures RunsKept(s, Perform(p, s, a)) && Perform(p, s, a).workers == s.workers
  {
  }

  lemma SaveKeepsUndecided(s: System, w: string, stepId: string)
    requires Undecided(s)
    ensures Undecided(DoSave(s, w, stepId))
  {
    var t := DoSave(s, w, stepId);
    if w in s.workers && s.workers[w].Computed? {
      assert UndecidedPc(s.workers[w]);
      forall id | id in t.store.runs ensures UndecidedRun(t.store.runs[id]) {
        assert UndecidedRun(s.store.runs[id]);
      }
      forall v | v in t.workers ensures UndecidedPc(t.workers[v]) {
        assert v != w ==> UndecidedPc(s.workers[v]);
      }
    }
  }

  lemma OneWorkerMoves(s: System, t: System, w: string)
    requires Undecided(s) && t.store.runs == s.store.runs
    requires forall v {:trigger t.workers[v]} :: v in t.workers && v != w ==>
               v in s.workers && t.workers[v] == s.workers[v]
    requires w in t.workers ==> UndecidedPc(t.workers[w])
    ensures Undecided(t)
  {
    forall v | v in t.workers ensures UndecidedPc(t.workers[v]) {
      assert v != w ==> UndecidedPc(s.workers[v]);
    }
    forall id | id in t.store.runs ensures UndecidedRun(t.store.runs[id]) {
      assert UndecidedRun(s.store.runs[id]);
    }
  }

  lemma ComputeKeepsUndecided(p: Params, s: System, w: string, reply: Reply)
    requires Undecided(s)
    ensures Undecided(DoCompute(p, s, w, reply))
  {
    if w in s.workers && s.workers[w].Missing? {
      var base := s.workers[w].base;
      assert UndecidedPc(s.workers[w]);
      if Advance(p.config, base, reply).Turned? {
        AdvanceKeepsUndecided(p.config, base, reply);
      }
      OneWorkerMoves(s, DoCompute(p, s, w, reply), w);
    }
  }

  lemma ReadKeepsUndecided(p: Params, s: System, a: Action)
    requires Undecided(s) && (a.Load? || a.Check? || a.Publish? || a.Crash?)
    ensures Undecided(Perform(p, s, a))
  {
    var t := Perform(p, s, a);
    if a.worker in s.workers {
      assert UndecidedPc(s.workers[a.worker]);
    }
    if a.Load? && a.runId in s.store.runs {
      assert UndecidedRun(s.store.runs[a.runId]);
    }
    OneWorkerMoves(s, t, a.worker);
  }

  lemma UndecidedStep(p: Params, s: System, a: Action)
    requires Undecided(s)
    ensures Undecided(Perform(p, s, a))
  {
    if a.RecoverBatch? {
      RecoveryKeepsDecisions(a.kind, s, Candidates(a.kind, s.store, a.limit, s.now));
      KeptStayUndecided(s, Perform(p, s, a));
    } else if a.Create? || a.Claim? || a.Renew? || a.Release? {
      LeaseKeepsDecisions(p, s, a);
      KeptStayUndecided(s, Perform(p, s, a));
    } else if a.OnRuns() {
      ClientKeepsDecisions(p, s, a);
      KeptStayUndecided(s, Perform(p, s, a));
    } else if a.Save? {
      SaveKeepsUndecided(s, a.worker, a.stepId);
    } else if a.Compute? {
      ComputeKeepsUndecided(p, s, a.worker, a.reply);
    } else if a.OfWorker() {
      ReadKeepsUndecided(p, s, a);
    } else {
      OthersKeepDecisions(p, s, a);
      KeptStayUndecided(s, Perform(p, s, a));
    }
  }

  lemma {:induction false} AlwaysUndecided(p: Params, actions: seq<Action>)
    ensures Undecided(Run(p, actions))
  {
    if actions != [] {
      AlwaysUndecided(p, actions[..|actions| - 1]);
      UndecidedStep(p, Run(p, actions[..|actions| - 1]), actions[|actions| - 1]);
    }
  }

  /** Whatever a worker about to compute is told by the planner, the executor and the answerer: all it hands to the
      executor is the call pending in its checkpoint, and that is a known tool that needs no approval. */
  lemma DurableApprovalGate(p: Params, actions: seq<Action>, w: string, reply: Reply)
    requires w in Run(p, actions).workers && Run(p, actions).workers[w].Missing?
    ensures var base := Run(p, actions).workers[w].base;
      var turn := Advance(p.config, base, reply);
      turn.Turned? ==>
        forall call <- turn.executed ::
          && base.pendingToolName == Some(call.name) && base.pendingToolArguments == call.arguments
          && call.name in p.config.registry && !p.config.NeedsApproval(call.name)
  {
    AlwaysUndecided(p, actions);
    var base := Run(p, actions).workers[w].base;
    assert UndecidedPc(Run(p, actions).workers[w]);
    var turn := Advance(p.config, base, reply);
    if turn.Turned? {
      forall call <- turn.executed
        ensures base.pendingToolName == Some(call.name) && base.pendingToolArguments == call.arguments
        ensures call.name in p.config.registry && !p.config.NeedsApproval(call.name)
      {
        UndecidedExecutesFreely(p.config, base, reply, call);
      }
    }
  }
}
