/** How often a step's tool call runs. The idempotency key guards what is committed, not what is executed: every worker
    that has looked for the key before it was there goes on to the executor. */
module ToolCalls {
  import opened Common
  import opened Execution
  import opened StepMachine
  import opened RunRecords
  import opened StoreSpec
  import opened Protocol
  import opened ProgressInvariant
  import opened Guarantees
  import opened Scenarios

  /** Both workers have found no step under the key of the same checkpoint. */
  predicate BothMissed(s: System, v: string, w: string, id: string, base: Checkpoint) {
    && v != w && v in s.workers && w in s.workers
    && s.workers[v] == Missing(id, base) && s.workers[w] == Missing(id, base)
  }

  /** Whatever the executor answers each of them, both hand it the pending call. */
  lemma EachWorkerExecutes(config: Config, base: Checkpoint, reply: Reply)
    requires Executes(config, base)
    ensures var turn := Advance(config, base, reply);
      turn.Turned? && turn.executed == [ToolCall(base.pendingToolName.value, base.pendingToolArguments)]
  {
  }

  lemma ComputesThenSaves(p: Params, s: System, v: string, w: string, id: string, base: Checkpoint, x: Reply,
                          stepId: string)
    requires BothMissed(s, v, w, id, base) && id in s.store.runs && Advance(p.config, base, x).Turned?
    ensures var t := DoSave(DoCompute(p, s, v, x), v, stepId);
      && w in t.workers && t.workers[w] == Missing(id, base) && (id, KeyOf(id, base)) in t.store.steps
  {
  }

  /** Two workers at one checkpoint both run its tool call, and at most one of them commits: once the first has saved,
      the save of the other does not win. */
  lemma CallRunsOncePerWorker(
    p: Params, actions: seq<Action>, v: string, w: string, id: string, base: Checkpoint, x: Reply, y: Reply,
        stepId: string)
    requires BothMissed(Run(p, actions), v, w, id, base) && Executes(p.config, base)
    ensures var call := ToolCall(base.pendingToolName.value, base.pendingToolArguments);
      Advance(p.config, base, x).executed == [call] && Advance(p.config, base, y).executed == [call]
    ensures var t := Run(p, actions + [Compute(v, x)] + [Save(v, stepId)] + [Compute(w, y)]);
      && w in t.workers && t.workers[w].Computed? && t.workers[w].runId == id && t.workers[w].base == base
      && !Wins(t.store, id, base)
  {
    var s := Run(p, actions);
    Always(p, actions);
    assert PcOk(p.config, s.store, s.workers[v]);
    EachWorkerExecutes(p.config, base, x);
    EachWorkerExecutes(p.config, base, y);
    RunOneMore(p, actions, Compute(v, x));
    RunOneMore(p, actions + [Compute(v, x)], Save(v, stepId));
    RunOneMore(p, actions + [Compute(v, x)] + [Save(v, stepId)], Compute(w, y));
    ComputesThenSaves(p, s, v, w, id, base, x, stepId);
  }

  // ---- It happens ----

  function BothLook(): seq<Action> { OneStep(ASK) + [Load("v", "r")] + [Check("v")] + [Load("w", "r")] + [Check("w")] }

  lemma Looks(p: Params, init: seq<Action>, u: string, whole: seq<Action>, base: Checkpoint)
    requires whole == init + [Load(u, "r")] + [Check(u)] && u !in Run(p, init).workers
    requires "r" in Run(p, init).store.runs && Run(p, init).store.runs["r"].Current() == base
    requires ("r", KeyOf("r", base)) !in Run(p, init).store.steps
    ensures var s := Run(p, init); Run(p, whole) == s.(workers := s.workers[u := Missing("r", base)])
  {
    RunOneMore(p, init, Load(u, "r"));
    RunOneMore(p, init + [Load(u, "r")], Check(u));
    var s := Run(p, init);
    assert s.workers[u := Loaded("r", base)][u := Missing("r", base)] == s.workers[u := Missing("r", base)];
  }

  /** A known tool that needs no approval is asked for, and two workers find the step missing. */
  lemma TwoWorkersMiss(p: Params)
    requires "t" in p.config.registry && !p.config.NeedsApproval("t")
    ensures var base := Planned(ASK).checkpoint;
      BothMissed(Run(p, BothLook()), "v", "w", "r", base) && Executes(p.config, base)
  {
    var base := Planned(ASK).checkpoint;
    FirstStep(p, ASK);
    KeyTakenIffStopped(p.config, Run(p, OneStep(ASK)), "r");
    var one := OneStep(ASK) + [Load("v", "r")] + [Check("v")];
    Looks(p, OneStep(ASK), "v", one, base);
    Looks(p, one, "w", BothLook(), base);
  }
}
