/** What the rows of the step table tell about the steps of a durable run. */
module StepRows {
  import opened Common
  import opened Execution
  import opened StepMachine
  import opened RunRecords
  import opened StoreSpec
  import opened Protocol
  import opened ProgressInvariant
  import opened Guarantees
  import opened DurableApproval

  /** The call of a registered tool that was not approved. */
  predicate Refused(config: Config, base: Checkpoint) {
    && base.pendingAction.Tool? && base.approvalDecision == Some(false)
    && base.pendingToolName.Some? && base.pendingToolName.value != "" && base.pendingToolName.value in config.registry
  }

  /** The type of a step is that of the action it started from, but an approval request and a refused call have one of
      their own. Only an answer completes, and its response is the message of its events. */
  predicate Tells(config: Config, base: Checkpoint, outcome: StepOutcome) {
    && (outcome.stepType.PlanStep? <==> base.pendingAction.Plan?)
    && (outcome.stepType.AnswerStep? <==> base.pendingAction.Answer?)
    && (outcome.stepType.ApprovalStep? <==> outcome.waitingForApproval || Refused(config, base))
    && (outcome.completed <==> outcome.stepType.AnswerStep?)
    && (outcome.finalResponse.Some? <==> outcome.completed)
    && (outcome.completed ==> outcome.events == [AssistantMessage(outcome.finalResponse.value), RunCompleted])
  }

  lemma StepTells(config: Config, cp: Checkpoint, reply: Reply)
    requires Advance(config, cp, reply).Turned?
    ensures Tells(config, cp, Advance(config, cp, reply).outcome)
  {
  }

  lemma {:induction false} BaseUndecided(config: Config, first: Checkpoint, current: Checkpoint, cs: seq<Commit>,
                                         k: nat)
    requires Chained(first, current, cs) && AllGenuine(config, cs) && first.approvalDecision.None? && k < |cs|
    ensures cs[k].base.approvalDecision.None?
  {
    assert cs[k].base == BaseAt(first, cs, k);
    if k > 0 {
      BaseUndecided(config, first, current, cs, k - 1);
      assert Genuine(config, cs[k - 1]);
      AdvanceKeepsUndecided(config, cs[k - 1].base, cs[k - 1].reply);
    }
  }

  /** The row of a step. */
  ghost predicate RowTells(row: StoredStep, c: Commit) {
    && row.status.StepCompleted? && row.sequence == c.base.nextStep && row.checkpoint == c.outcome.checkpoint
    && (row.stepType.PlanStep? <==> c.base.pendingAction.Plan?)
    && (row.stepType.AnswerStep? <==> c.base.pendingAction.Answer?)
    && (row.output.waitingForApproval <==> row.stepType.ApprovalStep?)
    && (row.output.completed <==> row.stepType.AnswerStep?)
    && (row.output.finalResponse.Some? <==> row.output.completed)
    && (row.output.completed ==> c.outcome.events == [AssistantMessage(row.output.finalResponse.value), RunCompleted])
  }

  /** In every reachable state the row of every committed step tells its number, its type, the checkpoint it led to,
      whether it waits or completes, and the response that its message event carries. */
  lemma RowsTell(p: Params, actions: seq<Action>, id: string, k: nat)
    requires id in Run(p, actions).store.runs && k < |Commits(Run(p, actions).history, id)|
    ensures var s := Run(p, actions); var c := Commits(s.history, id)[k];
      (id, KeyOf(id, c.base)) in s.store.steps && RowTells(s.store.steps[(id, KeyOf(id, c.base))], c)
  {
    Always(p, actions);
    var s := Run(p, actions);
    var cs := Commits(s.history, id);
    TableOfRun(p.config, s, id);
    assert RunProgress(p.config, s.store, id, cs);
    assert Genuine(p.config, cs[k]);
    BaseUndecided(p.config, FirstOf(s.store.runs[id]), s.store.runs[id].Current(), cs, k);
    StepTells(p.config, cs[k].base, cs[k].reply);
  }
}
