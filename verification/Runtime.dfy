/** The runtime object (app/agent/runtime.py), in the source's step-by-step form. */
module Runtime {
  import opened Common
  import opened Execution
  import opened StepMachine
  import opened Sessions

  /** `executorCalls` and `plannerCalls` record the calls made to the injected executor and gateway. */
  class AgentRuntime {
    const config: Config
    var executorCalls: seq<ToolCall>
    var plannerCalls: nat

    constructor (config: Config)
      ensures this.config == config && executorCalls == [] && plannerCalls == 0
    {
      this.config := config;
      executorCalls, plannerCalls := [], 0;
    }

    method AdvanceStep(checkpoint: Checkpoint, reply: Reply) returns (turn: Turn)
      modifies this
      ensures turn == Advance(config, checkpoint, reply)
      ensures executorCalls == old(executorCalls) + (if turn.Turned? then turn.executed else [])
      ensures plannerCalls == old(plannerCalls) + (if checkpoint.pendingAction.Plan? then 1 else 0)
    {
      match checkpoint.pendingAction {
        case Plan => turn := AdvancePlan(checkpoint, reply);
        case Tool => turn := AdvanceTool(checkpoint, reply);
        case Answer => turn := AdvanceAnswer(checkpoint, reply);
      }
    }

    method AdvancePlan(checkpoint: Checkpoint, reply: Reply) returns (turn: Turn)
      requires checkpoint.pendingAction.Plan?
      modifies this
      ensures turn == Advance(config, checkpoint, reply)
      ensures executorCalls == old(executorCalls) && plannerCalls == old(plannerCalls) + 1
      ensures turn.Turned? ==> turn.executed == []
    {
      var updated := checkpoint;
      plannerCalls := plannerCalls + 1;
      if reply.plan.None? {
        return Raised;
      }
      var plan := reply.plan.value;
      var name := if plan.toolCall.Some? then Some(plan.toolCall.value.name) else None;
      var events := [PlannerCompleted(plan.action.CallTool?, plan.provider, plan.model, name, updated.nextStep)];
      if plan.action.CallTool? {
        if plan.toolCall.None? {
          updated := updated.(toolErrors := updated.toolErrors + [MissingInvocation]);
          updated := updated.(pendingAction := Answer);
        } else {
          updated := updated.(pendingToolName := Some(plan.toolCall.value.name));
          updated := updated.(pendingToolArguments := plan.toolCall.value.arguments);
          updated := updated.(pendingAction := Tool);
        }
      } else {
        updated := updated.(draftAnswer := if plan.answer.Some? then plan.answer.value else "");
        updated := updated.(pendingAction := Answer);
      }
      turn := Turned(Continue(PlanStep, updated, events), []);
    }

    method AdvanceTool(checkpoint: Checkpoint, reply: Reply) returns (turn: Turn)
      requires checkpoint.pendingAction.Tool?
      modifies this`executorCalls
      ensures turn == Advance(config, checkpoint, reply) && turn.Turned?
      ensures executorCalls == old(executorCalls) + turn.executed
    {
      var updated := checkpoint;
      if updated.pendingToolName.None? || updated.pendingToolName.value == "" {
        updated := updated.(toolErrors := updated.toolErrors + [NoPendingTool]);
        updated := updated.(pendingAction := Answer);
        return Turned(Continue(ToolCallStep, updated, []), []);
      }
      var name := updated.pendingToolName.value;
      if name !in config.registry {
        var error := UnknownTool(name);
        updated := updated.(toolErrors := updated.toolErrors + [error]);
        updated := updated.(pendingAction := Answer);
        return Turned(Continue(ToolCallStep, updated, [ToolFailed(name, error, updated.nextStep)]), []);
      }
      var definition := config.registry[name];
      if definition.approvalRequired && updated.approvalDecision.None? {
        return Turned(StepOutcome(ApprovalStep, updated,
                                  [ApprovalRequired(name, updated.pendingToolArguments, definition.riskLevel,
                                                    updated.nextStep),
                                   RunWaitingApproval],
                                  None, true, false), []);
      }
      if updated.approvalDecision == Some(false) {
        updated := updated.(toolErrors := updated.toolErrors + [Rejected]);
        updated := ClearPendingTool(updated);
        updated := updated.(pendingAction := Answer);
        return Turned(Continue(ApprovalStep, updated, []), []);
      }
      var arguments := updated.pendingToolArguments;
      var events := ExecuteTool(name, arguments, updated.nextStep, reply.tool);
      updated := ClearPendingTool(updated);
      match reply.tool {
        case ToolReturned(result) => updated := updated.(toolResults := updated.toolResults + [result]);
        case ToolRaised(_, error) => updated := updated.(toolErrors := updated.toolErrors + [ToolSaid(error)]);
      }
      updated := updated.(nextStep := updated.nextStep + 1);
      if reply.tool.ToolReturned? && reply.tool.result.directAnswer {
        updated := updated.(draftAnswer := reply.tool.result.content);
        updated := updated.(pendingAction := Answer);
      } else if reply.tool.ToolRaised? {
        updated := updated.(pendingAction := Answer);
      } else if updated.nextStep > config.StepLimit() {
        updated := updated.(toolErrors := updated.toolErrors + [LimitReached(config.StepLimit())]);
        updated := updated.(pendingAction := Answer);
      } else {
        updated := updated.(pendingAction := Plan);
      }
      turn := Turned(Continue(ToolCallStep, updated, events), [ToolCall(name, arguments)]);
    }

    method ExecuteTool(name: string, arguments: Arguments, step: nat, reply: ToolReply) returns (events: seq<Event>)
      modifies this`executorCalls
      ensures events == ToolEvents(name, arguments, step, reply)
      ensures executorCalls == old(executorCalls) + [ToolCall(name, arguments)]
    {
      events := [ToolRequested(name, arguments, step)];
      executorCalls := executorCalls + [ToolCall(name, arguments)];
      match reply {
        case ToolReturned(_) => events := events + [ToolCompleted(name, step)];
        case ToolRaised(failedName, error) => events := events + [ToolFailed(failedName, ToolSaid(error), step)];
      }
    }

    method AdvanceAnswer(checkpoint: Checkpoint, reply: Reply) returns (turn: Turn)
      requires checkpoint.pendingAction.Answer?
      ensures turn == Advance(config, checkpoint, reply)
      ensures turn.Turned? ==> turn.executed == []
    {
      var text := checkpoint.draftAnswer;
      if text == "" {
        if reply.answer.None? {
          return Raised;
        }
        text := reply.answer.value;
      }
      turn := Turned(StepOutcome(AnswerStep, checkpoint, [AssistantMessage(text), RunCompleted], Some(text), false,
                                 true), []);
    }

    /** The generator, drained: everything it yields and where it stops. */
    method Stream(runId: string, sessionId: string, message: string, history: seq<Message>, replies: Replies)
      returns (session: Session)
      modifies this
      ensures session ==
        RunTurns(config, StreamStart(runId, sessionId, message, history), replies, 2 * config.StepLimit() + 1, true)
      ensures !session.ending.Pending?
      ensures executorCalls == old(executorCalls) + session.executed
      ensures plannerCalls == old(plannerCalls) + session.plannerCalls
    {
      ghost var start := StreamStart(runId, sessionId, message, history);
      assert IsStreamStart(start);
      session := StreamStart(runId, sessionId, message, history);
      ghost var n: nat, limit: nat := 0, 2 * config.StepLimit() + 1;
      while session.ending.Pending?
        invariant session == RunTurns(config, start, replies, n, true)
        invariant executorCalls == old(executorCalls) + session.executed
        invariant plannerCalls == old(plannerCalls) + session.plannerCalls
        decreases limit - n
      {
        StillRunning(config, start, replies, n);
        ghost var before := session;
        session := OneTurn(session, replies(session.turns), true);
        OneMoreTurn(config, start, replies, n, before, session);
        n := n + 1;
      }
      SameEnd(config, start, replies, n);
    }

    /** The generator, pulled for at most `pulls` turns of its loop; it need not end. */
    method Resume(runId: string, message: string, call: ToolCall, approved: bool, history: seq<Message>,
                  replies: Replies, pulls: nat)
      returns (session: Session)
      modifies this
      ensures session == RunTurns(config, ResumeStart(runId, message, call, approved, history), replies, pulls, false)
      ensures executorCalls == old(executorCalls) + session.executed
    {
      ghost var start := ResumeStart(runId, message, call, approved, history);
      session := ResumeStart(runId, message, call, approved, history);
      var turn := 0;
      while turn < pulls && session.ending.Pending?
        invariant turn <= pulls && session == RunTurns(config, start, replies, turn, false)
        invariant executorCalls == old(executorCalls) + session.executed
      {
        session := OneTurn(session, replies(session.turns), false);
        turn := turn + 1;
      }
      if turn < pulls {
        EndedStays(config, start, replies, turn, pulls, false);
      }
    }

    method OneTurn(session: Session, reply: Reply, stopsOnApproval: bool) returns (after: Session)
      requires session.ending.Pending?
      modifies this
      ensures after == TakeTurn(config, session, reply, stopsOnApproval)
      ensures executorCalls == old(executorCalls) + after.executed[|session.executed|..]
      ensures |after.executed| >= |session.executed| && after.executed[..|session.executed|] == session.executed
      ensures plannerCalls - old(plannerCalls) == after.plannerCalls - session.plannerCalls
    {
      var calls := session.plannerCalls + if session.checkpoint.pendingAction.Plan? then 1 else 0;
      var turn := AdvanceStep(session.checkpoint, reply);
      match turn {
        case Raised =>
          after := session.(plannerCalls := calls, turns := session.turns + 1, ending := Crashed);
        case Turned(outcome, executed) =>
          after := session.(checkpoint := outcome.checkpoint, plannerCalls := calls, turns := session.turns + 1);
          after := after.(events := after.events + outcome.events, executed := after.executed + executed);
          if outcome.completed {
            after := after.(ending := Finished);
          } else if outcome.waitingForApproval && stopsOnApproval {
            after := after.(ending := AwaitingApproval);
          }
      }
    }
  }
}
