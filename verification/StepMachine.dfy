/** One step of the agent (`advance` in app/agent/runtime.py). Planner, tool executor and answerer
    are unconstrained: whatever they do during one turn is the turn's `Reply`. */
module StepMachine {
  import opened Common
  import opened Execution

  datatype ToolDefinition = ToolDefinition(name: string, riskLevel: string, approvalRequired: bool)

  datatype Config = Config(registry: map<string, ToolDefinition>, maxToolSteps: int) {
    function StepLimit(): nat { Max(1, maxToolSteps) }

    predicate NeedsApproval(toolName: string) {
      toolName in registry && registry[toolName].approvalRequired
    }
  }

  datatype ToolCall = ToolCall(name: string, arguments: Arguments)

  datatype PlanAction = Respond | CallTool

  datatype PlanResult = PlanResult(
    action: PlanAction, provider: string, model: Option<string>, answer: Option<string>, toolCall: Option<ToolCall>)

  datatype ToolReply = ToolReturned(result: ToolResult) | ToolRaised(toolName: string, error: string)

  /** What the oracles would do if called in this turn; None: the call raises. */
  datatype Reply = Reply(plan: Option<PlanResult>, tool: ToolReply, answer: Option<string>)

  /** What one `advance` did: its outcome and the calls it made to the executor. */
  datatype Turn = Raised | Turned(outcome: StepOutcome, executed: seq<ToolCall>)

  function Advance(config: Config, cp: Checkpoint, reply: Reply): Turn {
    match cp.pendingAction
    case Plan =>
      if reply.plan.None? then Raised else Turned(AfterPlan(cp, reply.plan.value), [])
    case Tool => AfterTool(config, cp, reply.tool)
    case Answer => AfterAnswer(cp, reply.answer)
  }

  function AfterPlan(cp: Checkpoint, plan: PlanResult): StepOutcome {
    var planned := if plan.toolCall.Some? then Some(plan.toolCall.value.name) else None;
    var next :=
      if plan.action.Respond? then
        cp.(draftAnswer := if plan.answer.Some? then plan.answer.value else "", pendingAction := Answer)
      else if plan.toolCall.None? then
        cp.(toolErrors := cp.toolErrors + [MissingInvocation], pendingAction := Answer)
      else
        cp.(pendingToolName := planned, pendingToolArguments := plan.toolCall.value.arguments, pendingAction := Tool);
    Continue(PlanStep, next,
             [PlannerCompleted(plan.action.CallTool?, plan.provider, plan.model, planned, cp.nextStep)])
  }

  function ClearPendingTool(cp: Checkpoint): Checkpoint {
    cp.(pendingToolName := None, pendingToolArguments := map[], approvalDecision := None)
  }

  function GiveUp(cp: Checkpoint, error: ToolError): Checkpoint {
    cp.(toolErrors := cp.toolErrors + [error], pendingAction := Answer)
  }

  /** An approval-required tool was reached and no decision is stored. */
  predicate AwaitsApproval(config: Config, cp: Checkpoint) {
    cp.pendingAction.Tool? && cp.pendingToolName.Some? && config.NeedsApproval(cp.pendingToolName.value)
    && cp.pendingToolName.value != "" && cp.approvalDecision.None?
  }

  /** This turn hands the pending call to the executor. */
  predicate Executes(config: Config, cp: Checkpoint) {
    && cp.pendingAction.Tool? && cp.pendingToolName.Some? && cp.pendingToolName.value != ""
    && cp.pendingToolName.value in config.registry
    && !AwaitsApproval(config, cp) && cp.approvalDecision != Some(false)
  }

  function AfterTool(config: Config, cp: Checkpoint, reply: ToolReply): Turn {
    if cp.pendingToolName.None? || cp.pendingToolName.value == "" then
      Turned(Continue(ToolCallStep, GiveUp(cp, NoPendingTool), []), [])
    else
      var name := cp.pendingToolName.value;
      if name !in config.registry then
        Turned(Continue(ToolCallStep, GiveUp(cp, UnknownTool(name)),
                        [ToolFailed(name, UnknownTool(name), cp.nextStep)]), [])
      else if AwaitsApproval(config, cp) then
        Turned(StepOutcome(ApprovalStep, cp,
                           [ApprovalRequired(name, cp.pendingToolArguments, config.registry[name].riskLevel,
                                             cp.nextStep),
                            RunWaitingApproval],
                           None, true, false), [])
      else if cp.approvalDecision == Some(false) then
        Turned(Continue(ApprovalStep, GiveUp(ClearPendingTool(cp), Rejected), []), [])
      else
        Turned(Continue(ToolCallStep, AfterExecution(config, ClearPendingTool(cp), reply),
                        ToolEvents(name, cp.pendingToolArguments, cp.nextStep, reply)),
               [ToolCall(name, cp.pendingToolArguments)])
  }

  function ToolEvents(name: string, arguments: Arguments, step: nat, reply: ToolReply): seq<Event> {
    [ToolRequested(name, arguments, step),
     if reply.ToolReturned? then ToolCompleted(name, step) else ToolFailed(reply.toolName, ToolSaid(reply.error), step)]
  }

  /** The checkpoint once the executor has answered; `cleared` has no pending call any more. */
  function AfterExecution(config: Config, cleared: Checkpoint, reply: ToolReply): Checkpoint {
    match reply
    case ToolRaised(_, error) =>
      GiveUp(cleared.(nextStep := cleared.nextStep + 1), ToolSaid(error))
    case ToolReturned(result) =>
      var recorded := cleared.(toolResults := cleared.toolResults + [result], nextStep := cleared.nextStep + 1);
      if result.directAnswer then recorded.(draftAnswer := result.content, pendingAction := Answer)
      else if recorded.nextStep > config.StepLimit() then GiveUp(recorded, LimitReached(config.StepLimit()))
      else recorded.(pendingAction := Plan)
  }

  function AfterAnswer(cp: Checkpoint, answer: Option<string>): Turn {
    if cp.draftAnswer == "" && answer.None? then Raised
    else
      var text := if cp.draftAnswer != "" then cp.draftAnswer else answer.value;
      Turned(StepOutcome(AnswerStep, cp, [AssistantMessage(text), RunCompleted], Some(text), false, true), [])
  }

  // ---- What every step keeps ----

  /** Turns left at most, the one about to be taken included. */
  function TurnsLeft(config: Config, cp: Checkpoint): int {
    match cp.pendingAction
    case Answer => 1
    case Tool => 2 * (config.StepLimit() - cp.nextStep) + 2
    case Plan => 2 * (config.StepLimit() - cp.nextStep) + 3
  }

  predicate WithinLimit(config: Config, cp: Checkpoint) {
    && 1 <= cp.nextStep
    && cp.nextStep <= (if cp.pendingAction.Answer? then config.StepLimit() + 1 else config.StepLimit())
  }

  /** A turn that takes the loop round again. */
  predicate Proceeds(turn: Turn) { turn.Turned? && !turn.outcome.Boundary() }

  lemma ToolProceeds(config: Config, cp: Checkpoint, reply: ToolReply)
    requires cp.pendingAction.Tool? && !AwaitsApproval(config, cp)
    ensures Proceeds(AfterTool(config, cp, reply))
    ensures var next := AfterTool(config, cp, reply).outcome.checkpoint;
         && next.nextStep == (if Executes(config, cp) then cp.nextStep + 1 else cp.nextStep)
         && !next.pendingAction.Tool?
         && (next.pendingAction.Plan? ==> Executes(config, cp) && next.nextStep <= config.StepLimit())
         && (next.pendingAction.Plan? ==> next.toolErrors == cp.toolErrors)
         && (next.approvalDecision.Some? ==> next.approvalDecision == cp.approvalDecision && next.pendingAction.Answer?)
  {
  }

  /** The loop stops exactly on an undecided approval or on an answer, leaving the checkpoint as it was;
      every other turn moves strictly forward in the step order and stays within the step limit. */
  lemma AdvanceMoves(config: Config, cp: Checkpoint, reply: Reply)
    requires Advance(config, cp, reply).Turned?
    ensures var outcome := Advance(config, cp, reply).outcome;
      && (outcome.waitingForApproval <==> AwaitsApproval(config, cp))
      && (outcome.completed <==> cp.pendingAction.Answer?)
      && (outcome.Boundary() ==> outcome.checkpoint == cp)
      && (!outcome.Boundary() ==>
            && Before(cp, outcome.checkpoint)
            && (WithinLimit(config, cp) ==>
                  && WithinLimit(config, outcome.checkpoint)
                  && TurnsLeft(config, outcome.checkpoint) < TurnsLeft(config, cp)))
  {
    if cp.pendingAction.Tool? && !AwaitsApproval(config, cp) {
      ToolProceeds(config, cp, reply.tool);
    }
  }

  predicate SameConversation(a: Checkpoint, b: Checkpoint) {
    a.runId == b.runId && a.sessionId == b.sessionId && a.userMessage == b.userMessage && a.history == b.history
  }

  /** No step touches the identity of the run or its conversation. */
  lemma AdvanceKeepsConversation(config: Config, cp: Checkpoint, reply: Reply)
    requires Advance(config, cp, reply).Turned?
    ensures SameConversation(cp, Advance(config, cp, reply).outcome.checkpoint)
  {
    match cp.pendingAction {
      case Plan =>
      case Tool => ExecutionKeepsConversation(config, ClearPendingTool(cp), reply.tool);
      case Answer =>
    }
  }

  lemma ExecutionKeepsConversation(config: Config, cleared: Checkpoint, reply: ToolReply)
    ensures SameConversation(cleared, AfterExecution(config, cleared, reply))
  {
  }
}
