/** The values an agent run is made of (app/agent/state.py, app/agent/execution.py). */
module Execution {
  import opened Common

  datatype RunStatus =
    | Queued | Running | WaitingApproval | RetryScheduled | Completed | Failed | Canceled
  {
    predicate Terminal() { Completed? || Failed? || Canceled? }
  }

  datatype StepType = PlanStep | ToolCallStep | ApprovalStep | AnswerStep

  datatype StepStatus = StepPending | StepRunning | StepCompleted | StepFailed | StepSkipped

  datatype CheckpointAction = Plan | Tool | Answer

  /** A JSON object; its values are opaque text. */
  type Arguments = map<string, string>

  datatype Message = Message(role: string, content: string)

  /** directAnswer: metadata["direct_answer"] is the literal True. */
  datatype ToolResult = ToolResult(toolName: string, content: string, directAnswer: bool)

  /** The texts appended to `tool_errors`: one constructor a message, its variable parts as arguments. */
  datatype ToolError =
    | MissingInvocation
    | NoPendingTool
    | UnknownTool(toolName: string)
    | Rejected
    | LimitReached(limit: nat)
    | ToolSaid(text: string)

  datatype Checkpoint = Checkpoint(
    runId: string,
    sessionId: string,
    userMessage: string,
    history: seq<Message>,
    nextStep: nat,
    toolResults: seq<ToolResult>,
    toolErrors: seq<ToolError>,
    pendingToolName: Option<string>,
    pendingToolArguments: Arguments,
    approvalDecision: Option<bool>,
    pendingAction: CheckpointAction,
    draftAnswer: string)

  /** A checkpoint with every field at its default. */
  function FirstCheckpoint(runId: string, sessionId: string, userMessage: string, history: seq<Message>): Checkpoint {
    Checkpoint(runId, sessionId, userMessage, history, 1, [], [], None, map[], None, Plan, "")
  }

  datatype Event =
    | RunStarted
    | RunResumed
    | PlannerCompleted(callsTool: bool, provider: string, model: Option<string>, planned: Option<string>, step: nat)
    | ToolRequested(toolName: string, arguments: Arguments, step: nat)
    | ToolCompleted(toolName: string, step: nat)
    | ToolFailed(toolName: string, error: ToolError, step: nat)
    | ApprovalRequired(toolName: string, arguments: Arguments, riskLevel: string, step: nat)
    | RunWaitingApproval
    | AssistantMessage(content: string)
    | RunCompleted

  datatype StepOutcome = StepOutcome(
    stepType: StepType,
    checkpoint: Checkpoint,
    events: seq<Event>,
    finalResponse: Option<string>,
    waitingForApproval: bool,
    completed: bool)
  {
    /** The loops of `stream` and `run_to_boundary` stop on such an outcome. */
    predicate Boundary() { waitingForApproval || completed }
  }

  /** An outcome that leaves the optional fields at their defaults. */
  function Continue(stepType: StepType, checkpoint: Checkpoint, events: seq<Event>): StepOutcome {
    StepOutcome(stepType, checkpoint, events, None, false, false)
  }

  /** The position of a checkpoint in the step order: (next_step, PLAN < TOOL < ANSWER). */
  function Rank(action: CheckpointAction): nat {
    match action
    case Plan => 0
    case Tool => 1
    case Answer => 2
  }

  predicate Before(a: Checkpoint, b: Checkpoint) {
    a.nextStep < b.nextStep || (a.nextStep == b.nextStep && Rank(a.pendingAction) < Rank(b.pendingAction))
  }
}
