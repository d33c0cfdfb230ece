/** What a run of `stream` leaves in its checkpoint and tells in its events, read off the replies of the planner and the
    executor alone. Plan step k is turn 2k, its tool turn 2k+1. */
module StreamFacts {
  import opened Common
  import opened Execution
  import opened StepMachine
  import opened Sessions

  // ---- Why the loop goes on, and why it answers ----

  /** At least one step. */
  function Steps(config: Config): nat { if config.maxToolSteps < 1 then 1 else config.maxToolSteps }

  /** What the planner said in plan step k. */
  function PlanAt(replies: Replies, k: nat): Option<PlanResult> { replies(2 * k).plan }

  function ToolAt(replies: Replies, k: nat): ToolReply { replies(2 * k + 1).tool }

  /** Plan step k asked for this call. */
  predicate Asked(replies: Replies, k: nat, name: string, arguments: Arguments) {
    && PlanAt(replies, k).Some? && PlanAt(replies, k).value.action.CallTool?
    && PlanAt(replies, k).value.toolCall == Some(ToolCall(name, arguments))
  }

  /** Plan step k asked for a tool that is on file and needs no approval. */
  predicate Runs(config: Config, replies: Replies, k: nat, name: string, arguments: Arguments) {
    && Asked(replies, k, name, arguments)
    && name != "" && name in config.registry && !config.registry[name].approvalRequired
  }

  /** The tool of plan step k returned a result that the planner is to see, with steps to spare. */
  predicate GoesOn(config: Config, replies: Replies, k: nat) {
    && PlanAt(replies, k).Some? && PlanAt(replies, k).value.toolCall.Some?
    && Runs(config, replies, k, PlanAt(replies, k).value.toolCall.value.name,
            PlanAt(replies, k).value.toolCall.value.arguments)
    && ToolAt(replies, k).ToolReturned? && !ToolAt(replies, k).result.directAnswer
    && k + 1 < Steps(config)
  }

  /** The results that the first n calls returned, each and in order. */
  function Returned(replies: Replies, n: nat): seq<ToolResult> {
    if n == 0 then []
    else
      Returned(replies, n - 1) + if ToolAt(replies, n - 1).ToolReturned? then [ToolAt(replies, n - 1).result] else []
  }

  /** Why the answer step was reached after c plan steps, and what it carries: an answer of the planner, one of five
      errors, or a tool's direct answer; `executed` calls have been made. */
  ghost predicate AnswersBecause(config: Config, replies: Replies, cp: Checkpoint, c: nat, executed: nat) {
    && c > 0 && PlanAt(replies, c - 1).Some?
    && var plan := PlanAt(replies, c - 1).value;
       if plan.action.Respond? then
         executed == c - 1 && cp.toolErrors == []
             && cp.draftAnswer == (if plan.answer.Some? then plan.answer.value else "")
       else if plan.toolCall.None? then
         executed == c - 1 && cp.toolErrors == [MissingInvocation] && cp.draftAnswer == ""
       else if plan.toolCall.value.name == "" then
         executed == c - 1 && cp.toolErrors == [NoPendingTool] && cp.draftAnswer == ""
       else if plan.toolCall.value.name !in config.registry then
         executed == c - 1 && cp.toolErrors == [UnknownTool(plan.toolCall.value.name)] && cp.draftAnswer == ""
       else
         && executed == c && !config.registry[plan.toolCall.value.name].approvalRequired
         && match ToolAt(replies, c - 1)
            case ToolRaised(_, error) => cp.toolErrors == [ToolSaid(error)] && cp.draftAnswer == ""
            case ToolReturned(result) =>
              if result.directAnswer then cp.toolErrors == [] && cp.draftAnswer == result.content
              else
                cp.toolErrors == [LimitReached(Steps(config))] && cp.draftAnswer == "" && c == Steps(config)
  }

  /** What stands at each step of the loop. */
  ghost predicate Accounted(config: Config, replies: Replies, s: Session) {
    var cp, n := s.checkpoint, |s.executed|;
    && cp.toolResults == Returned(replies, n)
    && (forall k :: 0 <= k < n - 1 ==> GoesOn(config, replies, k))
    && match cp.pendingAction
       case Plan => cp.toolErrors == [] && cp.draftAnswer == "" && (n > 0 ==> GoesOn(config, replies, n - 1))
       case Tool =>
         && cp.toolErrors == [] && cp.draftAnswer == "" && cp.pendingToolName.Some?
         && (n > 0 ==> GoesOn(config, replies, n - 1))
         && Asked(replies, n, cp.pendingToolName.value, cp.pendingToolArguments)
       case Answer => AnswersBecause(config, replies, cp, s.plannerCalls, n)
  }

  lemma PlanAccounted(config: Config, replies: Replies, s: Session)
    requires InStep(config, s) && Accounted(config, replies, s) && s.ending.Pending? && s.checkpoint.pendingAction.Plan?
    ensures Accounted(config, replies, TakeTurn(config, s, replies(s.turns), true))
  {
    assert s.turns == 2 * |s.executed|;
  }

  lemma ToolAccounted(config: Config, replies: Replies, s: Session)
    requires InStep(config, s) && Accounted(config, replies, s) && s.ending.Pending? && s.checkpoint.pendingAction.Tool?
    requires s.checkpoint.approvalDecision.None?
    ensures Accounted(config, replies, TakeTurn(config, s, replies(s.turns), true))
  {
    assert s.turns == 2 * |s.executed| + 1;
    if Executes(config, s.checkpoint) {
      CallAccounted(config, replies, s);
    }
  }

  lemma CallAccounted(config: Config, replies: Replies, s: Session)
    requires InStep(config, s) && Accounted(config, replies, s) && s.ending.Pending?
    requires s.checkpoint.approvalDecision.None? && Executes(config, s.checkpoint) && s.turns == 2 * |s.executed| + 1
    ensures Accounted(config, replies, TakeTurn(config, s, replies(s.turns), true))
  {
    var n, cp := |s.executed|, s.checkpoint;
    var after := TakeTurn(config, s, replies(s.turns), true);
    assert after.executed == s.executed + [ToolCall(cp.pendingToolName.value, cp.pendingToolArguments)];
    assert Runs(config, replies, n, cp.pendingToolName.value, cp.pendingToolArguments);
  }

  lemma TurnAccounted(config: Config, replies: Replies, s: Session)
    requires InStep(config, s) && Accounted(config, replies, s) && s.ending.Pending?
    requires s.checkpoint.approvalDecision.None?
    ensures Accounted(config, replies, TakeTurn(config, s, replies(s.turns), true))
  {
    match s.checkpoint.pendingAction {
      case Plan => PlanAccounted(config, replies, s);
      case Tool => ToolAccounted(config, replies, s);
      case Answer => {}
    }
  }

  lemma {:induction false} StreamIsAccounted(config: Config, start: Session, replies: Replies, n: nat)
    requires IsStreamStart(start)
    ensures Accounted(config, replies, RunTurns(config, start, replies, n, true))
  {
    if n > 0 {
      StreamIsAccounted(config, start, replies, n - 1);
      StreamKeepsInvariant(config, start, replies, n - 1);
      var before := RunTurns(config, start, replies, n - 1, true);
      if before.ending.Pending? {
        TurnAccounted(config, replies, before);
      }
    }
  }

  /** The call of plan step n waits for approval. */
  ghost predicate Waits(config: Config, replies: Replies, cp: Checkpoint, n: nat) {
    && cp.pendingAction.Tool? && cp.pendingToolName.Some?
    && Asked(replies, n, cp.pendingToolName.value, cp.pendingToolArguments)
    && cp.pendingToolName.value in config.registry && config.registry[cp.pendingToolName.value].approvalRequired
  }

  lemma {:induction false} WaitsAtTool(config: Config, start: Session, replies: Replies, n: nat)
    requires IsStreamStart(start)
    ensures var s := RunTurns(config, start, replies, n, true);
      s.ending.AwaitingApproval? ==> Waits(config, replies, s.checkpoint, |s.executed|)
  {
    if n > 0 {
      WaitsAtTool(config, start, replies, n - 1);
      StreamIsAccounted(config, start, replies, n);
      var before := RunTurns(config, start, replies, n - 1, true);
      if before.ending.Pending? && Advance(config, before.checkpoint, replies(before.turns)).Turned? {
        AdvanceMoves(config, before.checkpoint, replies(before.turns));
      }
    }
  }

  /** At every turn of `stream`, the answer step and the ended session included, the checkpoint holds exactly the
      results that the executed calls returned, each and in order; the answer step carries exactly the error, or the
      draft, that the last plan or its tool caused; the planner is asked again only after a result that is not a direct
      answer and with steps to spare. */
  lemma StreamCheckpoint(config: Config, start: Session, replies: Replies, n: nat)
    requires IsStreamStart(start)
    ensures var s := RunTurns(config, start, replies, n, true);
      && s.checkpoint.toolResults == Returned(replies, |s.executed|)
      && (s.checkpoint.pendingAction.Answer? ==>
            AnswersBecause(config, replies, s.checkpoint, s.plannerCalls, |s.executed|))
      && (!s.checkpoint.pendingAction.Answer? ==>
            && s.checkpoint.toolErrors == [] && s.checkpoint.draftAnswer == ""
            && forall k :: 0 <= k < |s.executed| ==> GoesOn(config, replies, k))
      && (s.ending.AwaitingApproval? ==> Waits(config, replies, s.checkpoint, |s.executed|))
  {
    StreamIsAccounted(config, start, replies, n);
    WaitsAtTool(config, start, replies, n);
  }

  // ---- The events ----

  /** What plan step k tells. */
  function PlanEvent(replies: Replies, k: nat): Event
    requires PlanAt(replies, k).Some?
  {
    var plan := PlanAt(replies, k).value;
    PlannerCompleted(plan.action.CallTool?, plan.provider, plan.model,
                     if plan.toolCall.Some? then Some(plan.toolCall.value.name) else None, k + 1)
  }

  /** What its tool turn tells, if it has one: the tool is not on file, or waits for approval with its arguments and
      risk level, or is called and returns or raises. */
  function ToolEventsAt(config: Config, replies: Replies, k: nat): seq<Event>
    requires PlanAt(replies, k).Some?
  {
    var plan := PlanAt(replies, k).value;
    if plan.action.Respond? || plan.toolCall.None? || plan.toolCall.value.name == "" then []
    else
      var name, arguments := plan.toolCall.value.name, plan.toolCall.value.arguments;
      if name !in config.registry then [ToolFailed(name, UnknownTool(name), k + 1)]
      else if config.registry[name].approvalRequired then
        [ApprovalRequired(name, arguments, config.registry[name].riskLevel, k + 1), RunWaitingApproval]
      else
        match ToolAt(replies, k)
        case ToolReturned(_) => [ToolRequested(name, arguments, k + 1), ToolCompleted(name, k + 1)]
        case ToolRaised(toolName, error) =>
          [ToolRequested(name, arguments, k + 1), ToolFailed(toolName, ToolSaid(error), k + 1)]
  }

  /** The first n plan steps and their tool turns, told in full; nothing more once a planner raised. */
  function Told(config: Config, replies: Replies, n: nat): seq<Event> {
    if n == 0 then [RunStarted]
    else
      Told(config, replies, n - 1) +
      if PlanAt(replies, n - 1).None? then [] else [PlanEvent(replies, n - 1)] + ToolEventsAt(config, replies, n - 1)
  }

  /** The trace, wherever the loop stands. */
  ghost predicate TracedTo(config: Config, replies: Replies, s: Session) {
    var n := |s.executed|;
    match s.checkpoint.pendingAction
    case Plan => s.events == Told(config, replies, n)
    case Tool =>
      && PlanAt(replies, n).Some?
      && s.events == if s.ending.AwaitingApproval? then Told(config, replies, n + 1)
                     else Told(config, replies, n) + [PlanEvent(replies, n)]
    case Answer =>
      if s.ending.Finished? then
        && s.turns > 0 && |s.events| >= 2 && s.events[|s.events| - 2].AssistantMessage?
        && s.events == Told(config, replies, s.plannerCalls) + [s.events[|s.events| - 2], RunCompleted]
        && SaidBy(s.events[|s.events| - 2].content, s.checkpoint.draftAnswer, replies(s.turns - 1))
      else s.events == Told(config, replies, s.plannerCalls)
  }

  lemma ToldMore(config: Config, replies: Replies, n: nat, before: seq<Event>, more: seq<Event>)
    requires PlanAt(replies, n).Some? && before == Told(config, replies, n) + [PlanEvent(replies, n)]
    requires more == ToolEventsAt(config, replies, n)
    ensures before + more == Told(config, replies, n + 1)
  {
    assert Told(config, replies, n) + ([PlanEvent(replies, n)] + more) == before + more;
  }

  lemma PlanTraced(config: Config, replies: Replies, s: Session)
    requires InStep(config, s) && TracedTo(config, replies, s) && s.ending.Pending? && s.checkpoint.pendingAction.Plan?
    ensures TracedTo(config, replies, TakeTurn(config, s, replies(s.turns), true))
  {
    var n := |s.executed|;
    assert s.turns == 2 * n;
    if PlanAt(replies, n).Some? {
      var after := TakeTurn(config, s, replies(s.turns), true);
      assert after.events == Told(config, replies, n) + [PlanEvent(replies, n)];
      if after.checkpoint.pendingAction.Answer? {
        assert after.events + [] == after.events;
        ToldMore(config, replies, n, after.events, []);
      }
    }
  }

  lemma ToolTurnTells(config: Config, replies: Replies, cp: Checkpoint, n: nat, name: string)
    requires cp.pendingAction.Tool? && cp.pendingToolName == Some(name) && cp.approvalDecision.None?
    requires cp.nextStep == n + 1 && Asked(replies, n, name, cp.pendingToolArguments)
    ensures AfterTool(config, cp, ToolAt(replies, n)).outcome.events == ToolEventsAt(config, replies, n)
  {
  }

  lemma ToolTraced(config: Config, replies: Replies, s: Session)
    requires InStep(config, s) && TracedTo(config, replies, s) && s.ending.Pending? && s.checkpoint.pendingAction.Tool?
    requires Accounted(config, replies, s) && s.checkpoint.approvalDecision.None?
    ensures TracedTo(config, replies, TakeTurn(config, s, replies(s.turns), true))
  {
    var n, cp := |s.executed|, s.checkpoint;
    var after := TakeTurn(config, s, replies(s.turns), true);
    assert s.turns == 2 * n + 1;
    ToolTurnTold(config, replies, s, n);
    if AwaitsApproval(config, cp) {
      assert after.checkpoint == cp && after.ending.AwaitingApproval?;
    } else {
      ToolProceeds(config, cp, ToolAt(replies, n));
      WentOn(config, replies, s, after, n);
    }
  }

  lemma ToolTurnTold(config: Config, replies: Replies, s: Session, n: nat)
    requires s.ending.Pending? && s.checkpoint.pendingAction.Tool? && s.checkpoint.approvalDecision.None?
    requires s.turns == 2 * n + 1 && s.checkpoint.nextStep == n + 1 && s.checkpoint.pendingToolName.Some?
    requires Asked(replies, n, s.checkpoint.pendingToolName.value, s.checkpoint.pendingToolArguments)
    requires s.events == Told(config, replies, n) + [PlanEvent(replies, n)]
    ensures TakeTurn(config, s, replies(s.turns), true).events == Told(config, replies, n + 1)
  {
    ToolTurnTells(config, replies, s.checkpoint, n, s.checkpoint.pendingToolName.value);
    ToldMore(config, replies, n, s.events, ToolEventsAt(config, replies, n));
  }

  lemma WentOn(config: Config, replies: Replies, s: Session, after: Session, n: nat)
    requires s.checkpoint.pendingAction.Tool? && n == |s.executed| && s.plannerCalls == n + 1
    requires after.events == Told(config, replies, n + 1) && after.plannerCalls == n + 1 && after.ending.Pending?
    requires after.checkpoint.pendingAction.Plan? ==> |after.executed| == n + 1
    requires !after.checkpoint.pendingAction.Tool?
    ensures TracedTo(config, replies, after)
  {
  }

  lemma AnswerTraced(config: Config, replies: Replies, s: Session)
    requires TracedTo(config, replies, s) && s.ending.Pending? && s.checkpoint.pendingAction.Answer?
    ensures TracedTo(config, replies, TakeTurn(config, s, replies(s.turns), true))
  {
    var turn, after := AfterAnswer(s.checkpoint, replies(s.turns).answer), TakeTurn(config, s, replies(s.turns), true);
    if turn.Turned? {
      assert after.events[|after.events| - 2] == turn.outcome.events[0];
    }
  }

  lemma TurnTraced(config: Config, replies: Replies, s: Session)
    requires InStep(config, s) && TracedTo(config, replies, s) && s.ending.Pending?
    requires Accounted(config, replies, s) && s.checkpoint.approvalDecision.None?
    ensures TracedTo(config, replies, TakeTurn(config, s, replies(s.turns), true))
  {
    match s.checkpoint.pendingAction {
      case Plan => PlanTraced(config, replies, s);
      case Tool => ToolTraced(config, replies, s);
      case Answer => AnswerTraced(config, replies, s);
    }
  }

  /** The events of `stream`, to the last one: what the planner said in every step, which call was made and what came of
      it, which tool is not on file, which call waits for approval, and the message at the end. */
  lemma {:induction false} StreamTrace(config: Config, start: Session, replies: Replies, n: nat)
    requires IsStreamStart(start)
    ensures TracedTo(config, replies, RunTurns(config, start, replies, n, true))
  {
    if n > 0 {
      StreamTrace(config, start, replies, n - 1);
      StreamIsAccounted(config, start, replies, n - 1);
      StreamKeepsInvariant(config, start, replies, n - 1);
      var before := RunTurns(config, start, replies, n - 1, true);
      if before.ending.Pending? {
        TurnTraced(config, replies, before);
      }
    }
  }

  // ---- The first turn of resume ----

  /** A rejected call is not made: the answer step follows, with the rejection as its only error and nothing pending. */
  lemma RejectedResume(config: Config, runId: string, message: string, call: ToolCall, history: seq<Message>,
                       reply: Reply)
    requires call.name != "" && call.name in config.registry
    ensures var s := TakeTurn(config, ResumeStart(runId, message, call, false, history), reply, false);
      && s.ending.Pending? && s.executed == [] && s.events == [RunResumed] && s.plannerCalls == 0
      && s.checkpoint == FirstCheckpoint(runId, "approval-resume", message, history).(
           toolErrors := [Rejected], pendingAction := Answer)
  {
  }

  /** An approved call is made at once, as the first step: its result, or its error, is all the checkpoint holds, and
      then the planner is asked again, or the answer follows. */
  lemma ApprovedResume(config: Config, runId: string, message: string, call: ToolCall, history: seq<Message>,
                       reply: Reply)
    requires call.name != "" && call.name in config.registry
    ensures var s := TakeTurn(config, ResumeStart(runId, message, call, true, history), reply, false);
      && s.ending.Pending? && s.executed == [call] && s.plannerCalls == 0
      && s.checkpoint == FirstCheckpoint(runId, "approval-resume", message, history).(
           nextStep := 2,
           toolResults := if reply.tool.ToolReturned? then [reply.tool.result] else [],
           toolErrors := ErrorsOfFirst(config, reply.tool),
           pendingAction := if ErrorsOfFirst(config, reply.tool) != [] || reply.tool.result.directAnswer then Answer
                            else Plan,
           draftAnswer := if reply.tool.ToolReturned? && reply.tool.result.directAnswer then reply.tool.result.content
                          else "")
      && s.events == [RunResumed, ToolRequested(call.name, call.arguments, 1),
                      if reply.tool.ToolReturned? then ToolCompleted(call.name, 1)
                      else ToolFailed(reply.tool.toolName, ToolSaid(reply.tool.error), 1)]
  {
    assert call == ToolCall(call.name, call.arguments);
  }

  function ErrorsOfFirst(config: Config, reply: ToolReply): (errors: seq<ToolError>)
    ensures reply.ToolRaised? ==> errors != []
  {
    match reply
    case ToolRaised(_, error) => [ToolSaid(error)]
    case ToolReturned(result) => if !result.directAnswer && Steps(config) == 1 then [LimitReached(1)] else []
  }
}
