/** Whole runs of the step machine: the loops of `stream` and `resume` (app/agent/runtime.py),
    driven by an arbitrary reply for every turn. */
module Sessions {
  import opened Common
  import opened Execution
  import opened StepMachine

  datatype Ending = Pending | AwaitingApproval | Finished | Crashed

  datatype Session = Session(
    checkpoint: Checkpoint,
    events: seq<Event>,
    executed: seq<ToolCall>,
    plannerCalls: nat,
    turns: nat,
    ending: Ending)

  type Replies = nat -> Reply

  function TakeTurn(config: Config, s: Session, reply: Reply, stopsOnApproval: bool): Session {
    var plannerCalls := s.plannerCalls + if s.checkpoint.pendingAction.Plan? then 1 else 0;
    match Advance(config, s.checkpoint, reply)
    case Raised => s.(plannerCalls := plannerCalls, turns := s.turns + 1, ending := Crashed)
    case Turned(outcome, executed) =>
      Session(outcome.checkpoint, s.events + outcome.events, s.executed + executed, plannerCalls, s.turns + 1,
              if outcome.completed then Finished
              else if outcome.waitingForApproval && stopsOnApproval then AwaitingApproval
              else Pending)
  }

  /** The session after the loop has gone round at most n times. */
  function RunTurns(config: Config, start: Session, replies: Replies, n: nat, stopsOnApproval: bool): Session {
    if n == 0 then start
    else
      var before := RunTurns(config, start, replies, n - 1, stopsOnApproval);
      if before.ending.Pending? then TakeTurn(config, before, replies(before.turns), stopsOnApproval) else before
  }

  function StreamStart(runId: string, sessionId: string, message: string, history: seq<Message>): Session {
    Session(FirstCheckpoint(runId, sessionId, message, history), [RunStarted], [], 0, 0, Pending)
  }

  function ResumeStart(
    runId: string, message: string, call: ToolCall, approved: bool, history: seq<Message>): Session
  {
    Session(
      FirstCheckpoint(runId, "approval-resume", message, history).(
        pendingToolName := Some(call.name), pendingToolArguments := call.arguments,
        approvalDecision := Some(approved), pendingAction := Tool),
      [RunResumed], [], 0, 0, Pending)
  }

  ghost predicate IsStreamStart(s: Session) {
    exists runId, sessionId, message, history :: s == StreamStart(runId, sessionId, message, history)
  }

  // ---- stream: position, counts and results ----

  /** Where the loop stands: turns 2k plan step k+1, turns 2k+1 run its tool. */
  ghost predicate InStep(config: Config, s: Session) {
    var cp, m := s.checkpoint, config.StepLimit();
    && 1 <= cp.nextStep <= m + 1
    && |s.executed| == cp.nextStep - 1
    && s.plannerCalls <= m
    && (s.ending.Pending? ==>
          match cp.pendingAction
          case Plan => cp.nextStep <= m && s.turns == 2 * (cp.nextStep - 1) && s.plannerCalls == cp.nextStep - 1
          case Tool => cp.nextStep <= m && s.turns == 2 * (cp.nextStep - 1) + 1 && s.plannerCalls == cp.nextStep
          case Answer => s.turns <= 2 * m)
    && s.turns <= 2 * m + 1
  }

  ghost predicate CleanBeforeAnswer(cp: Checkpoint) {
    !cp.pendingAction.Answer? ==> cp.toolErrors == [] && |cp.toolResults| == cp.nextStep - 1
  }

  /** The planner asked for this call in turn t. */
  predicate Planned(replies: Replies, t: nat, call: ToolCall) {
    replies(t).plan.Some? && replies(t).plan.value.action.CallTool? && replies(t).plan.value.toolCall == Some(call)
  }

  /** Call i is what the planner asked for in turn 2i, and needed no approval. */
  ghost predicate CallsAreThePlanners(config: Config, replies: Replies, s: Session) {
    && (forall i :: 0 <= i < |s.executed| ==>
          && Planned(replies, 2 * i, s.executed[i])
          && s.executed[i].name in config.registry && !config.NeedsApproval(s.executed[i].name))
    && (s.ending.Pending? && s.checkpoint.pendingAction.Tool? ==>
          && s.turns > 0 && s.checkpoint.pendingToolName.Some?
          && Planned(replies, s.turns - 1,
                     ToolCall(s.checkpoint.pendingToolName.value, s.checkpoint.pendingToolArguments)))
  }

  /** Result i is what the executor returned in turn 2i+1. */
  ghost predicate ResultsAreTheExecutors(replies: Replies, s: Session) {
    && |s.checkpoint.toolResults| <= |s.executed|
    && (forall i :: 0 <= i < |s.checkpoint.toolResults| ==>
          replies(2 * i + 1).tool == ToolReturned(s.checkpoint.toolResults[i]))
  }

  ghost predicate StreamInvariant(config: Config, replies: Replies, s: Session) {
    && InStep(config, s)
    && s.checkpoint.approvalDecision.None?
    && CleanBeforeAnswer(s.checkpoint)
    && CallsAreThePlanners(config, replies, s)
    && ResultsAreTheExecutors(replies, s)
  }

  lemma StepTurn(config: Config, s: Session, reply: Reply)
    requires InStep(config, s) && s.checkpoint.approvalDecision.None? && CleanBeforeAnswer(s.checkpoint)
    requires s.ending.Pending?
    ensures var after := TakeTurn(config, s, reply, true);
      InStep(config, after) && after.checkpoint.approvalDecision.None? && CleanBeforeAnswer(after.checkpoint)
  {
    match s.checkpoint.pendingAction {
      case Plan =>
      case Tool =>
        if Executes(config, s.checkpoint) {
          var call := ToolCall(s.checkpoint.pendingToolName.value, s.checkpoint.pendingToolArguments);
          assert TakeTurn(config, s, reply, true).executed == s.executed + [call];
        }
      case Answer =>
    }
  }

  lemma CallsTurn(config: Config, replies: Replies, s: Session)
    requires InStep(config, s) && s.checkpoint.approvalDecision.None?
    requires CallsAreThePlanners(config, replies, s) && s.ending.Pending?
    ensures CallsAreThePlanners(config, replies, TakeTurn(config, s, replies(s.turns), true))
  {
    var after := TakeTurn(config, s, replies(s.turns), true);
    if Executes(config, s.checkpoint) {
      var call := ToolCall(s.checkpoint.pendingToolName.value, s.checkpoint.pendingToolArguments);
      assert after.executed == s.executed + [call];
      assert s.turns - 1 == 2 * |s.executed|;
    } else {
      assert after.executed == s.executed;
    }
  }

  lemma ResultsTurn(config: Config, replies: Replies, s: Session)
    requires InStep(config, s) && CleanBeforeAnswer(s.checkpoint)
    requires ResultsAreTheExecutors(replies, s) && s.ending.Pending?
    ensures ResultsAreTheExecutors(replies, TakeTurn(config, s, replies(s.turns), true))
  {
    var after := TakeTurn(config, s, replies(s.turns), true);
    if Executes(config, s.checkpoint) {
      assert |after.executed| == |s.executed| + 1;
      assert s.turns == 2 * |s.checkpoint.toolResults| + 1;
    } else {
      assert after.executed == s.executed && after.checkpoint.toolResults == s.checkpoint.toolResults;
    }
  }

  lemma {:induction false} StreamKeepsInvariant(config: Config, start: Session, replies: Replies, n: nat)
    requires IsStreamStart(start)
    ensures StreamInvariant(config, replies, RunTurns(config, start, replies, n, true))
  {
    if n > 0 {
      StreamKeepsInvariant(config, start, replies, n - 1);
      var before := RunTurns(config, start, replies, n - 1, true);
      if before.ending.Pending? {
        StepTurn(config, before, replies(before.turns));
        CallsTurn(config, replies, before);
        ResultsTurn(config, replies, before);
      }
    }
  }

  lemma {:induction false} TurnsCount(config: Config, start: Session, replies: Replies, n: nat, stops: bool)
    requires start.turns == 0
    ensures var s := RunTurns(config, start, replies, n, stops);
      s.turns <= n && (s.ending.Pending? ==> s.turns == n)
  {
    if n > 0 {
      TurnsCount(config, start, replies, n - 1, stops);
    }
  }

  /** Once the loop has returned, further turns change nothing. */
  lemma {:induction false} EndedStays(config: Config, start: Session, replies: Replies, n: nat, k: nat, stops: bool)
    requires n <= k && !RunTurns(config, start, replies, n, stops).ending.Pending?
    ensures RunTurns(config, start, replies, k, stops) == RunTurns(config, start, replies, n, stops)
    decreases k
  {
    if n < k {
      EndedStays(config, start, replies, n, k - 1, stops);
    }
  }

  /** `stream` ends within 2m+1 advances, plans and executes at most m times, whatever the oracles do. */
  lemma StreamTerminates(config: Config, start: Session, replies: Replies)
    requires IsStreamStart(start)
    ensures var s := RunTurns(config, start, replies, 2 * config.StepLimit() + 1, true);
      && !s.ending.Pending?
      && s.turns <= 2 * config.StepLimit() + 1
      && s.plannerCalls <= config.StepLimit() && |s.executed| <= config.StepLimit()
  {
    StreamKeepsInvariant(config, start, replies, 2 * config.StepLimit() + 1);
    TurnsCount(config, start, replies, 2 * config.StepLimit() + 1, true);
  }

  lemma OneMoreTurn(config: Config, start: Session, replies: Replies, n: nat, before: Session, after: Session)
    requires before == RunTurns(config, start, replies, n, true) && before.ending.Pending?
    requires after == TakeTurn(config, before, replies(before.turns), true)
    ensures after == RunTurns(config, start, replies, n + 1, true)
  {
  }

  lemma StillRunning(config: Config, start: Session, replies: Replies, n: nat)
    requires IsStreamStart(start) && RunTurns(config, start, replies, n, true).ending.Pending?
    ensures n < 2 * config.StepLimit() + 1 && RunTurns(config, start, replies, n, true).turns == n
  {
    StreamTerminates(config, start, replies);
    TurnsCount(config, start, replies, n, true);
    if 2 * config.StepLimit() + 1 <= n {
      EndedStays(config, start, replies, 2 * config.StepLimit() + 1, n, true);
    }
  }

  lemma SameEnd(config: Config, start: Session, replies: Replies, n: nat)
    requires IsStreamStart(start) && !RunTurns(config, start, replies, n, true).ending.Pending?
    ensures RunTurns(config, start, replies, n, true) ==
      RunTurns(config, start, replies, 2 * config.StepLimit() + 1, true)
  {
    StreamTerminates(config, start, replies);
    if n <= 2 * config.StepLimit() + 1 {
      EndedStays(config, start, replies, n, 2 * config.StepLimit() + 1, true);
    } else {
      EndedStays(config, start, replies, 2 * config.StepLimit() + 1, n, true);
    }
  }

  /** `stream` runs only calls the planner asked for, unchanged and in order, never one that needs approval. */
  lemma StreamApprovalGate(config: Config, start: Session, replies: Replies, n: nat, i: nat)
    requires IsStreamStart(start)
    requires i < |RunTurns(config, start, replies, n, true).executed|
    ensures var call := RunTurns(config, start, replies, n, true).executed[i];
      && Planned(replies, 2 * i, call)
      && call.name in config.registry && !config.registry[call.name].approvalRequired
  {
    StreamKeepsInvariant(config, start, replies, n);
  }

  /** Before the answer step there are no tool errors and exactly the executor's results, in order. */
  lemma StreamResults(config: Config, start: Session, replies: Replies, n: nat)
    requires IsStreamStart(start)
    ensures var cp := RunTurns(config, start, replies, n, true).checkpoint;
      && cp.approvalDecision.None?
      && (!cp.pendingAction.Answer? ==> cp.toolErrors == [] && |cp.toolResults| == cp.nextStep - 1)
      && (forall i :: 0 <= i < |cp.toolResults| ==> replies(2 * i + 1).tool == ToolReturned(cp.toolResults[i]))
  {
    StreamKeepsInvariant(config, start, replies, n);
  }

  /** The draft is what the turn before the answer step produced: the planner's answer (even turns)
      or the content of an executed direct-answer tool (odd turns). */
  ghost predicate DraftIsTheLastReply(replies: Replies, s: Session) {
    s.ending.Pending? ==>
      if !s.checkpoint.pendingAction.Answer? then s.checkpoint.draftAnswer == ""
      else
        && s.turns > 0
        && s.checkpoint.draftAnswer == DraftOf(replies(s.turns - 1), s.turns % 2 == 1, 2 * |s.executed| == s.turns)
  }

  function DraftOf(reply: Reply, planTurn: bool, toolRan: bool): string {
    if planTurn then
      if reply.plan.Some? && reply.plan.value.action.Respond? && reply.plan.value.answer.Some? then
          reply.plan.value.answer.value
      else ""
    else if toolRan && reply.tool.ToolReturned? && reply.tool.result.directAnswer then reply.tool.result.content
    else ""
  }

  lemma DraftTurn(config: Config, replies: Replies, s: Session)
    requires InStep(config, s) && s.checkpoint.approvalDecision.None? && DraftIsTheLastReply(replies, s)
             && s.ending.Pending?
    ensures DraftIsTheLastReply(replies, TakeTurn(config, s, replies(s.turns), true))
  {
    match s.checkpoint.pendingAction {
      case Plan =>
      case Tool =>
        if !AwaitsApproval(config, s.checkpoint) {
          ToolProceeds(config, s.checkpoint, replies(s.turns).tool);
        }
      case Answer =>
    }
  }

  lemma {:induction false} StreamKeepsDraft(config: Config, start: Session, replies: Replies, n: nat)
    requires IsStreamStart(start)
    ensures DraftIsTheLastReply(replies, RunTurns(config, start, replies, n, true))
  {
    if n > 0 {
      StreamKeepsDraft(config, start, replies, n - 1);
      StreamKeepsInvariant(config, start, replies, n - 1);
      var before := RunTurns(config, start, replies, n - 1, true);
      if before.ending.Pending? {
        DraftTurn(config, replies, before);
      }
    }
  }

  lemma FinishingTurn(config: Config, before: Session, reply: Reply)
    requires TakeTurn(config, before, reply, true).ending.Finished? && before.ending.Pending?
    ensures before.checkpoint.pendingAction.Answer?
    ensures var s := TakeTurn(config, before, reply, true);
      |s.events| >= 2 && s.events[|s.events| - 2].AssistantMessage? && s.executed == before.executed
      && SaidBy(s.events[|s.events| - 2].content, before.checkpoint.draftAnswer, reply)
  {
    AdvanceMoves(config, before.checkpoint, reply);
    var turn := AfterAnswer(before.checkpoint, reply.answer);
    var s := TakeTurn(config, before, reply, true);
    assert s.events == before.events + turn.outcome.events;
    assert s.events[|s.events| - 2] == turn.outcome.events[0];
  }

  predicate SaidBy(content: string, draft: string, reply: Reply) {
    if draft != "" then content == draft else reply.answer == Some(content)
  }

  /** What the caller of `stream` reads as the answer after n turns. */
  ghost predicate DeliversTheAnswer(replies: Replies, s: Session, n: nat) {
    && n >= 2 && |s.events| >= 2 && s.events[|s.events| - 2].AssistantMessage?
    && SaidBy(s.events[|s.events| - 2].content,
              DraftOf(replies(n - 2), n % 2 == 0, 2 * |s.executed| == n - 1), replies(n - 1))
  }

  lemma FinishingDelivers(config: Config, replies: Replies, before: Session)
    requires before.ending.Pending? && DraftIsTheLastReply(replies, before)
    requires TakeTurn(config, before, replies(before.turns), true).ending.Finished?
    ensures DeliversTheAnswer(replies, TakeTurn(config, before, replies(before.turns), true), before.turns + 1)
  {
    FinishingTurn(config, before, replies(before.turns));
  }

  /** When `stream` finishes, its message is the planner's or the direct tool's answer if that is
      not empty, and otherwise what the answerer said in the last turn. */
  lemma StreamMessage(config: Config, start: Session, replies: Replies, n: nat)
    requires IsStreamStart(start) && n > 0
    requires RunTurns(config, start, replies, n - 1, true).ending.Pending?
    requires RunTurns(config, start, replies, n, true).ending.Finished?
    ensures DeliversTheAnswer(replies, RunTurns(config, start, replies, n, true), n)
  {
    StreamKeepsDraft(config, start, replies, n - 1);
    StillRunning(config, start, replies, n - 1);
    FinishingDelivers(config, replies, RunTurns(config, start, replies, n - 1, true));
  }

  // ---- stream: the grammar of its events ----

  /** Opening (PlannerCompleted ToolRequested ToolCompleted)* and then one way of closing. */
  datatype Phase = Opening | Thinking | Decided | Requested | Observed | ToolLost | Asked | Answered | Closed | Broken

  function Feed(phase: Phase, event: Event): Phase {
    match phase
    case Opening => if event.RunStarted? then Thinking else Broken
    case Thinking => if event.PlannerCompleted? then Decided else Broken
    case Decided =>
      if event.ToolRequested? then Requested
      else if event.ToolFailed? then ToolLost
      else if event.ApprovalRequired? then Asked
      else if event.AssistantMessage? then Answered
      else Broken
    case Requested => if event.ToolCompleted? then Observed else if event.ToolFailed? then ToolLost else Broken
    case Observed => if event.PlannerCompleted? then Decided else if event.AssistantMessage? then Answered else Broken
    case ToolLost => if event.AssistantMessage? then Answered else Broken
    case Asked => if event.RunWaitingApproval? then Closed else Broken
    case Answered => if event.RunCompleted? then Closed else Broken
    case Closed => Broken
    case Broken => Broken
  }

  function Parse(events: seq<Event>): Phase {
    if events == [] then Opening else Feed(Parse(events[..|events| - 1]), events[|events| - 1])
  }

  lemma ParseOne(events: seq<Event>, a: Event)
    ensures Parse(events + [a]) == Feed(Parse(events), a)
  {
    assert (events + [a])[..|events|] == events;
  }

  lemma ParseTwo(events: seq<Event>, a: Event, b: Event)
    ensures Parse(events + [a, b]) == Feed(Feed(Parse(events), a), b)
  {
    ParseOne(events, a);
    ParseOne(events + [a], b);
    assert events + [a, b] == events + [a] + [b];
  }

  ghost predicate PhaseFits(s: Session) {
    var phase := Parse(s.events);
    match s.ending
    case Pending =>
      (match s.checkpoint.pendingAction
       case Plan => phase == (if s.turns == 0 then Thinking else Observed)
       case Tool => phase == Decided
       case Answer => phase in {Decided, Observed, ToolLost})
    case Crashed => phase in {Thinking, Decided, Observed, ToolLost}
    case AwaitingApproval =>
      && phase == Closed && |s.events| >= 2
      && s.events[|s.events| - 2].ApprovalRequired? && s.events[|s.events| - 1].RunWaitingApproval?
    case Finished =>
      && phase == Closed && |s.events| >= 2
      && s.events[|s.events| - 2].AssistantMessage? && s.events[|s.events| - 1].RunCompleted?
  }

  lemma ParseAll(events: seq<Event>, more: seq<Event>)
    requires |more| <= 2
    ensures Parse(events + more) == (
      if |more| == 0 then Parse(events)
      else if |more| == 1 then Feed(Parse(events), more[0])
      else Feed(Feed(Parse(events), more[0]), more[1]))
  {
    if |more| == 0 {
      assert events + more == events;
    } else if |more| == 1 {
      assert more == [more[0]];
      ParseOne(events, more[0]);
    } else {
      assert more == [more[0], more[1]];
      ParseTwo(events, more[0], more[1]);
    }
  }

  lemma PlanGrammar(config: Config, s: Session, reply: Reply)
    requires PhaseFits(s) && s.ending.Pending? && s.checkpoint.pendingAction.Plan?
    ensures PhaseFits(TakeTurn(config, s, reply, true))
  {
    var turn := Advance(config, s.checkpoint, reply);
    if turn.Turned? {
      ParseAll(s.events, turn.outcome.events);
    }
  }

  /** What a tool turn can report, and where it goes next. */
  predicate ToolReport(outcome: StepOutcome) {
    var events, next := outcome.events, outcome.checkpoint.pendingAction;
    && !outcome.completed
    && if outcome.waitingForApproval then
         |events| == 2 && events[0].ApprovalRequired? && events[1].RunWaitingApproval?
       else if |events| == 2 then
         events[0].ToolRequested? && !next.Tool?
             && (events[1].ToolCompleted? || (events[1].ToolFailed? && next.Answer?))
       else
         next.Answer? && (|events| == 0 || (|events| == 1 && events[0].ToolFailed?))
  }

  lemma ToolReports(config: Config, cp: Checkpoint, reply: ToolReply)
    ensures AfterTool(config, cp, reply).Turned? && ToolReport(AfterTool(config, cp, reply).outcome)
  {
  }

  lemma ReportFits(s: Session, outcome: StepOutcome, after: Session)
    requires Parse(s.events) == Decided && ToolReport(outcome)
    requires after.events == s.events + outcome.events && after.checkpoint == outcome.checkpoint && after.turns > 0
    requires after.ending == if outcome.waitingForApproval then AwaitingApproval else Pending
    ensures PhaseFits(after)
  {
    ParseAll(s.events, outcome.events);
  }

  lemma ToolGrammar(config: Config, s: Session, reply: Reply)
    requires PhaseFits(s) && s.ending.Pending? && s.checkpoint.pendingAction.Tool?
    ensures PhaseFits(TakeTurn(config, s, reply, true))
  {
    ToolReports(config, s.checkpoint, reply.tool);
    ReportFits(s, AfterTool(config, s.checkpoint, reply.tool).outcome, TakeTurn(config, s, reply, true));
  }

  lemma AnswerGrammar(config: Config, s: Session, reply: Reply)
    requires PhaseFits(s) && s.ending.Pending? && s.checkpoint.pendingAction.Answer?
    ensures PhaseFits(TakeTurn(config, s, reply, true))
  {
    var turn := Advance(config, s.checkpoint, reply);
    if turn.Turned? {
      ParseAll(s.events, turn.outcome.events);
      var events := TakeTurn(config, s, reply, true).events;
      assert events[|events| - 2] == turn.outcome.events[0] && events[|events| - 1] == turn.outcome.events[1];
    }
  }

  /** Every prefix of `stream`'s events follows the grammar, and the trace is closed exactly when
      `stream` has returned: by the approval pair or by the message/completed pair. */
  lemma {:induction false} StreamGrammar(config: Config, start: Session, replies: Replies, n: nat)
    requires IsStreamStart(start)
    ensures var s := RunTurns(config, start, replies, n, true);
      && PhaseFits(s)
      && Parse(s.events) != Broken
      && (Parse(s.events) == Closed <==> s.ending.AwaitingApproval? || s.ending.Finished?)
  {
    if n == 0 {
      ParseOne([], RunStarted);
      assert [] + [RunStarted] == [RunStarted];
    } else {
      StreamGrammar(config, start, replies, n - 1);
      var before := RunTurns(config, start, replies, n - 1, true);
      if before.ending.Pending? {
        match before.checkpoint.pendingAction {
          case Plan => PlanGrammar(config, before, replies(before.turns));
          case Tool => ToolGrammar(config, before, replies(before.turns));
          case Answer => AnswerGrammar(config, before, replies(before.turns));
        }
      }
    }
  }

  /** A grammatical trace cannot go on once closed, so the closing pair occurs once, at the end. */
  lemma {:induction false} ClosedIsLast(events: seq<Event>, k: nat)
    requires k < |events| && Parse(events[..k]) in {Closed, Broken}
    ensures Parse(events) == Broken
  {
    if k + 1 == |events| {
    } else {
      var init := events[..|events| - 1];
      assert init[..k] == events[..k];
      ClosedIsLast(init, k);
    }
  }

  // ---- resume ----

  ghost predicate ResumeInvariant(config: Config, call: ToolCall, approved: bool, s: Session) {
    var cp := s.checkpoint;
    && (cp.approvalDecision.Some? ==>
          && s.executed == [] && cp.approvalDecision == Some(approved)
          && !cp.pendingAction.Plan?
          && (cp.pendingAction.Tool? ==>
                cp.pendingToolName == Some(call.name) && cp.pendingToolArguments == call.arguments))
    && (!approved ==> s.executed == [] && !cp.pendingAction.Plan?
                      && (cp.pendingAction.Tool? ==> cp.approvalDecision == Some(false)))
    && (forall i :: 0 <= i < |s.executed| ==>
          config.NeedsApproval(s.executed[i].name) ==> i == 0 && approved && s.executed[0] == call)
    && CleanBeforeAnswer(cp)
  }

  lemma ResumeTurn(config: Config, call: ToolCall, approved: bool, s: Session, reply: Reply)
    requires ResumeInvariant(config, call, approved, s) && s.ending.Pending?
    ensures ResumeInvariant(config, call, approved, TakeTurn(config, s, reply, false))
  {
    match s.checkpoint.pendingAction {
      case Plan =>
      case Tool =>
        if !AwaitsApproval(config, s.checkpoint) {
          ToolProceeds(config, s.checkpoint, reply.tool);
        }
      case Answer =>
    }
  }

  lemma {:induction false} ResumeKeepsInvariant(
    config: Config, runId: string, message: string, call: ToolCall, approved: bool, history: seq<Message>,
    replies: Replies, n: nat)
    ensures ResumeInvariant(config, call, approved,
                            RunTurns(config, ResumeStart(runId, message, call, approved, history), replies, n, false))
  {
    if n > 0 {
      ResumeKeepsInvariant(config, runId, message, call, approved, history, replies, n - 1);
      var before := RunTurns(config, ResumeStart(runId, message, call, approved, history), replies, n - 1, false);
      if before.ending.Pending? {
        ResumeTurn(config, call, approved, before, replies(before.turns));
      }
    }
  }

  /** Over any number of turns `resume` runs at most one approval-required call: its first, only if it
      was approved, and exactly the approved one. A rejected call runs nothing at all. */
  lemma ResumeApprovalGate(
    config: Config, runId: string, message: string, call: ToolCall, approved: bool, history: seq<Message>,
    replies: Replies, n: nat)
    ensures var s := RunTurns(config, ResumeStart(runId, message, call, approved, history), replies, n, false);
      && (forall i :: 0 <= i < |s.executed| && config.NeedsApproval(s.executed[i].name) ==>
            i == 0 && approved && s.executed[i] == call)
      && (!approved ==> s.executed == [])
      && (s.checkpoint.pendingAction.Plan? ==> s.checkpoint.approvalDecision.None?)
  {
    ResumeKeepsInvariant(config, runId, message, call, approved, history, replies, n);
  }

  lemma WaitingTurnRepeats(config: Config, s: Session, reply: Reply)
    requires AwaitsApproval(config, s.checkpoint)
    ensures var after := TakeTurn(config, s, reply, false);
      after.ending.Pending? && after.checkpoint == s.checkpoint && after.executed == s.executed
      && |after.events| == |s.events| + 2
  {
    assert s.executed + [] == s.executed;
  }

  predicate SpunFor(s: Session, t: Session, turns: nat) {
    && t.ending.Pending? && t.checkpoint == s.checkpoint && t.executed == s.executed
    && |t.events| == |s.events| + 2 * turns
  }

  /** `resume` does not stop on an approval request: from there on it repeats the request for ever. */
  lemma {:induction false} ResumeSpins(config: Config, start: Session, replies: Replies, n: nat, k: nat)
    requires n <= k
    requires AsksAt(config, start, replies, n)
    ensures SpunFor(RunTurns(config, start, replies, n, false), RunTurns(config, start, replies, k, false), k - n)
    decreases k
  {
    if n < k {
      ResumeSpins(config, start, replies, n, k - 1);
      var before := RunTurns(config, start, replies, k - 1, false);
      WaitingTurnRepeats(config, before, replies(k - 1));
    }
  }

  lemma {:induction false} ResumeCountsDown(
    config: Config, start: Session, replies: Replies, n: nat)
    requires WithinLimit(config, start.checkpoint)
    requires forall k :: 0 <= k < n ==> !AsksAt(config, start, replies, k)
    ensures var s := RunTurns(config, start, replies, n, false);
      WithinLimit(config, s.checkpoint)
      && (s.ending.Pending? ==> TurnsLeft(config, s.checkpoint) + n <= TurnsLeft(config, start.checkpoint))
  {
    if n > 0 {
      ResumeCountsDown(config, start, replies, n - 1);
      var before := RunTurns(config, start, replies, n - 1, false);
      assert !AsksAt(config, start, replies, n - 1);
      if before.ending.Pending? {
        if Advance(config, before.checkpoint, replies(before.turns)).Turned? {
          AdvanceMoves(config, before.checkpoint, replies(before.turns));
        }
      }
    }
  }

  ghost predicate Ends(config: Config, start: Session, replies: Replies) {
    exists n: nat :: !RunTurns(config, start, replies, n, false).ending.Pending?
  }

  predicate AsksAt(config: Config, start: Session, replies: Replies, n: nat) {
    var s := RunTurns(config, start, replies, n, false);
    s.ending.Pending? && AwaitsApproval(config, s.checkpoint)
  }

  ghost predicate Asks(config: Config, start: Session, replies: Replies) {
    exists n: nat :: AsksAt(config, start, replies, n)
  }

  /** `resume` ends, and then within 2m turns, exactly when no turn meets an undecided approval-required tool. */
  lemma ResumeEndsUnlessAsked(
    config: Config, runId: string, message: string, call: ToolCall, approved: bool, history: seq<Message>,
    replies: Replies)
    ensures var start := ResumeStart(runId, message, call, approved, history);
      && (Ends(config, start, replies) <==> !Asks(config, start, replies))
      && (Ends(config, start, replies) ==>
            !RunTurns(config, start, replies, 2 * config.StepLimit(), false).ending.Pending?)
  {
    var start := ResumeStart(runId, message, call, approved, history);
    if Asks(config, start, replies) {
      var n: nat :| AsksAt(config, start, replies, n);
      forall k: nat ensures RunTurns(config, start, replies, k, false).ending.Pending? {
        if k < n {
          if !RunTurns(config, start, replies, k, false).ending.Pending? {
            EndedStays(config, start, replies, k, n, false);
          }
        } else {
          ResumeSpins(config, start, replies, n, k);
        }
      }
    } else {
      var m := 2 * config.StepLimit();
      ResumeCountsDown(config, start, replies, m);
    }
  }

  // ---- A resume that is asked again ----

  const CALL := ToolCall("t", map[])

  /** The tool succeeds, and the planner calls it once more. */
  const ONCE_MORE := Reply(Some(PlanResult(CallTool, "", None, None, Some(CALL))),
                           ToolReturned(ToolResult("t", "", false)), None)

  function OnceMore(): Replies { (_: nat) => ONCE_MORE }

  lemma TwoTurns(config: Config, start: Session, replies: Replies)
    requires start.ending.Pending? && start.turns == 0
    requires TakeTurn(config, start, replies(0), false).ending.Pending?
             && TakeTurn(config, start, replies(0), false).turns == 1
    ensures RunTurns(config, start, replies, 2, false)
         == TakeTurn(config, TakeTurn(config, start, replies(0), false), replies(1), false)
  {
    assert RunTurns(config, start, replies, 0, false) == start;
    assert RunTurns(config, start, replies, 1, false) == TakeTurn(config, start, replies(0), false);
  }

  /** With an approved call of a tool that needs approval and a planner that wants it again, `resume` executes the
      approved call and then repeats its second request for ever. */
  lemma ApprovedResumeSpins(config: Config, k: nat)
    requires config.NeedsApproval("t") && config.StepLimit() > 1 && k >= 2
    ensures var start := ResumeStart("r", "m", CALL, true, []);
      && AsksAt(config, start, OnceMore(), 2) && RunTurns(config, start, OnceMore(), 2, false).executed == [CALL]
      && SpunFor(RunTurns(config, start, OnceMore(), 2, false), RunTurns(config, start, OnceMore(), k, false), k - 2)
  {
    var start := ResumeStart("r", "m", CALL, true, []);
    var first := TakeTurn(config, start, ONCE_MORE, false);
    assert first.checkpoint.pendingAction.Plan? && first.executed == [CALL];
    TwoTurns(config, start, OnceMore());
    ResumeSpins(config, start, OnceMore(), 2, k);
  }
}
