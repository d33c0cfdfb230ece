/** Concrete runs of the protocol that reach the situations the theorems speak of: a run that waits for approval, a
    session that returns without the last events, and a log with the event of a step that was not committed. */
module Scenarios {
  import opened Common
  import opened Execution
  import opened StepMachine
  import opened RunRecords
  import opened StoreSpec
  import opened RunQueue
  import opened Protocol
  import opened ProgressInvariant
  import opened Guarantees
  import opened Orchestrator
  import opened EventReplay
  import EventStream
  import opened Anomalies

  const RUN := NewRun("r", "s", "m", 0)

  /** The run is created and claimed. */
  function Begun(): seq<Action> { [Create(RUN), Claim("r", "w", 9)] }

  const CLAIMED_RUN := Claimed(FreshRun(RUN), "w", 9, 0)

  ghost predicate Fresh(s: System) {
    && s.store.runs == map["r" := CLAIMED_RUN] && s.store.steps == map[] && s.store.events == map["r" := []]
    && s.store.order == ["r"] && s.workers == map[] && s.now == 0 && Commits(s.history, "r") == []
  }

  lemma Begins(p: Params)
    ensures Fresh(Run(p, Begun())) && Sound(p, Run(p, Begun()))
  {
    var a := Begun();
    Always(p, a);
    RunExtended(p, [], a[0], [a[0]]);
    RunExtended(p, [a[0]], a[1], a);
    var s1 := DoCreate(INITIAL, RUN);
    CreatesIt(INITIAL, s1, INITIAL.history);
    ClaimsIt(s1, DoClaim(s1, "r", "w", 9));
  }

  ghost predicate JustCreated(s: System) {
    && s.store.runs == map["r" := FreshRun(RUN)] && s.store.steps == map[] && s.store.events == map["r" := []]
    && s.store.order == ["r"] && s.workers == map[] && s.now == 0 && Commits(s.history, "r") == []
  }

  lemma CreatesIt(s: System, t: System, none: seq<Fact>)
    requires s == INITIAL && t == DoCreate(s, RUN) && none == s.history
    ensures JustCreated(t)
  {
    CommitsGrow(none, Fact("r", Created), "r");
    assert none + [Fact("r", Created)] == t.history;
  }

  lemma ClaimsIt(s: System, t: System)
    requires JustCreated(s) && t == DoClaim(s, "r", "w", 9)
    ensures Fresh(t)
  {
    assert s.store.runs["r"] == FreshRun(RUN) && CanClaim(s.store, "r", s.now);
    assert t.store == s.store.(runs := s.store.runs["r" := CLAIMED_RUN]);
    CommitsGrow(s.history, Fact("r", ClaimedRun), "r");
  }

  // ---- The first step ----

  function Planned(reply: Reply): StepOutcome
    requires reply.plan.Some?
  {
    AfterPlan(FIRST, reply.plan.value)
  }

  /** One worker has planned, saved and published the first step. */
  ghost predicate FirstStepDone(s: System, reply: Reply)
    requires reply.plan.Some?
  {
    && "r" in s.store.runs && s.store.runs["r"].Current() == Planned(reply).checkpoint && s.workers == map[]
    && "r" in s.store.events && |s.store.events["r"]| == 1 && s.now == 0
    && Commits(s.history, "r") == [Commit(FIRST, reply, Planned(reply))]
  }

  function OneStep(reply: Reply): seq<Action> { Begun() + CallActions("w", "r", reply, "x") }

  lemma FirstStep(p: Params, reply: Reply)
    requires reply.plan.Some?
    ensures FirstStepDone(Run(p, OneStep(reply)), reply) && Sound(p, Run(p, OneStep(reply)))
  {
    var s := Run(p, Begun());
    Begins(p);
    Always(p, OneStep(reply));
    RunThenPerform(p, Begun(), CallActions("w", "r", reply, "x"));
    FirstStepState(p, s, reply);
  }

  lemma FirstStepState(p: Params, s: System, reply: Reply)
    requires Fresh(s) && Sound(p, s) && reply.plan.Some?
    ensures FirstStepDone(PerformAll(p, s, CallActions("w", "r", reply, "x")), reply)
  {
    var outcome := Planned(reply);
    assert s.store.runs["r"].Current() == FIRST;
    CallState(p, s, "w", "r", reply, "x");
    CallCommits(p, s, "w", "r", reply, "x");
    var saved := SaveStep(s.store, StepRow("x", "r", FIRST, outcome), TargetStatus(outcome), s.now).0;
    AppendKeepsRuns(saved, "r", outcome.events, s.now);
    AppendFirst(saved, "r", outcome.events, s.now);
    assert [] + [Commit(FIRST, reply, outcome)] == [Commit(FIRST, reply, outcome)];
  }

  // ---- Waiting for approval ----

  /** The planner asks for the tool t. */
  const ASK := Reply(Some(PlanResult(CallTool, "", None, None, Some(ToolCall("t", map[])))), ToolRaised("", ""), None)

  function Waits(): seq<Action> { OneStep(ASK) + CallActions("w", "r", ASK, "y") }

  /** If t needs approval, the run commits the request and waits: from here on `Guarantees.ApprovalWedge` and
      `Guarantees.StoppedRunSpins` apply. */
  lemma RunWaitsForApproval(p: Params)
    requires p.config.NeedsApproval("t")
    ensures var s := Run(p, Waits()); var cs := Commits(s.history, "r");
      && "r" in s.store.runs && s.store.runs["r"].status.WaitingApproval? && "w" !in s.workers
      && Stopped(cs) && |cs| == 2 && cs[1].outcome.waitingForApproval && !cs[1].outcome.completed
  {
    var s := Run(p, OneStep(ASK));
    FirstStep(p, ASK);
    RunThenPerform(p, OneStep(ASK), CallActions("w", "r", ASK, "y"));
    var base := Planned(ASK).checkpoint;
    assert AwaitsApproval(p.config, base);
    assert Advance(p.config, base, ASK) == AfterTool(p.config, base, ASK.tool);
    CallCommits(p, s, "w", "r", ASK, "y");
  }

  // ---- A session that returns too early ----

  function SavesTheAnswer(): seq<Action> {
    OneStep(REPLY) + [Load("w", "r"), Check("w"), Compute("w", REPLY), Save("w", "y")]
  }

  function PublishesTheAnswer(): seq<Action> { SavesTheAnswer() + [Publish("w"), Publish("w"), Publish("w")] }

  /** COMPLETED, and the last two events are still with the worker. */
  ghost predicate AnswerIsSaved(s: System) {
    && "r" in s.store.runs && s.store.runs["r"].status.Completed? && "r" in s.store.events && |s.store.events["r"]| == 1
    && s.workers == map["w" := Publishing("r", [AssistantMessage("a"), RunCompleted])] && s.now == 0
  }

  lemma AnswerGetsSaved(p: Params)
    ensures AnswerIsSaved(Run(p, SavesTheAnswer()))
  {
    FirstStep(p, REPLY);
    RunThenPerform(p, OneStep(REPLY), [Load("w", "r"), Check("w"), Compute("w", REPLY), Save("w", "y")]);
    AnswerSavedState(p, Run(p, OneStep(REPLY)));
  }

  lemma AnswerSavedState(p: Params, s: System)
    requires FirstStepDone(s, REPLY) && Sound(p, s)
    ensures AnswerIsSaved(PerformAll(p, s, [Load("w", "r"), Check("w"), Compute("w", REPLY), Save("w", "y")]))
  {
    var base := Planned(REPLY).checkpoint;
    var outcome := Advance(p.config, base, REPLY).outcome;
    FourActions(p, s, [Load("w", "r"), Check("w"), Compute("w", REPLY), Save("w", "y")]);
    KeyTakenIffStopped(p.config, s, "r");
    SavedState(p, s, "w", "r", REPLY, "y");
    assert outcome.events == [AssistantMessage("a"), RunCompleted];
    AnswerWritten(s.(workers := s.workers["w" := Computed("r", base, REPLY, outcome)]), base, outcome);
  }

  lemma AnswerWritten(s: System, base: Checkpoint, outcome: StepOutcome)
    requires "r" in s.store.runs && "r" in s.store.events && |s.store.events["r"]| == 1 && s.now == 0
    requires s.workers == map["w" := Computed("r", base, REPLY, outcome)] && Wins(s.store, "r", base)
    requires outcome.completed && !outcome.waitingForApproval && outcome.events == [AssistantMessage("a"), RunCompleted]
    ensures AnswerIsSaved(DoSave(s, "w", "y"))
  {
  }

  /** In the store that does not look at the status, a retry takes the run out of COMPLETED. */
  lemma CompletedRunIsRetried(p: Params)
    requires !p.guardedRetry
    ensures var s := Run(p, SavesTheAnswer()); "r" in s.store.runs && s.store.runs["r"].status.Completed?
    ensures var t := Run(p, SavesTheAnswer() + [Retry("r", 0, "", "")]);
      "r" in t.store.runs && t.store.runs["r"].status.RetryScheduled?
  {
    AnswerGetsSaved(p);
    RunOneMore(p, SavesTheAnswer(), Retry("r", 0, "", ""));
  }

  lemma AnswerGetsPublished(p: Params)
    ensures var s, t := Run(p, SavesTheAnswer()), Run(p, PublishesTheAnswer());
      && "r" in s.store.events && "r" in t.store.events && AnswerFollows(s.store.events["r"], t.store.events["r"])
  {
    var s := Run(p, SavesTheAnswer());
    AnswerGetsSaved(p);
    RunThenPerform(p, SavesTheAnswer(), [Publish("w"), Publish("w"), Publish("w")]);
    PublishesAll(p, s, "w", "r", [AssistantMessage("a"), RunCompleted]);
    AnswerAppended(s.store, s.now);
  }

  /** The later log is the earlier one, the message and the completion. */
  predicate AnswerFollows(log: seq<StoredEvent>, later: seq<StoredEvent>) {
    && |log| == 1 && |later| == 3 && log == later[..1]
    && later[1].event == AssistantMessage("a") && later[2].event == RunCompleted
  }

  lemma AnswerAppended(s: Store, now: int)
    requires "r" in s.runs && "r" in s.events && |s.events["r"]| == 1
    ensures var t := AppendAll(s, "r", [AssistantMessage("a"), RunCompleted], now);
      "r" in t.events && AnswerFollows(s.events["r"], t.events["r"])
  {
    AppendFirst(s, "r", [AssistantMessage("a"), RunCompleted], now);
  }

  /** What a session sees that looks at the run between those two moments. */
  function Between(p: Params): Surroundings
    requires "r" in Run(p, SavesTheAnswer()).store.events && "r" in Run(p, SavesTheAnswer()).store.runs
  {
    var s := Run(p, SavesTheAnswer());
    Surroundings((_: nat) => s.store.events["r"], (_: nat) => s.store.runs["r"].status, (_: nat) => true)
  }

  /** A session that follows the run from the start and looks when its answer has just been saved returns at once, with
      one event of the three: the message and the completion never reach its client. */
  lemma SessionMissesTheAnswer(p: Params)
    ensures var s, t := Run(p, SavesTheAnswer()), Run(p, PublishesTheAnswer());
      && "r" in s.store.events && "r" in s.store.runs && "r" in t.store.events
      && ReturnsAt(Between(p), true, 0)
      && AnswerFollows(EventsIn(Sent(Between(p), -1, 1)), t.store.events["r"])
  {
    AnswerGetsSaved(p);
    AnswerGetsPublished(p);
    EventStream.AlwaysNumbered(p, SavesTheAnswer());
    OneReplay(Between(p), Run(p, SavesTheAnswer()).store.events["r"]);
  }

  // ---- The event of a step that was not committed ----

  /** Another worker's planner answers otherwise. */
  const OTHER := Reply(Some(PlanResult(Respond, "other", None, Some("b"), None)), ToolRaised("", ""), None)

  function Computing(u: string, reply: Reply): seq<Action> { [Load(u, "r"), Check(u), Compute(u, reply)] }

  function Saving(u: string): seq<Action> { [Save(u, "x"), Publish(u), Publish(u), Publish(u)] }

  /** Two workers compute the first step; then one after the other saves and publishes it. */
  function Race(): seq<Action> {
    Begun() + Computing("v", REPLY) + Computing("w", OTHER) + Saving("v") + Saving("w")
  }

  predicate AtFirst(s: System) {
    && "r" in s.store.runs && s.store.runs["r"].Current() == FIRST && ("r", KeyOf("r", FIRST)) !in s.store.steps
    && "r" in s.store.events
  }

  function ComputedFirst(reply: Reply): Pc
    requires reply.plan.Some?
  {
    Computed("r", FIRST, reply, Planned(reply))
  }

  lemma ThreeActions(p: Params, s: System, a: seq<Action>)
    requires |a| == 3
    ensures PerformAll(p, s, a) == Perform(p, Perform(p, Perform(p, s, a[0]), a[1]), a[2])
  {
    assert a[..2][..1] == a[..1] && a[..1][..0] == [];
    assert PerformAll(p, s, a[..1]) == Perform(p, s, a[0]);
    assert PerformAll(p, s, a[..2]) == Perform(p, PerformAll(p, s, a[..1]), a[1]);
  }

  lemma Computes(p: Params, s: System, u: string, reply: Reply)
    requires AtFirst(s) && u !in s.workers && reply.plan.Some?
    ensures PerformAll(p, s, Computing(u, reply)) == s.(workers := s.workers[u := ComputedFirst(reply)])
  {
    ThreeActions(p, s, Computing(u, reply));
    assert DoCheck(DoLoad(s, u, "r"), u).workers == s.workers[u := Missing("r", FIRST)];
    assert Advance(p.config, FIRST, reply) == Turned(Planned(reply), []);
    assert s.workers[u := Missing("r", FIRST)][u := ComputedFirst(reply)] == s.workers[u := ComputedFirst(reply)];
  }

  lemma SavesThenPublishes(p: Params, s: System, u: string, all: seq<Action>)
    requires all == Saving(u)
    ensures PerformAll(p, s, all) == PerformAll(p, DoSave(s, u, "x"), [Publish(u), Publish(u), Publish(u)])
  {
    var first, rest := [Save(u, "x")], [Publish(u), Publish(u), Publish(u)];
    assert first + rest == all;
    PerformSplit(p, s, first, rest);
    PerformExtended(p, s, [], Save(u, "x"), first);
  }

  lemma Saves(p: Params, s: System, u: string, reply: Reply)
    requires u in s.workers && reply.plan.Some? && s.workers[u] == ComputedFirst(reply)
    requires "r" in s.store.runs && "r" in s.store.events
    ensures var t := PerformAll(p, s, Saving(u));
      && t.workers == s.workers - {u} && "r" in t.store.runs && "r" in t.store.events
      && t.store.events["r"] == s.store.events["r"] + [StoredEvent(|s.store.events["r"]|, Planned(reply).events[0],
                                                                   s.now)]
      && t.history == DoSave(s, u, "x").history && ("r", KeyOf("r", FIRST)) in t.store.steps
  {
    var t := DoSave(s, u, "x");
    SavesThenPublishes(p, s, u, Saving(u));
    PublishesAll(p, t, u, "r", Planned(reply).events);
    AppendFirst(t.store, "r", Planned(reply).events, t.now);
    assert t.workers - {u} == s.workers - {u};
  }

  /** Both workers are about to save. */
  ghost predicate Racing(s: System) {
    AtFirst(s) && s.workers == map["v" := ComputedFirst(REPLY), "w" := ComputedFirst(OTHER)]
    && s.store.events["r"] == [] && Commits(s.history, "r") == []
  }

  lemma BothCompute(p: Params, s: System)
    requires Fresh(s)
    ensures Racing(PerformAll(p, PerformAll(p, s, Computing("v", REPLY)), Computing("w", OTHER)))
  {
    Computes(p, s, "v", REPLY);
    Computes(p, s.(workers := s.workers["v" := ComputedFirst(REPLY)]), "w", OTHER);
  }

  /** The second event is that of a step nobody committed. */
  ghost predicate LoserIsInTheLog(s: System) {
    && "r" in s.store.events && |s.store.events["r"]| == 2
    && s.store.events["r"][1].event == PlannerCompleted(false, "other", None, None, 1)
    && Commits(s.history, "r") == [Commit(FIRST, REPLY, Planned(REPLY))]
    && s.store.events["r"][1].event !in Planned(REPLY).events
  }

  lemma BothSave(p: Params, s: System)
    requires Racing(s)
    ensures LoserIsInTheLog(PerformAll(p, PerformAll(p, s, Saving("v")), Saving("w")))
  {
    var t := PerformAll(p, s, Saving("v"));
    Saves(p, s, "v", REPLY);
    CommitsGrow(s.history, Fact("r", Committed(Commit(FIRST, REPLY, Planned(REPLY)))), "r");
    assert [] + [Commit(FIRST, REPLY, Planned(REPLY))] == [Commit(FIRST, REPLY, Planned(REPLY))];
    Saves(p, t, "w", OTHER);
  }

  /** A reachable log that holds the event of a step not in the step table: `Anomalies.LoserStillPublishes` and
      `EventLedger.UncommittedEventIff` say when that happens. */
  lemma LogHoldsALosersEvent(p: Params)
    ensures LoserIsInTheLog(Run(p, Race()))
  {
    var a, b := Begun() + Computing("v", REPLY), Begun() + Computing("v", REPLY) + Computing("w", OTHER);
    Begins(p);
    RunThenPerform(p, Begun(), Computing("v", REPLY));
    RunThenPerform(p, a, Computing("w", OTHER));
    RunThenPerform(p, b, Saving("v"));
    RunThenPerform(p, b + Saving("v"), Saving("w"));
    BothCompute(p, Run(p, Begun()));
    BothSave(p, Run(p, b));
  }
}
