/** The durable run protocol as a transition system: the run store, the dispatch queue, any number of
    workers inside `execute_next_step` (app/services/run_orchestrator.py) and any number of dispatchers
    inside `dispatch_once` (app/services/outbox_service.py). Every `await` on the store or the queue is a
    step of its own, so anything may happen between two of them, a crash included. */
module Protocol {
  import opened Common
  import opened Execution
  import opened StepMachine
  import opened RunRecords
  import opened StoreSpec
  import opened RunQueue

  /** guardedRetry: `schedule_retry` acts on RUNNING runs only, as PostgresRunStore does. */
  datatype Params = Params(config: Config, guardedRetry: bool)

  /** Where a worker is inside `execute_next_step`; a worker not in the map is outside it. */
  datatype Pc =
    | Loaded(runId: string, base: Checkpoint)
    | Missing(runId: string, base: Checkpoint)
    | Computed(runId: string, base: Checkpoint, reply: Reply, outcome: StepOutcome)
    | Publishing(runId: string, events: seq<Event>)

  /** A dispatcher's remaining records; `enqueued`: the first is on the queue but not yet marked. */
  datatype Dispatcher = Dispatcher(batch: seq<nat>, enqueued: bool)

  datatype Commit = Commit(base: Checkpoint, reply: Reply, outcome: StepOutcome)

  /** What the calls so far reported as done. No step reads it. */
  datatype Deed =
    | Created
    | ClaimedRun
    | Committed(commit: Commit)
    | ApprovalOpened
    | ApprovalDecided
    | CanceledIdle
    | RetryPlanned
    | Recovered(kind: Recovery)

  datatype Fact = Fact(runId: string, deed: Deed)

  datatype System = System(
    store: Store,
    queue: Queue,
    workers: map<string, Pc>,
    dispatchers: map<string, Dispatcher>,
    now: int,
    history: seq<Fact>)

  const INITIAL := System(EMPTY_STORE, EMPTY_QUEUE, map[], map[], 0, [])

  datatype Action =
    | Tick(seconds: nat)
    | Create(run: NewRun)
    | Claim(runId: string, workerId: string, leaseSeconds: int)
    | PopAndClaim(workerId: string, leaseSeconds: int)
    | Renew(runId: string, workerId: string, leaseSeconds: int)
    | Release(runId: string, workerId: string)
    | Load(worker: string, runId: string)
    | Check(worker: string)
    | Compute(worker: string, reply: Reply)
    | Save(worker: string, stepId: string)
    | Publish(worker: string)
    | Crash(worker: string)
    | OpenApproval(runId: string, stepId: string, toolName: string, arguments: Arguments)
    | Decide(approvalId: nat, approved: bool)
    | Cancel(runId: string)
    | Retry(runId: string, at: int, code: string, message: string)
    | RecoverBatch(kind: Recovery, limit: nat)
    | List(dispatcher: string, limit: nat)
    | Push(dispatcher: string)
    | Mark(dispatcher: string)
    | Abandon(dispatcher: string)
  {
    /** The calls any client may make on the store. */
    predicate OnRuns() {
      Create? || Claim? || Renew? || Release? || OpenApproval? || Decide? || Cancel? || Retry? || RecoverBatch?
    }

    /** The steps of `execute_next_step`. */
    predicate OfWorker() { Load? || Check? || Compute? || Save? || Publish? || Crash? }
  }

  /** The state after an action; an action that cannot happen changes nothing. */
  function Perform(p: Params, s: System, a: Action): System {
    match a
    case Tick(seconds) => s.(now := s.now + seconds)
    case Create(run) => DoCreate(s, run)
    case Claim(runId, workerId, leaseSeconds) => DoClaim(s, runId, workerId, leaseSeconds)
    case PopAndClaim(workerId, leaseSeconds) => DoPopAndClaim(s, workerId, leaseSeconds)
    case Renew(runId, workerId, leaseSeconds) =>
      s.(store := RenewLease(s.store, runId, workerId, leaseSeconds, s.now).0)
    case Release(runId, workerId) => s.(store := ReleaseLease(s.store, runId, workerId).0)
    case Load(worker, runId) => DoLoad(s, worker, runId)
    case Check(worker) => DoCheck(s, worker)
    case Compute(worker, reply) => DoCompute(p, s, worker, reply)
    case Save(worker, stepId) => DoSave(s, worker, stepId)
    case Publish(worker) => DoPublish(s, worker)
    case Crash(worker) => s.(workers := s.workers - {worker})
    case OpenApproval(runId, stepId, toolName, arguments) => DoOpenApproval(s, runId, stepId, toolName, arguments)
    case Decide(approvalId, approved) => DoDecide(s, approvalId, approved)
    case Cancel(runId) => DoCancel(s, runId)
    case Retry(runId, at, code, message) => DoRetry(p, s, runId, at, code, message)
    case RecoverBatch(kind, limit) => RecoverEach(kind, s, Candidates(kind, s.store, limit, s.now))
    case List(dispatcher, limit) =>
      s.(dispatchers := s.dispatchers[dispatcher := Dispatcher(ListUnpublished(s.store, limit), false)])
    case Push(dispatcher) => DoPush(s, dispatcher)
    case Mark(dispatcher) => DoMark(s, dispatcher)
    case Abandon(dispatcher) => s.(dispatchers := s.dispatchers - {dispatcher})
  }

  /** The state after a whole sequence of actions: every interleaving is such a sequence. */
  function Run(p: Params, actions: seq<Action>): System {
    if actions == [] then INITIAL
    else Perform(p, Run(p, actions[..|actions| - 1]), actions[|actions| - 1])
  }

  function Note(s: System, runId: string, deed: Deed): seq<Fact> { s.history + [Fact(runId, deed)] }

  // ---- Runs and leases ----

  function DoCreate(s: System, run: NewRun): System {
    if run.runId in s.store.runs then s
    else s.(store := CreateRun(s.store, run).0, history := Note(s, run.runId, Created))
  }

  function DoClaim(s: System, runId: string, workerId: string, leaseSeconds: int): System {
    if !CanClaim(s.store, runId, s.now) then s
    else
      s.(store := ClaimRun(s.store, runId, workerId, leaseSeconds, s.now).0, history := Note(s, runId, ClaimedRun))
  }

  /** Taking a message off the queue and `claim_run`, as one step. */
  function DoPopAndClaim(s: System, workerId: string, leaseSeconds: int): System {
    var (queue, popped) := Pop(s.queue);
    if popped.None? then s else DoClaim(s.(queue := queue), popped.value, workerId, leaseSeconds)
  }

  // ---- execute_next_step ----

  function DoLoad(s: System, worker: string, runId: string): System {
    if worker in s.workers || runId !in s.store.runs then s
    else s.(workers := s.workers[worker := Loaded(runId, s.store.runs[runId].Current())])
  }

  /** A completed step under the key ends the call; otherwise the worker goes on to `advance`. */
  function DoCheck(s: System, worker: string): System {
    if worker !in s.workers || !s.workers[worker].Loaded? then s
    else
      var pc := s.workers[worker];
      if GetCompletedStep(s.store, pc.runId, KeyOf(pc.runId, pc.base)).Some? then s.(workers := s.workers - {worker})
      else s.(workers := s.workers[worker := Missing(pc.runId, pc.base)])
  }

  function DoCompute(p: Params, s: System, worker: string, reply: Reply): System {
    if worker !in s.workers || !s.workers[worker].Missing? then s
    else
      var pc := s.workers[worker];
      match Advance(p.config, pc.base, reply)
      case Raised => s.(workers := s.workers - {worker})
      case Turned(outcome, _) => s.(workers := s.workers[worker := Computed(pc.runId, pc.base, reply, outcome)])
  }

  function TargetStatus(outcome: StepOutcome): RunStatus {
    if outcome.waitingForApproval then WaitingApproval else if outcome.completed then Completed else Running
  }

  function StepRow(stepId: string, runId: string, base: Checkpoint, outcome: StepOutcome): StoredStep {
    StoredStep(stepId, runId, base.nextStep, outcome.stepType, StepCompleted, KeyOf(runId, base), outcome.checkpoint,
               StepOutput(outcome.waitingForApproval, outcome.completed, outcome.finalResponse))
  }

  /** This save will be the first under its key. */
  predicate Wins(s: Store, runId: string, base: Checkpoint) {
    runId in s.runs && (runId, KeyOf(runId, base)) !in s.steps
  }

  function DoSave(s: System, worker: string, stepId: string): System {
    if worker !in s.workers || !s.workers[worker].Computed? then s
    else
      var pc := s.workers[worker];
      var store := SaveStep(s.store, StepRow(stepId, pc.runId, pc.base, pc.outcome), TargetStatus(pc.outcome), s.now).0;
      s.(store := store, workers := s.workers[worker := Publishing(pc.runId, pc.outcome.events)],
         history := if Wins(s.store, pc.runId, pc.base) then
                      Note(s, pc.runId, Committed(Commit(pc.base, pc.reply, pc.outcome)))
                    else s.history)
  }

  function DoPublish(s: System, worker: string): System {
    if worker !in s.workers || !s.workers[worker].Publishing? then s
    else
      var pc := s.workers[worker];
      if pc.events == [] then s.(workers := s.workers - {worker})
      else
        s.(store := AppendEvent(s.store, pc.runId, pc.events[0], s.now).0,
           workers := s.workers[worker := Publishing(pc.runId, pc.events[1..])])
  }

  // ---- Approvals, cancellation, retries, recovery ----

  function DoOpenApproval(s: System, runId: string, stepId: string, toolName: string, arguments: Arguments): System {
    if runId !in s.store.runs || !s.store.runs[runId].status.Running? then s
    else
      s.(store := CreatePendingApproval(s.store, runId, stepId, toolName, arguments, s.now).0,
         history := Note(s, runId, ApprovalOpened))
  }

  function DoDecide(s: System, approvalId: nat, approved: bool): System {
    if !CanDecide(s.store, approvalId) then s
    else
      s.(store := DecideApproval(s.store, approvalId, approved, s.now).0,
         history := Note(s, s.store.approvals[approvalId].runId, ApprovalDecided))
  }

  function DoCancel(s: System, runId: string): System {
    if runId !in s.store.runs then s
    else
      var run := s.store.runs[runId];
      s.(store := RequestCancel(s.store, runId, s.now).0,
         history := if run.Terminal() || run.status.Running? then s.history else Note(s, runId, CanceledIdle))
  }

  function DoRetry(p: Params, s: System, runId: string, at: int, code: string, message: string): System {
    if runId !in s.store.runs || (p.guardedRetry && !s.store.runs[runId].status.Running?) then s
    else s.(store := ScheduleRetry(s.store, runId, at, code, message, s.now).0, history := Note(s, runId, RetryPlanned))
  }

  function RecoverOne(kind: Recovery, s: System, runId: string): System {
    if runId !in s.store.runs then s
    else s.(store := Recover(kind, s.store, runId, s.now), history := Note(s, runId, Recovered(kind)))
  }

  function RecoverEach(kind: Recovery, s: System, ids: seq<string>): System {
    if ids == [] then s else RecoverOne(kind, RecoverEach(kind, s, ids[..|ids| - 1]), ids[|ids| - 1])
  }

  /** A recovery action leaves the store exactly as the store's recovery method does. */
  lemma {:induction false} RecoverEachIsTheBatch(kind: Recovery, s: System, ids: seq<string>)
    requires forall id <- ids :: id in s.store.runs
    ensures RecoverEach(kind, s, ids).store == RecoverAll(kind, s.store, ids, s.now)
    ensures var t := RecoverEach(kind, s, ids);
      t.now == s.now && t.queue == s.queue && t.workers == s.workers && t.dispatchers == s.dispatchers
  {
    if ids != [] {
      RecoverEachIsTheBatch(kind, s, ids[..|ids| - 1]);
    }
  }

  // ---- dispatch_once ----

  function DoPush(s: System, dispatcher: string): System {
    if dispatcher !in s.dispatchers then s
    else
      var d := s.dispatchers[dispatcher];
      if d.batch == [] || d.enqueued || |s.store.outbox| <= d.batch[0] then s
      else
        var record := s.store.outbox[d.batch[0]];
        s.(queue := Enqueue(s.queue, record.runId, record.key),
           dispatchers := s.dispatchers[dispatcher := d.(enqueued := true)])
  }

  function DoMark(s: System, dispatcher: string): System {
    if dispatcher !in s.dispatchers then s
    else
      var d := s.dispatchers[dispatcher];
      if d.batch == [] || !d.enqueued then s
      else
        s.(store := MarkPublished(s.store, d.batch[0], s.now).0,
           dispatchers := s.dispatchers[dispatcher := Dispatcher(d.batch[1..], false)])
  }
}
