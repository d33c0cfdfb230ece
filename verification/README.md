# A verified model of the agent run platform

Dafny 4.11 models of the durable run protocol, the agent step machine, document chunking and indexing, event delivery
and parent aggregation, with proofs of what they guarantee. `dafny verify dfyconfig.toml` checks all of it; one module
per file, the file named after the module.

**The step machine** (`Execution`, `StepMachine`, `Sessions`, `StreamFacts`, `Runtime`). One `advance` is a function of
a checkpoint and a reply of the planner, the tool executor or the answerer; the replies are arbitrary, an exception
among them. `Runtime` is the class with its branches and loops, proved equal to that function; `Sessions` proves what
whole runs of `stream` and `resume` do; `StreamFacts` reads the checkpoint and the events of every turn off the replies
alone.

**The durable run protocol** (`RunRecords`, `StoreSpec`, `RunStore`, `RunQueue`, `Outbox`, `Protocol`,
`DispatchInvariant`, `ProgressInvariant`, `Ledger`, `EventLedger`, `Guarantees`, `Deadlines`, `DurableApproval`,
`StepRows`, `ToolCalls`, `Cancellation`, `Orchestrator`, `Anomalies`, `LostMessages`, `Scenarios`). Each store method is
one atomic step, as the lock or the transaction makes it. `Protocol.Run` plays any list of actions: clients, any number
of workers that read, check, compute, save and publish in separate steps, dispatchers that list, push and mark in
separate steps, crashes anywhere, and a clock that only goes forward. A theorem about `Run(p, actions)` is one about
every interleaving. The main result is that the idempotency key alone makes `save_step` a compare-and-swap on the
checkpoint: racing, stale and crashed workers still produce one linear execution, the one of the sequential loop
(`Guarantees.DurableRunIsSequential`). `Anomalies`, `LostMessages`, `ToolCalls` and `Cancellation` say exactly what the
protocol does not give, and `Scenarios` reaches such situations with concrete runs.

**The Postgres twin** (`PostgresRunStore`, `PostgresSimulation`, `EarliestFirst`, `PostgresSelections`,
`PostgresDifferences`, `PostgresStamps`, `TwinStores`). The same calls as guarded updates of table rows, exactly which
calls mean the same to both stores, judged before the call for the recovery batches and the outbox listing too, whose
rows a SELECT chooses, histories after which they do not, and the two objects called side by side.

**Events** (`EventReplay`, `EventStream`, `Sse`). Numbering, replay and resumption of event streams over runs of the
whole system, and when a session has sent everything; the printer of server-sent events and the incremental reader in
the browser, for every fragmentation (WHATWG HTML Living Standard, sections 9.2.5 and 9.2.6).

**Documents** (`Text`, `HierarchicalChunking`, `ChunkingCoverage`, `ChunkingOffsets`, `ChunkingSpans`,
`ChunkingExactness`, `ChunkingCuts`, `ChunkingPacking`, `Chunking`, `FlatPacking`, `Indexing`, `VectorPairing`,
`IndexRecords`, `KnowledgeStore`, `DocumentService`). Both splitters lose nothing and every further piece goes on from
the text before it; cuts are made at the last space of the window's second half, and no two neighbouring blocks would
have fitted into one; offsets are right through both levels exactly for texts whose paragraphs stand one blank line
apart; document store and vector store agree under injected faults, and every chunk has the vector returned for its
position; together, for every visible position of a ready document a chunk with a vector shows the text around it.

**Ranking** (`ParentAggregation`, `RankingFacts`). The two accumulation loops compute a declarative ranking: owners,
cards, evidence and scores, each read off the signals.

## Where the code differs from what one might expect

The model follows the code. These are results, each with a lemma.

- `save_step` looks at no status (app/persistence/run_store.py:249-265): a stale worker reopens a canceled run or
  strands a re-queued one, RUNNING without a lease, where no claim and no recovery sees it
  (`Anomalies.CanceledRunIsReopened`, `Anomalies.StaleSaveStrandsTheRun`). `release_lease` looks at none either
  (app/persistence/run_store.py:213-222) and does the same to its owner's RUNNING run; nothing in the application calls
  it. `Anomalies.StrandedExactly` says when a run gets into that state and out of it. The transition table of
  app/agent/state_machine.py:8-24 is not consulted by the stores.
- In-memory `schedule_retry` is unguarded while the Postgres store looks for RUNNING; this is the only way out of
  COMPLETED (`Guarantees.CompletedIsAbsorbing`, `Scenarios.CompletedRunIsRetried`,
  `PostgresSimulation.RetrySimulatedIff`).
- A cancel of a RUNNING run writes a mark and a time that nobody reads; whatever follows is as if it had not been
  requested (`Cancellation.CancelOfRunningIsIgnored`).
- A step is committed at most once, but its tool call runs once for every worker that found the step missing
  (`ToolCalls.CallRunsOncePerWorker`, `ToolCalls.TwoWorkersMiss`).
- A worker whose save loses publishes its events all the same, so the stored log can hold events of steps that were
  never committed (`EventLedger.UncommittedEventIff`, `Scenarios.LogHoldsALosersEvent`).
- `decide_approval` never writes the decision into the checkpoint and the key of the waiting step is committed, so a
  resumed durable run spins (`Guarantees.ApprovalWedge`, `Guarantees.StoppedRunSpins`, `Scenarios.RunWaitsForApproval`).
- `resume` does not stop on a second approval request (`Sessions.ResumeSpins`, `Sessions.ResumeEndsUnlessAsked`,
  `Sessions.ApprovedResumeSpins`).
- An event session may return on a terminal status before the run's last events are stored
  (`EventStream.SessionIsCompleteIff`, `Scenarios.SessionMissesTheAnswer`).
- In-memory `create_pending_approval` refuses a run that is not RUNNING; the Postgres store inserts the approval all the
  same (`PostgresSimulation.AskSimulatedIff`, `PostgresDifferences.AskDiffers`).
- The Postgres store lists unpublished records by creation time, the in-memory store by insertion
  (`PostgresSelections.ListingsAgreeIff`, `PostgresDifferences.ListingDiffers`).
- The Postgres store recovers runs by the end of their lease or the time of their retry
  (app/persistence/postgres_run_store.py:408,439), the in-memory store by insertion, so under a limit they may recover
  different runs (`PostgresSelections.BatchesAgreeIff`, `PostgresDifferences.BatchDiffers`).
- Offsets do not name the content of blocks that join paragraphs further than one blank line apart
  (`ChunkingExactness.OffsetsAreExactlyForNormalisedText`, `ChunkingExactness.WideBlockIsNotItsSlice`).
- A reindex that does not clear the vector store leaves the vectors of replaced chunks behind
  (`Indexing.NotClearingKeepsExactIff`, `Indexing.NotClearingFails`).
- A reported vector or BM25 score of zero counts as none, so a later negative score replaces it
  (`ParentAggregation.ReportedScoreIsMaximumIff`, `ParentAggregation.ReportedScoreDependsOnOrder`). The retriever passes
  positive scores only: vector matches of at least 0.05 (app/rag/vector_store.py:94) and BM25 scores above zero before
  rounding (app/rag/bm25.py:35-47).

## Model

| member | source | states |
|---|---|---|
| `StepMachine.AdvanceMoves` | app/agent/runtime.py:63-224 | a turn that reaches a boundary keeps the checkpoint (waiting) or ends at the answer step (completed); any other turn strictly increases (next_step, plan < tool < answer) and uses up at least one of the turns left |
| `StepMachine.ToolProceeds` | app/agent/runtime.py:114-203 | a tool step that does not wait for approval always goes on, to the next plan or to the answer step, with the pending tool and its decision cleared |
| `StepMachine.AdvanceKeepsConversation` | app/agent/runtime.py:63-224 | no turn changes the run, session, message or history of a checkpoint |
| `Runtime.AgentRuntime.AdvanceStep` | app/agent/runtime.py:63-70 | one advance is the step function of checkpoint and reply, and the executed calls grow by what that turn runs |
| `Runtime.AgentRuntime.AdvancePlan` | app/agent/runtime.py:72-112 | the plan step, branch by branch, is the specified turn, planner error included |
| `Runtime.AgentRuntime.AdvanceTool` | app/agent/runtime.py:114-203 | the tool step, branch by branch, is the specified turn: missing tool, approval request, decision, executor error and result |
| `Runtime.AgentRuntime.ExecuteTool` | app/agent/runtime.py:280-316 | the executor is called once with the given name and arguments, and the events are those of its reply |
| `Runtime.AgentRuntime.AdvanceAnswer` | app/agent/runtime.py:205-224 | the answer step is the specified turn |
| `Runtime.AgentRuntime.Stream` | app/agent/runtime.py:34-61 | the loop of `stream` ends, and what it leaves is the run of the step machine up to its end |
| `Runtime.AgentRuntime.Resume` | app/agent/runtime.py:226-261 | the loop of `resume`, watched for a number of turns, is the run of the step machine from the prepared checkpoint |
| `Sessions.StreamTerminates` | app/agent/runtime.py:34-61 | for every planner, executor and answerer `stream` returns within 2m+1 advances, with at most m planner calls and m tool executions (m = max(1, max_tool_steps)) |
| `Sessions.SameEnd` | app/agent/runtime.py:34-61 | however long one watches, a `stream` that has returned is the one after 2m+1 turns |
| `Sessions.StreamApprovalGate` | app/agent/runtime.py:138-160 | `stream` executes only calls the planner asked for, unchanged and in order, and never a tool that requires approval |
| `Sessions.StreamResults` | app/agent/runtime.py:72-203 | at every turn there is no approval decision; before the answer step there are no tool errors and exactly next_step - 1 results, which are the executor's, in order |
| `StreamFacts.StreamCheckpoint` | app/agent/runtime.py:72-203 | at every turn, the answer step and the ended session included, the checkpoint holds exactly the results that the executed calls returned, each and in order; the answer step carries exactly the error or the draft that the last plan or its tool caused, the step limit among them; the planner is asked again only after a returned result that is no direct answer and with steps to spare; a wait is for the call the last plan asked for |
| `StreamFacts.StreamTrace` | app/agent/runtime.py:34-224 | the events of every prefix of `stream`, read off the replies: what each plan said, which call was made with which arguments and what came of it, which tool is unknown, which call waits with which risk level, and the closing message |
| `StreamFacts.RejectedResume` | app/agent/runtime.py:160-166 | a rejected call is not made: the answer step follows with the rejection as its only error and nothing pending |
| `StreamFacts.ApprovedResume` | app/agent/runtime.py:168-203 | an approved call is made at once as the first step; its result or error, and the step limit, decide what follows |
| `Sessions.StreamMessage` | app/agent/runtime.py:205-224 | when `stream` finishes, its message is the planner's or direct tool's answer if not empty, else the answerer's, and it is the last but one event |
| `Sessions.StreamGrammar` | app/agent/runtime.py:34-224 | every prefix of the event trace fits the grammar, and it is closed, by the approval pair or the message/completed pair, exactly when `stream` has returned |
| `Sessions.ClosedIsLast` | app/agent/runtime.py:34-224 | a trace that goes on after its closing pair is not grammatical: the pair occurs once, at the end |
| `Sessions.ResumeApprovalGate` | app/agent/runtime.py:226-271 | over any number of turns `resume` executes at most one tool that requires approval: its first call, only if approved, with the approved name and arguments; a rejected call executes nothing; no decision is left at a plan step |
| `Sessions.ResumeSpins` | app/agent/runtime.py:251-261 | `resume` does not stop on a second approval request: from there every turn repeats the request and changes nothing else |
| `Sessions.ApprovedResumeSpins` | app/agent/runtime.py:251-261 | a concrete resume that executes its approved call, is asked again and then spins |
| `Sessions.ResumeEndsUnlessAsked` | app/agent/runtime.py:226-261 | `resume` ends, and then within 2m turns, if and only if no turn meets a tool that requires approval without a decision |
| `RunRecords.DispatchTextInjective` | app/persistence/run_store.py:473-487 | two dispatch keys with the same text have the same run and version, even when run ids contain colons |
| `RunRecords.StepTextInjective` | app/services/run_orchestrator.py:121-131 | within a run, an idempotency key determines the step number and the step type |
| `StoreSpec.Candidates` | app/persistence/run_store.py:379-420 | every candidate of a recovery pass is a stored run that is due |
| `StoreSpec.CandidatesDistinct` | app/persistence/run_store.py:379-420 | a recovery pass never meets a run twice |
| `RunStore.InMemoryRunStore.CreateRunWithOutbox` | app/persistence/run_store.py:143-164 | the new run, its empty event list and its first dispatch record, or an error that changes nothing |
| `RunStore.InMemoryRunStore.GetRun` | app/persistence/run_store.py:166-171 | the run or the missing-run error |
| `RunStore.InMemoryRunStore.ClaimRun` | app/persistence/run_store.py:173-196 | RUNNING with the worker's lease and one more version, exactly when the run is claimable and its lease free; else nothing changes |
| `RunStore.InMemoryRunStore.RenewLease` | app/persistence/run_store.py:198-211 | the owner of a RUNNING run, and nobody else, extends its lease |
| `RunStore.InMemoryRunStore.ReleaseLease` | app/persistence/run_store.py:213-222 | the owner, and nobody else, gives the lease up |
| `RunStore.InMemoryRunStore.GetCompletedStep` | app/persistence/run_store.py:224-231 | the step under that key if it is completed |
| `RunStore.InMemoryRunStore.SaveStep` | app/persistence/run_store.py:244-266 | a new key commits the step and moves the run, whatever its status; a known key changes nothing |
| `RunStore.InMemoryRunStore.CreatePendingApproval` | app/persistence/run_store.py:268-301 | only a RUNNING run waits for approval; both errors change nothing |
| `RunStore.InMemoryRunStore.DecideApproval` | app/persistence/run_store.py:303-326 | a pending approval of a waiting run is decided and the run queued under a new version with its dispatch record |
| `RunStore.InMemoryRunStore.RequestCancel` | app/persistence/run_store.py:328-349 | a terminal run is left alone, a RUNNING one marked, any other canceled |
| `RunStore.InMemoryRunStore.ScheduleRetry` | app/persistence/run_store.py:351-377 | the retry is scheduled whatever the run's status |
| `RunStore.InMemoryRunStore.RequeueExpiredLeasesWithOutbox` | app/persistence/run_store.py:379-403 | the first due runs go back to QUEUED, each with a new version, one more attempt and its dispatch record |
| `RunStore.InMemoryRunStore.RequeueDueRetriesWithOutbox` | app/persistence/run_store.py:405-427 | the first due retries go back to QUEUED, each with a new version and its dispatch record |
| `RunStore.InMemoryRunStore.SelectCandidates` | app/persistence/run_store.py:381-388 | the first `limit` due runs in insertion order |
| `RunStore.InMemoryRunStore.AppendEvent` | app/persistence/run_store.py:429-443 | the event goes to the end under the next number |
| `RunStore.InMemoryRunStore.ListEvents` | app/persistence/run_store.py:445-453 | the first `limit` events after the given number |
| `RunStore.InMemoryRunStore.ListUnpublishedOutbox` | app/persistence/run_store.py:455-461 | the first `limit` unpublished records in insertion order |
| `RunStore.InMemoryRunStore.MarkOutboxPublished` | app/persistence/run_store.py:463-471 | an unpublished record is marked once |
| `RunStore.InMemoryRunStore.AddDispatchOutbox` | app/persistence/run_store.py:473-487 | a dispatch record is added unless one has its key |
| `RunQueue.InMemoryRunQueue.EnqueueRun` | app/queue/run_queue.py:16-20 | a message goes to the end unless its key was seen before |
| `RunQueue.InMemoryRunQueue.PopRun` | app/queue/run_queue.py:22-23 | the first message leaves the queue; its key stays known |
| `RunQueue.FirstInFirstOut` | app/queue/run_queue.py:11-23 | over any calls, what was popped and what is pending are exactly the messages whose key was new, first in, first out |
| `Outbox.OutboxService.DispatchOnce` | app/services/outbox_service.py:10-20 | the listed records are enqueued, then marked, one after the other, and counted |
| `Outbox.DispatchPublishes` | app/services/outbox_service.py:10-20 | after a pass every listed record is published and its key known to the queue, and nothing else in the store has changed |
| `Outbox.DispatchQueues` | app/services/outbox_service.py:10-20 | the listed records whose keys are new go to the end of the queue in order, each as its own run |
| `Protocol.RecoverEachIsTheBatch` | app/persistence/run_store.py:379-427 | reporting recoveries one by one leaves the store the recovery batch leaves |
| `DispatchInvariant.DispatchIsNew` | app/persistence/run_store.py:473-487 | the duplicate check never swallows a dispatch: the key of a run's next version is in no record |
| `DispatchInvariant.ClaimableIsEnough` | app/persistence/run_store.py:173-196 | in a state with whole leases only on RUNNING runs, a claim succeeds exactly on QUEUED and RETRY_SCHEDULED runs |
| `DispatchInvariant.DispatchStep` | app/persistence/run_store.py:143-487 | every action keeps the outbox keys distinct and not ahead of their runs, leases whole and only on RUNNING runs, published records enqueued, and every QUEUED run to be woken |
| `ProgressInvariant.SaveIsCompareAndSwap` | app/persistence/run_store.py:244-266 | in every invariant state a worker's save wins exactly when the checkpoint it computed from is still the current one and the run has not stopped |
| `ProgressInvariant.KeyTakenIffStopped` | app/services/run_orchestrator.py:45-63 | the key of the current checkpoint is committed exactly when the last committed outcome waits or completes |
| `ProgressInvariant.ProgressStep` | app/services/run_orchestrator.py:45-111 | every action of every client, worker and dispatcher keeps the chain of committed steps linear and genuine |
| `Ledger.LedgerStep` | app/persistence/run_store.py:143-443 | every action keeps the counts in balance |
| `Guarantees.Always` | app/persistence/run_store.py:143-487 | all invariants hold after every sequence of actions |
| `Guarantees.DurableRunIsSequential` | app/services/run_orchestrator.py:45-111 | for any interleaving of any number of workers, stale and crashed ones included, the committed steps of a run are the sequential `stream` loop on the same replies: same checkpoint, number of turns, ending and events of the steps (for the stored log see `EventLedger.LogIsItsAttempts`) |
| `Guarantees.StepTableIsTheChain` | app/persistence/run_store.py:244-266 | the step table of a run holds exactly its committed steps, each under the key of the checkpoint it replaced, all keys distinct, at most 2m+1 of them |
| `StepRows.RowsTell` | app/services/run_orchestrator.py:70-94 | in every reachable state the row of every committed step tells its number, its type, the checkpoint it led to, whether it waits or completes, and the response its message event carries |
| `Guarantees.BoundaryMeansCommittedKey` | app/services/run_orchestrator.py:52-63 | in every reachable state the current checkpoint's key is committed if and only if the last committed step waits for approval or completes |
| `Guarantees.CommitsAppend` | app/persistence/run_store.py:244-266 | an action adds at most one committed step to a run, and none to one that has stopped |
| `Guarantees.StoppedIsFinal` | app/services/run_orchestrator.py:45-111 | once a run has stopped, nothing that happens afterwards commits a step or moves its checkpoint |
| `Guarantees.ApprovalWedge` | app/services/run_orchestrator.py:45-119 | a durable run that committed an approval request never becomes COMPLETED, whatever is decided and however often it is resumed |
| `Guarantees.StoppedRunSpins` | app/services/run_orchestrator.py:52-63 | a worker that resumes a stopped run finds the step done and leaves the whole system as it was: `run_to_boundary` goes round for ever |
| `Guarantees.TerminalUnlessReopened` | app/persistence/run_store.py:244-377 | a terminal run is left untouched by every action except a winning stale save and an unguarded retry, and those two do reopen it |
| `Guarantees.CompletedIsAbsorbing` | app/persistence/run_store.py:244-377 | COMPLETED is left if and only if a retry is scheduled in the store that does not look at the status; with the guard of the Postgres store it is absorbing |
| `Deadlines.ClaimHoldsForTheLease` | app/persistence/run_store.py:173-403 | in every reachable state a claimed run is its worker's for the seconds of the lease: a recovery d seconds later takes it back, with one more version and attempt, if and only if d is more than the lease |
| `Deadlines.RenewalStartsAgain` | app/persistence/run_store.py:198-211 | a renewal by the owner of a RUNNING run starts the lease again, with the same recovery |
| `Deadlines.RetryWaitsForItsTime` | app/persistence/run_store.py:351-427 | a scheduled retry waits with its error, and a recovery queues it again if and only if its time has come |
| `Scenarios.CompletedRunIsRetried` | app/persistence/run_store.py:351-377 | a concrete run that is COMPLETED and, after a retry in the store without the guard, RETRY_SCHEDULED |
| `Guarantees.NoLostWakeUp` | app/persistence/run_store.py:143-427 | in every reachable state a QUEUED run is on the queue, or the dispatch record of its current version is unpublished and its key was never enqueued |
| `Guarantees.DispatchKeysUsedOnce` | app/services/outbox_service.py:10-20 | dispatch keys are distinct as texts, published implies enqueued, and each key is pushed at most once however often dispatch crashes and reruns |
| `Guarantees.ClaimNeedsOnlyStatus` | app/persistence/run_store.py:173-222 | lease owner and expiry are set together and only on RUNNING runs, so a claim succeeds exactly on QUEUED and RETRY_SCHEDULED runs |
| `Guarantees.RecoveryTakesOnlyTheDue` | app/persistence/run_store.py:379-427 | recovery changes only runs whose lease has expired or whose retry is due |
| `Guarantees.HistoryIsConserved` | app/persistence/run_store.py:143-427 | a run's version is the number of its claims, steps, approvals, decisions, cancels, retries and recoveries; its attempts are the expired leases; its dispatch records are 1 + decisions + recoveries; its claims are at most 1 + expiries + retries + decisions |
| `Anomalies.StaleStateIsReachable` | app/persistence/run_store.py:379-403 | a concrete run in which a worker's lease expires between computing and saving and the run is queued again |
| `Anomalies.CanceledRunIsReopened` | app/persistence/run_store.py:249-265 | a canceled run made RUNNING by a stale worker's save |
| `Anomalies.StrandedIff` | app/persistence/run_store.py:173-427 | a run is RUNNING and out of reach of every claim and recovery, at any time, if and only if it is RUNNING without a lease |
| `Anomalies.StrandedExactly` | app/persistence/run_store.py:173-427 | in every reachable state an action strands a run if and only if it is a winning save that goes on with a run without a lease, or the release by the owner of a RUNNING run; and a stranded run leaves that state if and only if a save stops it, a retry is scheduled or an approval is asked for |
| `Anomalies.StaleSaveStrandsTheRun` | app/persistence/run_store.py:249-265 | a concrete run that a stale worker's save leaves stranded |
| `Anomalies.ReleaseStrandsTheRun` | app/persistence/run_store.py:213-222 | a concrete run that its owner's release leaves stranded |
| `Anomalies.LoserStillPublishes` | app/services/run_orchestrator.py:79-111 | a worker's save and publishing append all events of its step to the log; the step is committed if and only if the worker's checkpoint was still the current one and the run had not stopped |
| `EventLedger.EntryStep` | app/services/run_orchestrator.py:45-111 | every action keeps the account of whose event each event in the log is |
| `EventLedger.LogIsItsAttempts` | app/services/run_orchestrator.py:45-111 | in every reachable state the stored log of a run is an interleaving of prefixes of the events of its save attempts, each attempt's in order; the attempts that won are the committed steps |
| `EventLedger.UncommittedEventIff` | app/services/run_orchestrator.py:79-111 | an event in the stored log is that of an uncommitted step if and only if, at the save of its attempt, the worker's checkpoint was no longer the current one or the run had stopped |
| `Scenarios.LogHoldsALosersEvent` | app/services/run_orchestrator.py:79-111 | a concrete run of two workers whose log holds the event of a step that was not committed |
| `LostMessages.PopWithoutClaimIff` | app/queue/run_queue.py:22-23 | in every reachable state a pop without a claim leaves a QUEUED run awake if and only if the run is further down the queue or its current dispatch is unpublished and was never enqueued, and loses it if and only if it is not further down and all its unpublished records were enqueued |
| `LostMessages.LostStays` | app/services/outbox_service.py:10-20 | no dispatch, and nothing else that leaves the run itself unchanged, brings a lost run back |
| `LostMessages.PopLosesTheRun` | app/queue/run_queue.py:22-23 | a concrete run, created and dispatched, that a pop without a claim loses |
| `DurableApproval.UndecidedStep` | app/services/run_orchestrator.py:45-111 | every action keeps stored checkpoints, and those that workers hold, free of approval decisions |
| `DurableApproval.DurableApprovalGate` | app/services/run_orchestrator.py:45-77 | no worker, stale or losing ones included, ever hands a tool that requires approval to the executor; what it hands over is the pending call |
| `Scenarios.RunWaitsForApproval` | app/services/run_orchestrator.py:45-119 | a concrete run that commits an approval request, from which the wedge and the spinning follow |
| `ToolCalls.CallRunsOncePerWorker` | app/services/run_orchestrator.py:45-111 | from any reachable state in which two workers have found the step of the same checkpoint missing, both hand its tool call to the executor, while at most one of them commits the step: the save of the second changes nothing |
| `ToolCalls.TwoWorkersMiss` | app/services/run_orchestrator.py:52-70 | a concrete run that brings two workers to that point |
| `Cancellation.StepAlike` | app/persistence/run_store.py:143-487 | no action of anybody tells apart two states that differ only in the cancel marks and change times of their runs |
| `Cancellation.CancelOfRunningIsIgnored` | app/persistence/run_store.py:328-349 | a cancel of a RUNNING run in any reachable state changes nothing that any later actions do: every run, log, record, message and worker is then as without it, up to the mark and the time of change |
| `Orchestrator.RunOrchestrator.ClaimForWork` | app/services/run_orchestrator.py:37-43 | claims exactly when the store lets it |
| `Orchestrator.RunOrchestrator.ExecuteNextStep` | app/services/run_orchestrator.py:45-111 | undisturbed, one call is: read, return the step if done, else advance, save, publish |
| `Orchestrator.RunOrchestrator.SaveOutcome` | app/services/run_orchestrator.py:70-111 | the step is saved under its key with the target status of its outcome, then its events are appended in order |
| `Orchestrator.RunOrchestrator.RunToBoundary` | app/services/run_orchestrator.py:113-119 | without a claim nothing happens; with one, from any reachable state with an idle worker and watched for any number of rounds: a run that has stopped only gets the claim and the call does not return; any other is driven by calls of `execute_next_step`, each committing one step, and the call returns exactly when the last of them waits or completes, or is left by the exception of the next one |
| `Orchestrator.RoundsDrive` | app/services/run_orchestrator.py:113-119 | the loop, cut after any number of rounds, leaves the store of the protocol after the claim and those calls |
| `Orchestrator.DrivenToBoundary` | app/services/run_orchestrator.py:113-119 | watched for 2m+1 rounds with oracles that do not raise, the call returns and leaves the run WAITING_APPROVAL or COMPLETED |
| `Orchestrator.CallCommits` | app/services/run_orchestrator.py:45-111 | the actions of one undisturbed call take the transition system where `execute_next_step` takes the store |
| `Orchestrator.LoneWorkerReachesBoundary` | app/services/run_orchestrator.py:113-119 | from any reachable state, the one just after the claim that `run_to_boundary` makes first among them, a worker left alone whose oracles do not raise brings a run that has not stopped to WAITING_APPROVAL or COMPLETED within 2m+1 calls of `execute_next_step`; the claim itself is not one of these calls |
| `EventStream.AlwaysNumbered` | app/persistence/run_store.py:429-443 | in every reachable state the stored numbers of every run are 0, 1, 2, ... |
| `StoreSpec.NextNumberIsTheLength` | app/persistence/postgres_run_store.py:469-473 | greatest number + 1 and length give the same next number |
| `EventReplay.ReplayIsASlice` | app/services/event_stream_service.py:24-32 | from any cursor a replay delivers the slice after it, of at most 200 events, and moves the cursor to its end; a cursor at or beyond the end of the log gets nothing and stays |
| `EventReplay.ReplayCatchesUpIff` | app/services/event_stream_service.py:24-32 | a replay leaves nothing newer behind if and only if at most 200 events were newer than the cursor |
| `EventReplay.DeliveriesAreContiguous` | app/services/event_stream_service.py:16-51 | replays against a growing log, from any cursor, deliver one contiguous slice: no gap, no duplicate, no reordering; nothing until the log passes the cursor |
| `EventReplay.DeliveredAllIff` | app/services/event_stream_service.py:16-51 | the replays have delivered all of a later log if and only if at most 200 events were waiting at the last of them and none was appended since |
| `EventReplay.ResumedSession` | app/services/event_stream_service.py:16-51 | a session resumed from the last delivered id carries on as if never interrupted |
| `EventStream.ReplayAcrossSessions` | app/services/event_stream_service.py:16-51 | in every run of the whole system, replays at any moments in any number of sessions, from any cursor, deliver one contiguous slice of the final log |
| `EventStream.SessionIsCompleteIff` | app/services/event_stream_service.py:16-51 | in every run of the whole system, what a session has sent when it returns is everything newer than its starting cursor in the final log if and only if at most 200 events were waiting at its last replay and none was appended after that |
| `EventStream.CompletedBeforeItsEvents` | app/services/run_orchestrator.py:79-111 | whenever an answer step is saved the run is COMPLETED while its last two events are still to be appended |
| `Scenarios.SessionMissesTheAnswer` | app/services/event_stream_service.py:35-39 | a concrete run in which a session looks at that moment, returns at once and never sends the message and the completion |
| `EventReplay.EventStreamService.Replay` | app/services/event_stream_service.py:24-36 | one more replay: its events are sent after what was sent before, and the cursor moves to the last of them |
| `EventReplay.SentIsDelivered` | app/services/event_stream_service.py:16-51 | keep-alives apart, what a session has sent is what its replays deliver |
| `EventReplay.KeepAlivesAreTimeouts` | app/services/event_stream_service.py:41-51 | a session sends a keep-alive for every wait that ended without news, and no other |
| `EventReplay.EventStreamService.Stream` | app/services/event_stream_service.py:16-51 | the session returns exactly at its first look that finds a terminal status (at its first look without following), and has then sent, keep-alives included, exactly what its replays up to that look send |
| `Sse.StreamChat` | app/ui/app.js:494-518 | for every list of events and keep-alives and every fragmentation of its printed text into reads, exactly the payloads are delivered, in order, and the buffer ends empty; on any text the result depends only on the whole text |
| `Sse.ConsumeBlocks` | app/ui/app.js:502-508 | the inner loop consumes exactly the complete blocks and leaves the rest |
| `Sse.BlocksSplit` | app/ui/app.js:500-508 | reading a text in two parts finds the blocks of the whole text |
| `Sse.FrameDelivers` | app/ui/app.js:520-532 | the reader gets back exactly the payload of a frame, and nothing for a keep-alive |
| `Sse.TrimIs` | app/ui/app.js:520-532 | trimming takes away white space at both ends, all of it and nothing else |
| `Sse.OtherLinesSkipped` | app/ui/app.js:520-532 | a line that is no data line is passed over wherever it stands in a block |
| `Sse.TwoDataLines` | app/ui/app.js:520-532 | two data lines are handed over as one text with a line feed between them |
| `Sse.StoredFrameLines` | app/api/sse.py:12-25 | a stored frame is the three lines of its number, type and payload, and the number that a client sends back as Last-Event-ID reads back as the event's sequence number |
| `Sse.EncodedBlocks` | app/api/sse.py:7-29 | the blocks of an encoded list are its frames, with nothing left over |
| `Sse.RoundTrip` | app/api/sse.py:7-29 | reading the printed text of a list of events and keep-alives gives exactly the payloads in order, with nothing left over |
| `PostgresRunStore.PostgresRunStore.CreateRunWithOutbox` | app/persistence/postgres_run_store.py:59-86 | both inserts, or neither when a unique key is taken |
| `PostgresRunStore.PostgresRunStore.ClaimRun` | app/persistence/postgres_run_store.py:95-121 | the guarded update and its returned row |
| `PostgresRunStore.PostgresRunStore.RenewLease` | app/persistence/postgres_run_store.py:123-137 | one row is updated exactly for the owner of a RUNNING run |
| `PostgresRunStore.PostgresRunStore.ReleaseLease` | app/persistence/postgres_run_store.py:139-148 | one row is updated exactly for the owner |
| `PostgresRunStore.PostgresRunStore.SaveStep` | app/persistence/postgres_run_store.py:196-240 | the run is updated only if the step row went in |
| `PostgresRunStore.PostgresRunStore.CreatePendingApproval` | app/persistence/postgres_run_store.py:242-283 | the approval row goes in whatever the status; only a RUNNING run is updated |
| `PostgresRunStore.PostgresRunStore.DecideApproval` | app/persistence/postgres_run_store.py:285-341 | decision, re-queue and dispatch record in one transaction, or nothing |
| `PostgresRunStore.PostgresRunStore.RequestCancel` | app/persistence/postgres_run_store.py:343-372 | a final run is left alone, a RUNNING one marked, any other canceled and completed |
| `PostgresRunStore.PostgresRunStore.ScheduleRetry` | app/persistence/postgres_run_store.py:374-398 | only a RUNNING run is updated |
| `PostgresRunStore.PostgresRunStore.Requeue` | app/persistence/postgres_run_store.py:400-456 | the loop over the selected rows, with the versions read by the SELECT, recovers each row once |
| `PostgresRunStore.PostgresRunStore.AppendEvent` | app/persistence/postgres_run_store.py:458-488 | the event row goes in under the greatest number + 1 |
| `PostgresRunStore.PostgresRunStore.InsertDispatchOutbox` | app/persistence/postgres_run_store.py:566-587 | a dispatch row goes in unless its key is there |
| `PostgresRunStore.PostgresRunStore.MarkOutboxPublished` | app/persistence/postgres_run_store.py:534-543 | an unpublished row is marked once |
| `PostgresRunStore.RowAfter` | app/persistence/postgres_run_store.py:400-456 | a recovery loop changes each selected row once and no other |
| `PostgresSimulation.AddIsInsert` | app/persistence/postgres_run_store.py:566-587 | the in-memory duplicate check is an insert that does nothing on conflict |
| `PostgresSimulation.MarkIsUpdate` | app/persistence/postgres_run_store.py:534-543 | marking a record by position is updating the row with its key |
| `PostgresSimulation.OrderDoesNotMatter` | app/persistence/postgres_run_store.py:400-456 | the same rows recovered in any order leave the same tables |
| `PostgresSimulation.BatchSimulatedIff` | app/persistence/postgres_run_store.py:400-456 | for the rows that the SELECT returned, recovery batches give equal counts and related states if and only if these are the runs the in-memory store picks, in whatever order (`PostgresSelections.BatchesAgreeIff` says when that is so for all rows it may return) |
| `PostgresSimulation.CoveringLimitAgrees` | app/persistence/postgres_run_store.py:400-456 | they pick the same runs whenever the limit covers all eligible rows |
| `PostgresSimulation.AskSimulatedIff` | app/persistence/postgres_run_store.py:242-283 | asking for approval agrees in both stores if and only if the run is RUNNING (or missing) |
| `PostgresSimulation.RetrySimulatedIff` | app/persistence/postgres_run_store.py:374-398 | scheduling a retry agrees in both stores if and only if the run is RUNNING (or missing) |
| `PostgresSimulation.SimulatedIff` | app/persistence/postgres_run_store.py:59-543 | from related states a call gives equal results and related states exactly when a claimed run exists, a run that asks or retries is RUNNING, the recovery batches coincide, or the rows of an outbox listing are the first unpublished records; every other call always does |
| `PostgresSelections.ListingsAgreeIff` | app/persistence/postgres_run_store.py:513-532 | whatever rows its SELECT returns, the Postgres outbox listing is the in-memory one if and only if each of the first unpublished records was created strictly before all inserted after it |
| `PostgresSelections.BatchesAgreeIff` | app/persistence/postgres_run_store.py:400-456 | whatever rows its SELECT returns, the Postgres store recovers the runs the in-memory store does if and only if each of the first due runs is due, by lease or retry time, strictly before each due run that the limit leaves out |
| `PostgresSelections.RequestSimulatedIff` | app/persistence/postgres_run_store.py:59-543 | from related states a call gives equal results and related states, whatever rows its SELECT returns, if and only if a condition on what the stores hold before the call is met |
| `PostgresDifferences.AskDiffers` | app/persistence/postgres_run_store.py:242-283 | a history after which a QUEUED run is asked for approval: one store refuses, the other inserts the approval |
| `PostgresDifferences.ListingDiffers` | app/persistence/postgres_run_store.py:513-532 | a history after which, with a limit of 1, the two listings may differ: two records with the same creation time |
| `PostgresDifferences.BatchDiffers` | app/persistence/postgres_run_store.py:400-456 | a history after which, with a limit of 1, the two stores recover different runs: the lease of the run created later ends first |
| `PostgresStamps.StampsAreTrue` | app/persistence/postgres_run_store.py:95-372 | after any history of calls a run's started_at is the time of its first claim, and a run that has ended has as completed_at the time of the call that last touched it |
| `TwinStores.CallMemory` | app/persistence/run_store.py:76-131 | every call of the protocol on the in-memory object is that call on its abstract state |
| `TwinStores.CallPostgres` | app/persistence/postgres_run_store.py:59-543 | every call of the protocol on the Postgres object is that call on its tables |
| `TwinStores.CallBoth` | app/persistence/postgres_run_store.py:59-543 | the two objects, called alike from related states, answer alike and stay related exactly when the call agrees |
| `PostgresSimulation.HistoriesStayRelated` | app/persistence/postgres_run_store.py:59-543 | over whole histories of agreeing calls the tables stay related to the in-memory store |
| `PostgresSimulation.HistoriesAnswerAlike` | app/persistence/postgres_run_store.py:59-543 | and every answer along the way is the same |
| `Text.JoinedLengthIsExact` | app/rag/hierarchical_chunking.py:205-208 | the length test predicts the length of the joined block |
| `Text.InkOfStrip` | app/rag/hierarchical_chunking.py:60-85 | trimming loses only white space |
| `Text.ExactCoverConcatenates` | app/rag/hierarchical_chunking.py:171-202 | pieces that cover a text without overlap concatenate to it |
| `Text.CoveredCharacter` | app/rag/hierarchical_chunking.py:171-202 | every position of a covered text lies in some piece, and the piece is the text around it |
| `Text.ShowsThrough` | app/rag/hierarchical_chunking.py:13-37 | what a part of a piece shows of the piece, around a position, it shows of the text |
| `HierarchicalChunking.HeadingStartsWithHash` | app/rag/hierarchical_chunking.py:146-147 | for a trimmed paragraph the heading test is whether it starts with # |
| `HierarchicalChunking.RFindSpace` | app/rag/hierarchical_chunking.py:182 | the last space in the window, or -1 |
| `HierarchicalChunking.CutEnd` | app/rag/hierarchical_chunking.py:180-184 | a segment is not empty, within the unit and no longer than the size (where it ends: `ChunkingCuts.CutsAreAtSpaces`) |
| `HierarchicalChunking.ParagraphUnits` | app/rag/hierarchical_chunking.py:120-138 | the scan finds the matches of the paragraph pattern, trims them and merges headings |
| `HierarchicalChunking.MergeHeadingsWithFollowingParagraphs` | app/rag/hierarchical_chunking.py:141-168 | the merging loop, as a function of the paragraphs |
| `HierarchicalChunking.SplitOversizedUnit` | app/rag/hierarchical_chunking.py:171-202 | the cutting loop ends for every overlap and gives the trimmed segments with their offsets |
| `HierarchicalChunking.FlushCurrent` | app/rag/hierarchical_chunking.py:57-72 | the waiting paragraphs become one block |
| `HierarchicalChunking.FeedUnit` | app/rag/hierarchical_chunking.py:74-106 | one turn of the packing loop: blank, oversized, flushed first, or appended |
| `HierarchicalChunking.SplitBlocks` | app/rag/hierarchical_chunking.py:40-117 | the packing loop over all units, then the numbering |
| `HierarchicalChunking.SplitParentBlocks` | app/rag/hierarchical_chunking.py:13-23 | parent blocks start at offset 0 |
| `HierarchicalChunking.SplitChildChunks` | app/rag/hierarchical_chunking.py:26-37 | child chunks start at their parent's offset |
| `ChunkingCuts.CutsAreAtSpaces` | app/rag/hierarchical_chunking.py:171-202 | the cuts of a unit are one chain to its end: each starts the overlap before the end of the one before, but further right than its start; a cut whose window reaches the end takes all, any other ends at the last space in the second half of its window, or takes the whole window if there is none |
| `ChunkingCuts.OneChainOnly` | app/rag/hierarchical_chunking.py:171-202 | what is said of the cuts determines them |
| `ChunkingCuts.OversizedUnitsAreCut` | app/rag/hierarchical_chunking.py:40-117 | a unit longer than max(target, 1) stands among the blocks as the trimmed segments of such a chain, one after the other, their offsets moved by the base; the overlap is the one asked for, but not negative and smaller than the size |
| `ChunkingCuts.PlainCutsAreFull` | app/rag/chunking.py:32-46 | the cuts of a large paragraph are one such chain in which every cut takes its whole window or what is left |
| `ChunkingPacking.HeadingsLead` | app/rag/hierarchical_chunking.py:120-168 | a unit is a paragraph, or a paragraph that starts with # and the one after it; one that starts with # stands alone only at the end |
| `ChunkingPacking.BlocksAreGreedy` | app/rag/hierarchical_chunking.py:40-117 | two neighbouring blocks, with a blank line between them, would be longer than the size (at least 1), unless one of them was cut from a unit that is |
| `ChunkingCoverage.CutEndRises` | app/rag/hierarchical_chunking.py:178-201 | a cut that starts later, but within an earlier cut that did not reach the end, ends no earlier than that one, for every overlap |
| `ChunkingCoverage.CutsGapless` | app/rag/hierarchical_chunking.py:178-201 | whatever the overlap, the cuts leave no gap, none ends before the one before it, and the last ends with the unit; without overlap they do not overlap |
| `ChunkingCoverage.OversizedCovers` | app/rag/hierarchical_chunking.py:171-202 | cutting a unit covers its visible text, every further piece ending exactly where the covered part then ends, in trimmed pieces no longer than the size |
| `ChunkingCoverage.UnitsInk` | app/rag/hierarchical_chunking.py:120-168 | paragraphs and merged headings keep all visible characters in order |
| `ChunkingCoverage.BlocksKeepTheText` | app/rag/hierarchical_chunking.py:40-117 | for any text, size and overlap the blocks cover the text without a gap, every further block a slice of the visible text that ends exactly where the covered part then ends; they are trimmed, not empty, at most max(size, 1) long and numbered from 0 |
| `ChunkingCoverage.NoCharacterIsLost` | app/rag/hierarchical_chunking.py:40-117 | for every visible position of the text there is a block whose visible text is a slice of the text's visible text that contains that position |
| `ChunkingCoverage.WithoutOverlapTheBlocksAreTheText` | app/rag/hierarchical_chunking.py:40-117 | with no overlap the visible text of the blocks concatenates to that of the input |
| `ChunkingCoverage.ChildrenKeepTheDocument` | app/rag/hierarchical_chunking.py:13-37 | through both levels: for every visible position of the document there is a child of some parent whose visible text is a slice of the document's that contains that position |
| `ChunkingOffsets.ParagraphsApart` | app/rag/hierarchical_chunking.py:120-137 | every paragraph is the slice at its offsets, and consecutive ones are separated by white space with at least two line feeds |
| `ChunkingOffsets.MergingKeepsSnug` | app/rag/hierarchical_chunking.py:141-168 | in a normalised text a heading merged with its paragraph is still the slice at its offsets |
| `ChunkingOffsets.SegmentsFaithful` | app/rag/hierarchical_chunking.py:185-198 | the segments of an oversized unit are the slices at their offsets, for any text |
| `ChunkingOffsets.BlocksAreFaithful` | app/rag/hierarchical_chunking.py:40-117 | in a normalised text every block is the slice at its offsets, for every size and overlap |
| `ChunkingOffsets.OffsetsAreFaithful` | app/rag/hierarchical_chunking.py:13-37 | in a normalised document every parent and every child of every parent is document[start:end], and the child's span lies in its parent's |
| `ChunkingSpans.ParagraphsHold` | app/rag/hierarchical_chunking.py:120-137 | in any text every visible position lies between the offsets of a paragraph |
| `ChunkingSpans.BlocksHold` | app/rag/hierarchical_chunking.py:40-117 | in a normalised text every visible position lies between the offsets of some block, for every size and overlap |
| `ChunkingSpans.EveryPositionIsInAChild` | app/rag/hierarchical_chunking.py:13-37 | in a normalised document every visible position lies between the offsets of some child of a parent that holds it too |
| `ChunkingExactness.SnugIsNormalised` | app/rag/hierarchical_chunking.py:120-137 | paragraphs one blank line apart leave no other kind of gap in the text |
| `ChunkingExactness.ApartExtent` | app/rag/hierarchical_chunking.py:205-208 | paragraphs take up at least their joined length, and just that only when they stand one blank line apart |
| `ChunkingExactness.OffsetsAreExactlyForNormalisedText` | app/rag/hierarchical_chunking.py:13-117 | for every document, the offsets of the parent blocks name their content for every size and overlap if and only if its paragraphs stand exactly one blank line apart |
| `ChunkingExactness.WideBlockIsNotItsSlice` | app/rag/hierarchical_chunking.py:40-117 | a text of two paragraphs with two line feeds too many between them: its one block joins them and is not the slice at its offsets |
| `Chunking.ChunkText` | app/rag/chunking.py:1-29 | the packing loop, with its early return for blank text |
| `Chunking.FeedParagraph` | app/rag/chunking.py:10-24 | one turn of the packing loop |
| `Chunking.SplitLargeBlock` | app/rag/chunking.py:32-46 | the cutting loop ends and gives the trimmed cuts |
| `Chunking.ParagraphsKeepInk` | app/rag/chunking.py:2-6 | normalising line ends and cutting at blank lines keep every visible character |
| `FlatPacking.UnifyReplaces` | app/rag/chunking.py:2 | every pair of carriage return and line feed becomes one line feed, wherever it is |
| `FlatPacking.UnifyKeeps` | app/rag/chunking.py:2 | a text without such a pair stays as it is |
| `FlatPacking.ParagraphsAreSolid` | app/rag/chunking.py:6 | no paragraph has a blank line inside |
| `FlatPacking.ChunksAreJoined` | app/rag/chunking.py:1-29 | every chunk is neighbouring paragraphs with one blank line between each two, or a piece of one paragraph that is longer than the size |
| `FlatPacking.ChunksAreGreedy` | app/rag/chunking.py:1-29 | two neighbouring chunks, with a blank line between them, would be longer than the size, unless one of them is a piece of a paragraph that is |
| `Chunking.ChunksKeepTheText` | app/rag/chunking.py:1-46 | for size at least 1 and any overlap the chunks cover the text without a gap, every further chunk a slice of the visible text that ends exactly where the covered part then ends; they are trimmed, not empty and no longer than the size |
| `Chunking.ChunksLoseNothing` | app/rag/chunking.py:1-46 | for every visible position of the text there is a chunk whose visible text is a slice of the text's that contains that position |
| `Chunking.ChunksWithoutOverlap` | app/rag/chunking.py:1-46 | with no overlap the visible text of the chunks is that of the input |
| `Indexing.UpsertsUndone` | app/services/document_service.py:243-247 | deleting what was upserted restores a vector store that held none of those ids |
| `Indexing.FailedCreateLeavesNothing` | app/services/document_service.py:72-76 | a create that fails, wherever it fails, leaves the vector store exactly as it was |
| `Indexing.AlwaysAgreement` | app/services/document_service.py:55-148 | over any sequence of creates and reindexes, with embedding or any write failing anywhere, every chunk of a ready document has a vector and a signature, and no chunk of a failed one has either |
| `VectorPairing.CreatePairs` | app/services/document_service.py:64-70 | after a create that succeeds, chunk k of the new document has vector k of those the provider returned, and its signature |
| `VectorPairing.ReindexPairs` | app/services/document_service.py:107-148 | after a reindex that succeeds, clearing or not, chunk k of document d has vector k of the document's part of those returned |
| `VectorPairing.AlwaysPaired` | app/services/document_service.py:55-148 | over any sequence of creates and reindexes with faults anywhere, every chunk of a ready document has the vector that the attempt which made the document ready returned for its position, and that attempt's signature |
| `IndexRecords.CreatedDocument` | app/services/document_service.py:55-81 | a created document holds its text and one record for each of its pieces, in order; it is ready if nothing went wrong and otherwise failed with the reason |
| `IndexRecords.RecordsNameTheirParents` | app/services/document_service.py:179-222 | in hierarchical mode every chunk record is that of a child of some parent block and names the parent's position |
| `Indexing.AlwaysExact` | app/services/document_service.py:107-148 | while every reindex clears the vector store, its ids are exactly the chunk ids of the ready documents |
| `Indexing.NotClearingKeepsExactIff` | app/services/document_service.py:129-131 | a reindex that does not clear keeps that equality if and only if it writes nothing, or succeeds on an empty vector store |
| `Indexing.NotClearingFails` | app/services/document_service.py:129-131 | in both modes, a create of a text of one visible character and a reindex that does not clear: the equality holds after the one and not after the other |
| `Indexing.PiecesLoseNothing` | app/services/document_service.py:158-222 | in both indexing modes, for every visible position of a document there is a chunk record that shows the document's visible text around it |
| `Indexing.ReadyTextIsSearchable` | app/services/document_service.py:55-148 | after any run, for every visible position of a ready document there is a chunk with a vector that shows the document's visible text around it |
| `Indexing.HierarchicalPiecesFaithful` | app/services/document_service.py:179-222 | in hierarchical mode the recorded offsets of every chunk of a normalised document name its content |
| `Indexing.RecordedOffsetsAreFaithful` | app/services/document_service.py:107-222 | and they stay right over any sequence of creates and reindexes |
| `KnowledgeStore.RefiledAgree` | app/rag/store.py:79-92 | replacing the records of one document keeps the dictionary by id exactly the union of the lists, each id listed once |
| `KnowledgeStore.Refile` | app/rag/store.py:79-92 | the removal and insertion loops leave the new list and an agreeing dictionary |
| `KnowledgeStore.InMemoryKnowledgeStore.AddDocument` | app/rag/store.py:73-92 | all five dictionaries agree afterwards, the chunk objects shared; other documents are untouched |
| `KnowledgeStore.InMemoryKnowledgeStore.SetChunkEmbeddingProvider` | app/rag/store.py:163-167 | the one shared chunk record changes |
| `KnowledgeStore.InMemoryKnowledgeStore.SetDocumentIndexStatus` | app/rag/store.py:169-179 | the one document record changes |
| `KnowledgeStore.InMemoryVectorStore.Upsert` | app/rag/vector_store.py:63-65 | one vector is written |
| `KnowledgeStore.InMemoryVectorStore.Delete` | app/rag/vector_store.py:67-70 | the listed ids, present or not, are gone and nothing else |
| `KnowledgeStore.InMemoryVectorStore.ReplaceAll` | app/rag/vector_store.py:72-77 | only the new entries remain |
| `DocumentService.DocumentService.IndexChunks` | app/services/document_service.py:64-70 | the try body writes and signs chunk by chunk up to the first failure |
| `DocumentService.DocumentService.RollBack` | app/services/document_service.py:72-76 | the except clause removes the vectors and signatures and marks the document failed |
| `DocumentService.DocumentService.CreateDocument` | app/services/document_service.py:55-81 | over both stores and their shared records, a create does what the specification says, faults included |
| `DocumentService.DocumentService.WriteAll` | app/services/document_service.py:119-131 | embedding, then one replacement or upserts up to the first failure |
| `DocumentService.DocumentService.RefileAll` | app/services/document_service.py:132-136 | every document gets its new list under a ready copy of its record |
| `DocumentService.DocumentService.ReindexDocuments` | app/services/document_service.py:107-148 | a reindex does what the specification says, faults included |
| `ParentAggregation.ObserveSignals` | app/rag/parent_aggregation.py:62-84 | the loop over the signals, as a function of them |
| `ParentAggregation.AggregateParentCandidates` | app/rag/parent_aggregation.py:54-107 | the candidates of the accumulators, ranked |
| `ParentAggregation.OneCandidatePerOwner` | app/rag/parent_aggregation.py:60-105 | exactly one candidate for each parent, or chunk without a parent, that a live signal of either list reaches |
| `ParentAggregation.BestIsComputed` | app/rag/parent_aggregation.py:62-84 | the best reciprocal rank of a side is that of the least rank among the signals that reach the owner, and zero without any |
| `ParentAggregation.EvidenceIsComputed` | app/rag/parent_aggregation.py:49-51 | the evidence is the distinct chunks of the signals that reach the owner |
| `RankingFacts.CandidatesShow` | app/rag/parent_aggregation.py:54-105 | the candidates come in the order in which their owners were first seen, vector signals first; each shows its parent, or itself without one on file, and the first chunks of its evidence in the order in which they were seen, up to the maximum |
| `RankingFacts.CandidateScoreIs` | app/rag/parent_aggregation.py:86-105 | each candidate's score is the vector weight over constant plus least rank of the vector signals that reach it, the BM25 weight likewise, nothing for a list without any, and the bonus for each distinct chunk of evidence up to the maximum |
| `ParentAggregation.CandidateScores` | app/rag/parent_aggregation.py:86-105 | each candidate has a score of the declared form for the signals that reach its owner (spelled out in `RankingFacts.CandidateScoreIs`) |
| `ParentAggregation.RankedIsSorted` | app/rag/parent_aggregation.py:106 | the result is the candidates, best first |
| `ParentAggregation.RankedIsStable` | app/rag/parent_aggregation.py:106 | candidates with equal scores keep the order in which their owners were first seen |
| `ParentAggregation.ScoresIgnoreOrder` | app/rag/parent_aggregation.py:54-107 | a score does not depend on the order of either signal list |
| `ParentAggregation.SideScoreIsRunning` | app/rag/parent_aggregation.py:72-84 | a side's reported score is folded from the scores of the signals that reach the owner |
| `ParentAggregation.RunningScoreIsMaximumIff` | app/rag/parent_aggregation.py:72-84 | that fold is the greatest score if and only if no score is zero, or some score is positive, or the last one is zero |
| `ParentAggregation.ReportedScoreIsMaximumIff` | app/rag/parent_aggregation.py:54-107 | each candidate's reported score of a side is the greatest of the scores of the signals that reach it under exactly that condition; without such signals there is none |
| `ParentAggregation.ReportedScoreDependsOnOrder` | app/rag/parent_aggregation.py:54-107 | a store and two signals, with scores zero and negative, whose one candidate is reported differently when they are swapped |

## Left out

- Identifiers drawn by uuid4: approvals and outbox records are identified by their position, chunks and parents by a
  counter; they are assumed fresh, as uuid4 makes them.
- Time: integers read from a clock that only goes forward; time zones and `timedelta` arithmetic are not modelled.
- Tool arguments and JSON values: maps from strings to strings, and payloads are texts on one line.
- Planner, executor and answerer: arbitrary replies, one per turn; inside a turn each is asked at most once, as in the
  code.
- `list_steps`, `publish_event` of the queue, tracing, metrics, logging, settings and HTTP routes: no state of the
  protocol depends on them.
- Limits of listings and recoveries: natural numbers; Python's slices with negative limits are not modelled.
- Copies that the in-memory store returns: values, so aliasing with the stored records cannot occur.
- Worker loop of the queue consumer: popping and claiming are one action; `LostMessages.PopWithoutClaimIff` says what is
  lost otherwise.
- RunOrchestrator.RunToBoundary and AgentRuntime.Resume: watched for a number of rounds, because on some inputs the
  loops of the program never end, which separate lemmas prove.
- The recovery loops of the in-memory store: candidates are remembered by id instead of by copied record; the runs are
  distinct, so both read the same versions.
- `max_attempts` is never read by the modelled methods.
- PostgresRunStore: rows locked by other transactions, isolation levels and driver errors; the rows a recovery SELECT
  returns are any that satisfy its WHERE, ORDER BY and LIMIT.
- PostgresRunStore: `get_run`, `get_completed_step`, `list_events` and `list_unpublished_outbox` are queries, modelled
  as functions or, where the order is left open, as relations; the rows of a listing are any that satisfy its WHERE,
  ORDER BY and LIMIT.
- EventStreamService.Stream: the log, the run's status and the notifier are arbitrary at each look, and the waiting loop
  is watched for a number of rounds.
- Byte decoding in `streamChat` and `JSON.parse`: the reader works on decoded text and delivers payload texts.
- ParagraphUnits: the paragraph pattern is a scan that ends at the first position where a blank-line separator begins,
  instead of a regular expression engine; `\s` and `strip` use Python's list of white-space characters.
- ChunkText: sizes of at least 1 and overlaps that are not negative, the range in which the program uses it.
- HierarchicalChunking: the temporary numbers that blocks get before the final numbering are kept, as they are
  overwritten nothing is proved about them.
- DocumentService.ReindexDocuments: documents are visited in creation order, not newest first, which only permutes the
  embedding batch; lines 139-140, which write `ready` over `ready`, are not repeated.
- DocumentService: titles, metadata, tokens and summaries; deleting vectors is taken to succeed, and create and reindex
  run one after the other.
- Vector search, BM25, retrieval and reranking: numerical code without a state to protect.
- ParentAggregation: exact numbers instead of floating point and `round(..., 6)`; accumulators are values kept in the
  dictionary; parent ids and chunk ids are different kinds of key; the constant is positive.
- PDF, DOCX and OCR parsing, CCF extraction, legacy repositories, reindex jobs and evaluation scripts.
