/** The rows of the durable run store (app/persistence/run_store.py) and the keys they carry. */
module RunRecords {
  import opened Common
  import opened Execution

  datatype NewRun = NewRun(runId: string, sessionId: string, userMessage: string, createdAt: int)

  datatype StoredRun = StoredRun(
    runId: string,
    sessionId: string,
    userMessage: string,
    status: RunStatus,
    version: nat,
    attemptCount: nat,
    checkpoint: Option<Checkpoint>,
    leaseOwner: Option<string>,
    leaseExpiresAt: Option<int>,
    cancelRequestedAt: Option<int>,
    nextRetryAt: Option<int>,
    errorCode: Option<string>,
    errorMessage: Option<string>,
    createdAt: int,
    updatedAt: int)
  {
    predicate Claimable() { status.Queued? || status.RetryScheduled? }

    predicate Terminal() { status.Terminal() }

    predicate LeaseFree(now: int) { leaseExpiresAt.None? || leaseExpiresAt.value < now }

    predicate LeaseExpired(now: int) { status.Running? && leaseExpiresAt.Some? && leaseExpiresAt.value < now }

    predicate RetryDue(now: int) { status.RetryScheduled? && nextRetryAt.Some? && nextRetryAt.value <= now }

    /** The checkpoint a worker starts from. */
    function Current(): Checkpoint {
      if checkpoint.Some? then checkpoint.value else FirstCheckpoint(runId, sessionId, userMessage, [])
    }
  }

  datatype StoredEvent = StoredEvent(sequence: nat, event: Event, createdAt: int)

  datatype StepOutput = StepOutput(waitingForApproval: bool, completed: bool, finalResponse: Option<string>)

  datatype StoredStep = StoredStep(
    stepId: string,
    runId: string,
    sequence: nat,
    stepType: StepType,
    status: StepStatus,
    key: StepKey,
    checkpoint: Checkpoint,
    output: StepOutput)

  datatype ApprovalStatus = ApprovalPending | Approved | ApprovalRejected

  datatype StoredApproval = StoredApproval(
    runId: string, stepId: string, status: ApprovalStatus, toolName: string, arguments: Arguments)

  datatype OutboxRecord = OutboxRecord(key: DispatchKey, runId: string, publishedAt: Option<int>)

  // ---- Keys ----

  /** `dispatch:{run_id}:{version}` */
  datatype DispatchKey = DispatchKey(runId: string, version: nat) {
    function Text(): string { "dispatch:" + runId + ":" + Decimal(version) }
  }

  /** `{run_id}:{sequence}:{step_type}` */
  datatype StepKey = StepKey(runId: string, sequence: nat, stepType: StepType) {
    function Text(): string { runId + ":" + Decimal(sequence) + ":" + TypeText(stepType) }
  }

  function TypeText(t: StepType): string {
    match t
    case PlanStep => "plan"
    case ToolCallStep => "tool_call"
    case ApprovalStep => "approval"
    case AnswerStep => "answer"
  }

  function StepTypeFor(action: CheckpointAction): StepType {
    match action
    case Plan => PlanStep
    case Tool => ToolCallStep
    case Answer => AnswerStep
  }

  /** The idempotency key under which a worker commits the step it computed from cp. */
  function KeyOf(runId: string, cp: Checkpoint): StepKey {
    StepKey(runId, cp.nextStep, StepTypeFor(cp.pendingAction))
  }

  lemma FirstColon(s: string, a: string, x: string)
    requires ':' !in a && s == a + ":" + x
    ensures |a| < |s| && s[|a|] == ':' && (forall i :: 0 <= i < |a| ==> s[i] != ':')
    ensures a == s[..|a|] && x == s[|a| + 1..]
  {
    assert forall i :: 0 <= i < |a| ==> s[i] == a[i];
  }

  lemma LastColon(s: string, a: string, x: string)
    requires ':' !in x && s == a + ":" + x
    ensures |a| < |s| && s[|a|] == ':' && (forall i :: |a| < i < |s| ==> s[i] != ':')
    ensures a == s[..|a|] && x == s[|a| + 1..]
  {
    assert forall i :: |a| < i < |s| ==> s[i] == x[i - |a| - 1];
  }

  /** No two runs or versions share a dispatch key, even when run ids contain colons. */
  lemma DispatchTextInjective(j: DispatchKey, k: DispatchKey)
    requires j.Text() == k.Text()
    ensures j == k
  {
    var prefix := "dispatch:";
    var s, t := j.runId + ":" + Decimal(j.version), k.runId + ":" + Decimal(k.version);
    assert j.Text() == prefix + s && k.Text() == prefix + t;
    assert s == (prefix + s)[|prefix|..] == (prefix + t)[|prefix|..] == t;
    LastColon(s, j.runId, Decimal(j.version));
    LastColon(s, k.runId, Decimal(k.version));
    DecimalInjective(j.version, k.version);
  }

  lemma TypeTextInjective(t: StepType, u: StepType)
    requires TypeText(t) == TypeText(u)
    ensures t == u
  {
    assert |TypeText(t)| == |TypeText(u)|;
  }

  lemma TailInjective(m: nat, n: nat, x: string, y: string)
    requires Decimal(m) + ":" + x == Decimal(n) + ":" + y
    ensures m == n && x == y
  {
    FirstColon(Decimal(m) + ":" + x, Decimal(m), x);
    FirstColon(Decimal(m) + ":" + x, Decimal(n), y);
    DecimalInjective(m, n);
  }

  lemma PrefixCancels(p: string, x: string, y: string)
    requires p + x == p + y
    ensures x == y
  {
    assert x == (p + x)[|p|..] == (p + y)[|p|..] == y;
  }

  lemma Regroup(a: string, b: string, c: string, tail: string)
    requires tail == b + ":" + c
    ensures a + ":" + b + ":" + c == a + ":" + tail
  {
  }

  /** Within a run, a step key determines the step number and the step type. */
  lemma StepTextInjective(j: StepKey, k: StepKey)
    requires j.runId == k.runId && j.Text() == k.Text()
    ensures j == k
  {
    var x, y := TypeText(j.stepType), TypeText(k.stepType);
    var s, t := Decimal(j.sequence) + ":" + x, Decimal(k.sequence) + ":" + y;
    Regroup(j.runId, Decimal(j.sequence), x, s);
    Regroup(k.runId, Decimal(k.sequence), y, t);
    PrefixCancels(j.runId + ":", s, t);
    TailInjective(j.sequence, k.sequence, x, y);
    TypeTextInjective(j.stepType, k.stepType);
  }
}
