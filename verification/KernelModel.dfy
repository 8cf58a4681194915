/** The kernel's job record and the store operations on it. Each operation holds the store's lock for its whole
    body, so each is one atomic step. */
module KernelModel {
  import opened Options

  // ---- stages and states -----------------------------------------------------------------------

  datatype Stage = ValidateEnqueue | Compile | Optimize | Schedule | Execute | Persist | Observe | Finalize

  function Order(s: Stage): nat {
    match s
    case ValidateEnqueue => 1
    case Compile => 2
    case Optimize => 3
    case Schedule => 4
    case Execute => 5
    case Persist => 6
    case Observe => 7
    case Finalize => 8
  }

  function Key(s: Stage): string {
    match s
    case ValidateEnqueue => "validate-enqueue"
    case Compile => "compile"
    case Optimize => "optimize"
    case Schedule => "schedule"
    case Execute => "execute"
    case Persist => "persist"
    case Observe => "record-knowledge-observability"
    case Finalize => "finalize"
  }

  datatype TaskState = Pending | Compiling | Optimizing | Queued | Running | Done | Error | Cancelled | Timeout

  predicate Terminal(t: TaskState) { t in {Done, Error, Cancelled, Timeout} }

  /** The rank of a state: Pending < Compiling < Optimizing < Queued < Running < the terminal states. */
  function Level(t: TaskState): nat {
    match t
    case Pending => 0
    case Compiling => 1
    case Optimizing => 2
    case Queued => 3
    case Running => 4
    case _ => 5
  }

  function StageState(s: Stage): TaskState {
    match s
    case ValidateEnqueue => Pending
    case Compile => Compiling
    case Optimize => Optimizing
    case Schedule => Queued
    case Execute => Running
    case Persist => Running
    case Observe => Running
    case Finalize => Done
  }

  function NextState(s: Stage): TaskState {
    match s
    case ValidateEnqueue => Pending
    case Compile => Optimizing
    case Optimize => Queued
    case Schedule => Running
    case Execute => Running
    case Persist => Running
    case Observe => Running
    case Finalize => Done
  }

  // ---- references ------------------------------------------------------------------------------

  const ROOT := "qfs://jobs/"

  function Scoped(job: string, suffix: string): string { ROOT + job + suffix }

  function StagePath(s: Stage): string { "/workflow/stages/0" + [('0' as int + Order(s)) as char] + "-" + Key(s) }

  function StageSuffix(s: Stage, kind: string): string { StagePath(s) + kind }

  function InputRef(job: string, s: Stage): string { Scoped(job, StageSuffix(s, "-input.json")) }

  function OutputRef(job: string, s: Stage): string { Scoped(job, StageSuffix(s, "-output.json")) }

  function LineageRef(job: string, s: Stage): string { Scoped(job, StageSuffix(s, "-lineage.json")) }

  function HandoffRef(job: string, s: Stage): string { Scoped(job, StageSuffix(s, "-handoff.json")) }

  function StageFailureRef(job: string, s: Stage): string { Scoped(job, StageSuffix(s, "-failure.json")) }

  function RootLineageRef(job: string): string { Scoped(job, "/workflow/lineage.jsonl") }

  function CompletionRef(job: string): string { Scoped(job, "/workflow/completion.json") }

  function FailureRef(job: string): string { Scoped(job, "/workflow/failure.json") }

  /** The key under which a stage sees a field of the output before it. */
  function Upstream(field: string): string { "upstream." + field }

  function RequiredFields(s: Stage): set<string> {
    match s
    case ValidateEnqueue => {}
    case Compile => {Upstream("qfs_submission_ref")}
    case Optimize => {Upstream("compiled_artifact_ref")}
    case Schedule => {Upstream("optimized_artifact_ref")}
    case Execute => {Upstream("resource_plan_ref"), Upstream("selected_backend")}
    case Persist => {Upstream("counts_ref"), Upstream("execution_ref")}
    case Observe => {Upstream("qfs_result_ref")}
    case Finalize => {Upstream("observability_ref")}
  }

  // ---- records ---------------------------------------------------------------------------------

  /** The input map of a stage: the four references read from it, and the set of its keys. */
  datatype Input = Input(
    root: Option<string>, inputRef: Option<string>, handoffRef: Option<string>, lineageRef: Option<string>,
    keys: set<string>)

  /** The artifact map of a stage; every key the store uses is a field. */
  datatype Artifacts = Artifacts(
    input: Option<string>, output: Option<string>, handoff: Option<string>, lineage: Option<string>,
    root: Option<string>, upstream: Option<string>, failure: Option<string>, completion: Option<string>)

  datatype LineageRefs = LineageRefs(lineage: Option<string>, root: Option<string>)

  datatype StageStatus = Open | Succeeded | Failed

  datatype StageRecord = StageRecord(
    stage: Stage, stateBefore: TaskState, stateAfter: TaskState, status: StageStatus, input: Input,
    artifacts: Artifacts, lineage: LineageRefs, handoffRef: string, errorCode: Option<string>)

  datatype Reservation = Held | ReleasePending | Released

  datatype Attempt = Attempt(number: nat, retryable: bool, delay: nat, elapsed: int)

  datatype Job = Job(
    id: string, fingerprint: string, state: TaskState, currentStage: Stage, records: seq<StageRecord>,
    completionRef: Option<string>, failureRef: Option<string>, deadline: Option<int>, cancelRequested: bool,
    reservation: Reservation, leaseMs: nat, updatedAt: int, completedAt: Option<int>, errorCode: Option<string>,
    attempts: seq<Attempt>, finalReason: Option<string>, succeededAfterRetry: nat)

  function CanonicalId(fingerprint: string): string { "job-" + fingerprint }

  function NewJob(id: string, fingerprint: string, deadline: Option<int>, leaseMs: nat, now: int): Job {
    Job(id, fingerprint, Pending, ValidateEnqueue, [], None, None, deadline, false, Held, leaseMs, now, None, None,
      [], None, 0)
  }

  function Get<T>(o: Option<T>, default: T): T { if o.Some? then o.value else default }

  // ---- reads -----------------------------------------------------------------------------------

  predicate DeadlineExpired(j: Job, now: int) { j.deadline.Some? && now >= j.deadline.value }

  predicate LeaseExpired(j: Job, now: int) {
    j.reservation == Held && now - j.updatedAt >= if j.leaseMs < 1 then 1 else j.leaseMs
  }

  /** Where the record of stage `s` is; the length of the list when there is none. */
  function Find(records: seq<StageRecord>, s: Stage): (i: nat)
    ensures i <= |records|
    ensures i < |records| ==> records[i].stage == s
    ensures forall k :: 0 <= k < i ==> records[k].stage != s
  {
    if records == [] || records[0].stage == s then 0
    else
      var rest := records[1..];
      assert forall k :: 1 <= k < |records| ==> records[k] == rest[k - 1];
      1 + Find(rest, s)
  }

  // ---- writes ----------------------------------------------------------------------------------

  function Touch(j: Job, now: int): Job { j.(updatedAt := now) }

  function SetState(j: Job, t: TaskState, now: int): Job {
    j.(state := t, updatedAt := now, completedAt := if Terminal(t) then Some(now) else j.completedAt)
  }

  function SetReservation(j: Job, r: Reservation, now: int): Job { j.(reservation := r, updatedAt := now) }

  function Sweep(j: Job, now: int): Job {
    if LeaseExpired(j, now) && !Terminal(j.state) then j.(reservation := Released, updatedAt := now) else j
  }

  function RecordAttempt(j: Job, a: Attempt, now: int): Job { j.(attempts := j.attempts + [a], updatedAt := now) }

  function SetFinalReason(j: Job, reason: string, now: int): Job { j.(finalReason := Some(reason), updatedAt := now) }

  function SetSucceededAfterRetry(j: Job, now: int): Job { j.(succeededAfterRetry := 1, updatedAt := now) }

  /** Refused on a terminal job. */
  function RequestCancel(j: Job, now: int): Job {
    if Terminal(j.state) then j else j.(cancelRequested := true, reservation := ReleasePending, updatedAt := now)
  }

  /** The output reference of the latest stage that has one. */
  function PreviousOutput(records: seq<StageRecord>): Option<string> {
    if records == [] then None
    else if records[|records| - 1].artifacts.output.Some? then records[|records| - 1].artifacts.output
    else PreviousOutput(records[..|records| - 1])
  }

  function Orphan(id: string, s: Stage, before: TaskState, input: Input): StageRecord {
    var inputRef, handoff := Get(input.inputRef, InputRef(id, s)), Get(input.handoffRef, HandoffRef(id, s));
    var lineage, root := Get(input.lineageRef, LineageRef(id, s)), Get(input.root, RootLineageRef(id));
    var failure := StageFailureRef(id, s);
    StageRecord(s, before, Error, Failed, input,
      Artifacts(Some(inputRef), Some(failure), Some(handoff), Some(lineage), Some(root), Some(inputRef), Some(failure),
        None),
      LineageRefs(Some(lineage), Some(root)), handoff, Some("WORKFLOW_HANDOFF_CORRUPTION"))
  }

  function Opened(id: string, s: Stage, before: TaskState, input: Input, upstream: Option<string>): StageRecord {
    var inputRef, handoff := Get(input.inputRef, InputRef(id, s)), Get(input.handoffRef, HandoffRef(id, s));
    var lineage, root := Get(input.lineageRef, LineageRef(id, s)), Get(input.root, RootLineageRef(id));
    StageRecord(s, before, before, Open, input,
      Artifacts(Some(inputRef), None, Some(handoff), Some(lineage), Some(root), upstream, None, None),
      LineageRefs(Some(lineage), Some(root)), handoff, None)
  }

  datatype Written = Written(job: Job, ok: bool)

  /** A terminal job refuses; a stage already recorded is only made current; a stage whose input lacks a required
      handoff field fails the whole job; any other stage is opened after the latest output. */
  function BeginStage(j: Job, s: Stage, before: TaskState, input: Input, now: int): Written {
    if Terminal(j.state) then Written(j, false)
    else if Find(j.records, s) < |j.records| then Written(j.(currentStage := s), true)
    else if !(RequiredFields(s) <= input.keys) then
      Written(j.(currentStage := s, updatedAt := now, completedAt := Some(now), state := Error,
        errorCode := Some("WORKFLOW_HANDOFF_CORRUPTION"), reservation := Released, failureRef := Some(FailureRef(j.id)),
        records := j.records + [Orphan(j.id, s, before, input)]), false)
    else
      Written(j.(currentStage := s, updatedAt := now,
        records := j.records + [Opened(j.id, s, before, input, PreviousOutput(j.records))]), true)
  }

  function SucceededRecord(id: string, r: StageRecord, after: TaskState): StageRecord {
    var lineage, root := Get(r.lineage.lineage, LineageRef(id, r.stage)), Get(r.lineage.root, RootLineageRef(id));
    r.(status := Succeeded, stateAfter := after,
      artifacts := r.artifacts.(input := Some(Get(r.artifacts.input, InputRef(id, r.stage))),
        output := Some(OutputRef(id, r.stage)), handoff := Some(r.handoffRef), lineage := Some(lineage),
        root := Some(Get(r.artifacts.root, root)),
        completion := if after == Done then Some(CompletionRef(id)) else r.artifacts.completion),
      lineage := LineageRefs(Some(lineage), Some(root)))
  }

  function FinishStageSuccess(j: Job, s: Stage, after: TaskState, now: int): Written {
    var i := Find(j.records, s);
    if i == |j.records| then Written(j, false)
    else
      Written(j.(records := j.records[i := SucceededRecord(j.id, j.records[i], after)], state := after,
        updatedAt := now, completionRef := if after == Done then Some(CompletionRef(j.id)) else j.completionRef,
        completedAt := if Terminal(after) then Some(now) else j.completedAt), true)
  }

  function FailedRecord(id: string, r: StageRecord, t: TaskState, code: string): StageRecord {
    var failure := StageFailureRef(id, r.stage);
    r.(status := Failed, stateAfter := t, errorCode := Some(code),
      artifacts := r.artifacts.(failure := Some(failure), output := Some(failure), handoff := Some(r.handoffRef),
        lineage := Some(Get(r.lineage.lineage, LineageRef(id, r.stage)))))
  }

  function FinishStageFailure(j: Job, s: Stage, t: TaskState, code: string, now: int): Written {
    var i := Find(j.records, s);
    if i == |j.records| then Written(j, false)
    else
      Written(j.(records := j.records[i := FailedRecord(j.id, j.records[i], t, code)], state := t, updatedAt := now,
        completedAt := Some(now), errorCode := Some(code), reservation := Released,
        failureRef := Some(FailureRef(j.id))), true)
  }

  /** The record pushed when a job is terminalized in a stage that has none; `upstream` is set on the deadline path. */
  function Stranded(j: Job, t: TaskState, code: string, upstream: Option<string>): StageRecord {
    var s := j.currentStage;
    var failure, root := StageFailureRef(j.id, s), RootLineageRef(CanonicalId(j.fingerprint));
    StageRecord(s, j.state, t, Failed,
      Input(Some(root), Some(InputRef(j.id, s)), Some(HandoffRef(j.id, s)), Some(LineageRef(j.id, s)), {}),
      Artifacts(Some(InputRef(j.id, s)), Some(failure), Some(HandoffRef(j.id, s)), Some(LineageRef(j.id, s)),
        Some(root), upstream, Some(failure), None),
      LineageRefs(Some(LineageRef(j.id, s)), Some(root)), HandoffRef(j.id, s), Some(code))
  }

  function TerminalizedRecord(id: string, r: StageRecord, t: TaskState, code: string): StageRecord {
    var failure := StageFailureRef(id, r.stage);
    r.(status := Failed, stateAfter := t, errorCode := Some(code),
      artifacts := r.artifacts.(failure := Some(failure), output := Some(failure)),
      lineage := if t == Error then r.lineage.(lineage := Some(LineageRef(id, r.stage))) else r.lineage)
  }

  function TerminalizedRecords(j: Job, t: TaskState, code: string, upstream: Option<string>): seq<StageRecord> {
    var i := Find(j.records, j.currentStage);
    if i < |j.records| then j.records[i := TerminalizedRecord(j.id, j.records[i], t, code)]
    else j.records + [Stranded(j, t, code, upstream)]
  }

  /** Does nothing to a terminal job. */
  function RequestErrorTerminalization(j: Job, code: string, now: int): Job {
    if Terminal(j.state) then j
    else
      j.(records := TerminalizedRecords(j, Error, code, None), state := Error, reservation := Released,
        updatedAt := now, completedAt := Some(now), errorCode := Some(code), failureRef := Some(FailureRef(j.id)))
  }

  /** Does nothing to a terminal job. */
  function RequestDeadlineTerminalization(j: Job, now: int): Job {
    if Terminal(j.state) then j
    else
      j.(records := TerminalizedRecords(j, Timeout, "DEADLINE_EXCEEDED", Some(InputRef(j.id, j.currentStage))),
        state := Timeout, cancelRequested := true, reservation := Released, updatedAt := now, completedAt := Some(now),
        errorCode := Some("DEADLINE_EXCEEDED"), failureRef := Some(FailureRef(j.id)))
  }
}
