/** The task that drives one job through its eight stages, as a state machine. A step is one store operation, one
    adapter call or one sleep; cancel requests, lease sweeps and the passing of time fall between any two steps. */
module KernelDag {
  import opened Options
  import opened KernelModel

  // ---- what a job's task is given ----------------------------------------------------------------

  datatype Code = Unavailable | ResourceExhausted | Aborted | DeadlineExceeded | OtherCode

  datatype StageError = StageError(code: Code, reason: string)

  /** An adapter's answer; `summarized` tells whether a persist answer leads to result-summary metadata. */
  datatype Reply = Answer(output: map<string, string>, summarized: bool) | Fail(error: StageError)

  /** A positive number of seconds read from metadata, in milliseconds; the reader accepts infinity. */
  datatype Limit = Millis(ms: nat) | Unlimited

  datatype RetryOverrides = RetryOverrides(
    maxAttempts: Option<nat>, baseDelay: Option<nat>, maxDelay: Option<nat>, maxElapsed: Option<nat>,
    retryable: set<string>, nonRetryable: set<string>)

  datatype Policy = Policy(
    maxAttempts: nat, baseDelay: nat, maxDelay: nat, maxElapsed: nat, retryable: set<string>, nonRetryable: set<string>)

  datatype Submission = Submission(
    id: string, fingerprint: string, keys: set<string>, deadline: Option<int>, leaseMs: nat, simulate: Option<Limit>,
    timeout: Option<Limit>, backendUnavailable: bool, retry: RetryOverrides)

  function Positive(o: Option<nat>, default: nat): nat { if o.Some? && o.value > 0 then o.value else default }

  function PolicyOf(o: RetryOverrides): (p: Policy)
    ensures 1 <= p.maxAttempts <= 16
  {
    var n := Positive(o.maxAttempts, 3);
    Policy(if n > 16 then 16 else n, Positive(o.baseDelay, 50), Positive(o.maxDelay, 1000),
      Positive(o.maxElapsed, 5000),
      if o.retryable != {} then o.retryable
      else {"EIGEN_EXECUTION_UNAVAILABLE", "EIGEN_EXECUTION_RESOURCE_EXHAUSTED", "EIGEN_EXECUTION_ABORTED",
            "EIGEN_EXECUTION_DEADLINE_EXCEEDED"},
      if o.nonRetryable != {} then o.nonRetryable
      else {"EIGEN_EXECUTION_INVALID_ARGUMENT", "EIGEN_EXECUTION_FAILED_PRECONDITION", "EIGEN_EXECUTION_INTERNAL",
            "EIGEN_EXECUTION_UNAUTHENTICATED", "EIGEN_EXECUTION_PERMISSION_DENIED", "EIGEN_EXECUTION_UNIMPLEMENTED"})
  }

  predicate Retryable(p: Policy, e: StageError) {
    e.reason !in p.nonRetryable
    && (e.reason in p.retryable || e.code in {Unavailable, ResourceExhausted, Aborted, DeadlineExceeded})
  }

  function Pow2(n: nat): nat { if n == 0 then 1 else 2 * Pow2(n - 1) }

  /** A 32-bit one shifted left; a shift of 32 or more saturates. */
  function Shifted(n: nat): nat { if n < 32 then Pow2(n) else 0xFFFF_FFFF }

  function Backoff(p: Policy, attempt: nat): nat {
    var ms := p.baseDelay * Shifted(if attempt == 0 then 0 else attempt - 1);
    if ms < p.maxDelay then ms else p.maxDelay
  }

  function Delay(p: Policy, e: StageError, attempt: nat): nat { if Retryable(p, e) then Backoff(p, attempt) else 0 }

  // ---- the orchestrating task --------------------------------------------------------------------

  /** How a failed execution ends: the state written, the retry reason, the error code, the error returned. */
  datatype Verdict = Verdict(state: TaskState, finalReason: string, errorCode: string, error: StageError)

  /** Points where a stage is opened. */
  datatype OpenPoint = Sweeping | CancelGate(s: Stage) | Beginning(s: Stage) | Calling(s: Stage) | Summarizing

  /** Points where a stage is closed. */
  datatype ClosePoint =
    | ControlGate(s: Stage) | DeadlineGate(s: Stage) | Publishing(s: Stage) | Finishing(s: Stage) | Advancing(s: Stage)

  /** Points on the way out. */
  datatype EndPoint =
    | Controlling(s: Stage) | CancelBeginning(s: Stage) | CancelFailing(s: Stage) | CancelReleasing | TimingOut
    | Rejected(error: StageError) | Ended

  /** Points of the simulated run. */
  datatype SimPoint = SimCancel(started: int) | SimDeadline(started: int) | SimElapsed(started: int)

  /** Points of the retry loop, and of the writes that give up on it. */
  datatype RetryPoint =
    | RetryGate(started: int, attempt: nat) | Executing(started: int, attempt: nat) | RetryAnswered(attempt: nat)
    | RetryCounting | Recording(started: int, attempt: nat, error: StageError)
    | RetryDeciding(started: int, attempt: nat, error: StageError)
    | Reasoning(v: Verdict) | FailingExecute(v: Verdict) | Releasing(v: Verdict)

  datatype PC =
    | Opening(o: OpenPoint) | Closing(c: ClosePoint) | Ending(e: EndPoint) | Simulating(m: SimPoint)
    | Retrying(r: RetryPoint)

  /** `output` is the latest adapter output; `executions` counts calls of the execute adapter and `slept` adds up
      the retry delays. */
  datatype World = World(job: Job, pc: PC, now: int, output: map<string, string>, executions: nat, slept: nat)

  function NewWorld(sub: Submission, now: int): World {
    World(NewJob(sub.id, sub.fingerprint, sub.deadline, sub.leaseMs, now), Opening(Sweeping), now, map[], 0, 0)
  }

  function UpstreamKeys(output: map<string, string>): set<string> { set k | k in output :: Upstream(k) }

  function StageInput(sub: Submission, s: Stage, output: map<string, string>): Input {
    Input(Some(RootLineageRef(sub.id)), Some(InputRef(sub.id, s)), Some(HandoffRef(sub.id, s)),
      Some(LineageRef(sub.id, s)), sub.keys + UpstreamKeys(output))
  }

  const CANCEL_INPUT := Input(None, None, None, None, {"job_id", "stage_id", "reason"})

  const RUNTIME_FAILURE := StageError(OtherCode, "RUNTIME_STAGE_FAILURE")

  const EXECUTION_DEADLINE := StageError(DeadlineExceeded, "EIGEN_EXECUTION_DEADLINE_EXCEEDED")

  const DEADLINE_VERDICT := Verdict(Timeout, "DEADLINE_EXCEEDED", "DEADLINE_EXCEEDED", EXECUTION_DEADLINE)

  function NextStage(s: Stage): Stage {
    match s
    case ValidateEnqueue => Compile
    case Compile => Optimize
    case Optimize => Schedule
    case Schedule => Execute
    case Execute => Persist
    case Persist => Observe
    case Observe => Finalize
    case Finalize => Finalize
  }

  /** Where the task goes once stage `s` is recorded as succeeded. */
  function AfterFinish(s: Stage): PC {
    match s
    case Execute => Opening(CancelGate(Persist))
    case Persist => Opening(CancelGate(Observe))
    case Observe => Opening(Beginning(Finalize))
    case Finalize => Ending(Ended)
    case _ => Closing(Advancing(s))
  }

  function AfterBegin(sub: Submission, s: Stage, now: int): PC {
    if s != Execute then Opening(Calling(s))
    else if sub.backendUnavailable then Ending(Rejected(StageError(Unavailable, "EIGEN_EXECUTION_UNAVAILABLE")))
    else if sub.simulate.Some? then Simulating(SimCancel(now))
    else Retrying(RetryGate(now, 0))
  }

  predicate Publishes(s: Stage) { s in {Schedule, Execute, Persist, Observe} }

  /** The stage a control stop after the adapter of `s` is filed under. */
  function ControlStage(s: Stage): Stage { if s == ValidateEnqueue then Compile else s }

  // ---- one step of the task ----------------------------------------------------------------------

  function OpenStep(sub: Submission, w: World, o: OpenPoint, reply: Reply): World {
    var j := w.job;
    match o
    case Sweeping => w.(job := Sweep(j, w.now), pc := Opening(Beginning(ValidateEnqueue)))
    case CancelGate(s) => w.(pc := if j.cancelRequested then Ending(CancelBeginning(s)) else Opening(Beginning(s)))
    case Beginning(s) =>
      var r := BeginStage(j, s, StageState(s), StageInput(sub, s, w.output), w.now);
      w.(job := r.job, pc := if r.ok then AfterBegin(sub, s, w.now) else Ending(Rejected(RUNTIME_FAILURE)))
    case Calling(s) =>
      w.(pc := if reply.Fail? then Ending(Rejected(reply.error))
               else if s == Persist && reply.summarized then Opening(Summarizing) else Closing(ControlGate(s)),
         output := if reply.Fail? then w.output else reply.output)
    case Summarizing => w.(job := Touch(j, w.now), pc := Closing(ControlGate(Persist)))
  }

  function CloseStep(w: World, c: ClosePoint): World {
    var j := w.job;
    match c
    case ControlGate(s) =>
      w.(pc := if j.cancelRequested then Ending(Controlling(ControlStage(s))) else Closing(DeadlineGate(s)))
    case DeadlineGate(s) =>
      w.(pc := if DeadlineExpired(j, w.now) then Ending(Controlling(ControlStage(s)))
               else if Publishes(s) then Closing(Publishing(s)) else Closing(Finishing(s)))
    case Publishing(s) =>
      w.(job := if s == Persist && "qfs_result_ref" !in w.output then j else Touch(j, w.now),
         pc := Closing(Finishing(s)))
    case Finishing(s) =>
      var r := FinishStageSuccess(j, s, NextState(s), w.now);
      w.(job := r.job, pc := if r.ok then AfterFinish(s) else Ending(Rejected(RUNTIME_FAILURE)))
    case Advancing(s) =>
      w.(job := SetState(j, StageState(NextStage(s)), w.now), pc := Opening(CancelGate(NextStage(s))))
  }

  function EndStep(w: World, e: EndPoint): World {
    var j := w.job;
    match e
    case Controlling(s) => w.(pc := if j.cancelRequested then Ending(CancelBeginning(s)) else Ending(TimingOut))
    case CancelBeginning(s) =>
      w.(job := BeginStage(j, s, StageState(s), CANCEL_INPUT, w.now).job, pc := Ending(CancelFailing(s)))
    case CancelFailing(s) =>
      var r := FinishStageFailure(j, s, Cancelled, "CANCELLED", w.now);
      w.(job := r.job, pc := if r.ok then Ending(CancelReleasing) else Ending(Rejected(RUNTIME_FAILURE)))
    case CancelReleasing => w.(job := SetReservation(j, Released, w.now), pc := Ending(Ended))
    case TimingOut => w.(job := RequestDeadlineTerminalization(j, w.now), pc := Ending(Ended))
    case Rejected(err) =>
      w.(job := if err.code == DeadlineExceeded then RequestDeadlineTerminalization(j, w.now)
                else RequestErrorTerminalization(j, err.reason, w.now),
         pc := Ending(Ended))
    case Ended => w
  }

  predicate Reached(limit: Option<Limit>, elapsed: int) {
    limit.Some? && limit.value.Millis? && elapsed >= limit.value.ms
  }

  /** The simulated run: a loop of 20 ms sleeps. */
  function SimStep(sub: Submission, w: World, m: SimPoint, extra: nat): World {
    var j := w.job;
    match m
    case SimCancel(t) =>
      w.(pc := if j.cancelRequested then Ending(CancelBeginning(Execute)) else Simulating(SimDeadline(t)))
    case SimDeadline(t) =>
      w.(pc := if DeadlineExpired(j, w.now) then Ending(Controlling(Execute)) else Simulating(SimElapsed(t)))
    case SimElapsed(t) =>
      var late := Reached(sub.timeout, w.now - t);
      var over := Reached(sub.simulate, w.now - t);
      w.(pc := if late then Ending(Rejected(EXECUTION_DEADLINE))
               else if over then Retrying(RetryGate(w.now, 0)) else Simulating(SimCancel(t)),
         now := if late || over then w.now else w.now + 20 + extra)
  }

  /** After a failed attempt: stop, or sleep and go round again. */
  function Decision(p: Policy, expired: bool, t: int, n: nat, e: StageError, now: int): RetryPoint {
    if expired then Reasoning(DEADLINE_VERDICT)
    else if !Retryable(p, e) then Reasoning(Verdict(Error, "NON_RETRYABLE", e.reason, e))
    else if n >= p.maxAttempts then Reasoning(Verdict(Error, "RETRY_EXHAUSTED", e.reason, e))
    else if now - t + Delay(p, e, n) > p.maxElapsed then Reasoning(DEADLINE_VERDICT)
    else RetryGate(t, n)
  }

  /** The retry loop around the execute adapter. */
  function RetryStep(sub: Submission, w: World, r: RetryPoint, reply: Reply, extra: nat): World {
    var j, p := w.job, PolicyOf(sub.retry);
    match r
    case RetryGate(t, n) =>
      w.(pc := Retrying(if DeadlineExpired(j, w.now) then Reasoning(DEADLINE_VERDICT) else Executing(t, n + 1)))
    case Executing(t, n) =>
      w.(pc := Retrying(if reply.Fail? then Recording(t, n, reply.error) else RetryAnswered(n)),
         output := if reply.Fail? then w.output else reply.output, executions := w.executions + 1)
    case RetryAnswered(n) =>
      w.(pc := if DeadlineExpired(j, w.now) then Retrying(Reasoning(DEADLINE_VERDICT))
               else if n > 1 then Retrying(RetryCounting) else Closing(ControlGate(Execute)))
    case RetryCounting => w.(job := SetSucceededAfterRetry(j, w.now), pc := Closing(ControlGate(Execute)))
    case Recording(t, n, e) =>
      w.(job := RecordAttempt(j, Attempt(n, Retryable(p, e), Delay(p, e, n), w.now - t), w.now),
         pc := Retrying(RetryDeciding(t, n, e)))
    case RetryDeciding(t, n, e) =>
      var next := Decision(p, DeadlineExpired(j, w.now), t, n, e, w.now);
      var d := if next.RetryGate? then Delay(p, e, n) else 0;
      w.(pc := Retrying(next), now := if next.RetryGate? then w.now + d + extra else w.now, slept := w.slept + d)
    case Reasoning(v) => w.(job := SetFinalReason(j, v.finalReason, w.now), pc := Retrying(FailingExecute(v)))
    case FailingExecute(v) =>
      var f := FinishStageFailure(j, Execute, v.state, v.errorCode, w.now);
      w.(job := f.job, pc := if f.ok then Retrying(Releasing(v)) else Ending(Rejected(RUNTIME_FAILURE)))
    case Releasing(v) => w.(job := SetReservation(j, Released, w.now), pc := Ending(Rejected(v.error)))
  }

  // ---- runs --------------------------------------------------------------------------------------

  datatype Event = Task(reply: Reply, extra: nat) | Cancel | SweepAll | Tick(ms: nat)

  function TaskStep(sub: Submission, w: World, reply: Reply, extra: nat): World {
    match w.pc
    case Opening(o) => OpenStep(sub, w, o, reply)
    case Closing(c) => CloseStep(w, c)
    case Ending(e) => EndStep(w, e)
    case Simulating(m) => SimStep(sub, w, m, extra)
    case Retrying(r) => RetryStep(sub, w, r, reply, extra)
  }

  function Step(sub: Submission, w: World, e: Event): World {
    match e
    case Task(reply, extra) => TaskStep(sub, w, reply, extra)
    case Cancel => w.(job := RequestCancel(w.job, w.now))
    case SweepAll => w.(job := Sweep(w.job, w.now))
    case Tick(d) => w.(now := w.now + d)
  }

  function Run(sub: Submission, w: World, es: seq<Event>): World {
    if es == [] then w else Step(sub, Run(sub, w, es[..|es| - 1]), es[|es| - 1])
  }
}
