/** Why a job ends as it does: every terminal state and error code is tied to what happened in the run. */
module KernelOutcome {
  import opened Options
  import opened KernelModel
  import opened KernelDag
  import opened KernelInvariant
  import opened KernelRuns
  import opened KernelRetry
  import opened KernelProgress

  // ---- the state while a stage is at work -----------------------------------------------------------------------

  /** What a caller sees while the adapter of a stage is at work, and right after the stage succeeded. */
  lemma StateInStage(sub: Submission, now: int, es: seq<Event>)
    ensures var w := Run(sub, NewWorld(sub, now), es);
      && (w.pc.Opening? && w.pc.o.Calling? ==>
            match w.pc.o.s {
              case ValidateEnqueue => w.job.state == Pending
              case Compile => w.job.state == Compiling
              case Optimize => w.job.state == Optimizing
              case Schedule => w.job.state == Queued
              case _ => w.job.state == Running
            })
      && (w.pc.Simulating? || (w.pc.Retrying? && w.pc.r.Executing?) ==> w.job.state == Running)
      && (w.pc.Closing? && w.pc.c.Advancing? ==>
            match w.pc.c.s {
              case ValidateEnqueue => w.job.state == Pending
              case Compile => w.job.state == Optimizing
              case Optimize => w.job.state == Queued
              case _ => w.job.state == Running
            })
  {
    RunIsGood(sub, now, es);
    hide Run, NewWorld, Tally, InStage, Settled, Ready;
  }

  // ---- a rejection decides ----------------------------------------------------------------------------------

  /** How a job ends that is rejected with `e` while it is live. */
  ghost predicate EndedBy(j: Job, e: StageError) {
    if e.code == DeadlineExceeded then j.state == Timeout && j.errorCode == Some("DEADLINE_EXCEEDED")
    else j.state == Error && j.errorCode == Some(e.reason)
  }

  ghost predicate Rejecting(w: World, e: StageError) {
    if w.pc == Ending(Rejected(e)) then !Terminal(w.job.state) else w.pc == Ending(Ended) && EndedBy(w.job, e)
  }

  lemma StepRejecting(sub: Submission, w: World, e: StageError, event: Event)
    requires Rejecting(w, e)
    ensures Rejecting(Step(sub, w, event), e)
  {
    hide TerminalizedRecords, FailureRef, InputRef, LeaseExpired;
  }

  lemma {:induction false} RunRejecting(sub: Submission, w: World, e: StageError, es: seq<Event>)
    requires Rejecting(w, e)
    ensures Rejecting(Run(sub, w, es), e)
  {
    hide Step, Rejecting;
    if es != [] {
      RunRejecting(sub, w, e, es[..|es| - 1]);
      StepRejecting(sub, Run(sub, w, es[..|es| - 1]), e, es[|es| - 1]);
    }
  }

  lemma {:induction false} RunJoins(sub: Submission, w: World, a: seq<Event>, b: seq<Event>)
    ensures Run(sub, w, a + b) == Run(sub, Run(sub, w, a), b)
    decreases |b|
  {
    hide Step;
    if b == [] {
      assert a + b == a;
    } else {
      var most := b[..|b| - 1];
      assert (a + b)[..|a + b| - 1] == a + most;
      RunJoins(sub, w, a, most);
    }
  }

  /** Whatever happens after it, accepted cancels included: a failure that a stage's adapter answers, outside the retry
      loop, ends the job as Timeout if its code says so, and otherwise as Error with its reason. */
  lemma FailureDecides(sub: Submission, now: int, before: seq<Event>, event: Event, after: seq<Event>)
    requires event.Task? && event.reply.Fail?
    requires var w := Run(sub, NewWorld(sub, now), before); w.pc.Opening? && w.pc.o.Calling?
    ensures var v := Run(sub, NewWorld(sub, now), before + [event] + after);
      v.pc in {Ending(Ended), Ending(Rejected(event.reply.error))}
      && (v.pc == Ending(Ended) ==> EndedBy(v.job, event.reply.error))
  {
    var start, e := NewWorld(sub, now), event.reply.error;
    var w := Run(sub, start, before);
    RunIsGood(sub, now, before);
    assert !Terminal(w.job.state) by { hide OpenAt, HeldState; }
    RunOne(sub, start, before, event);
    RunJoins(sub, start, before + [event], after);
    var v := Run(sub, start, before + [event]);
    assert Rejecting(v, e) by { hide BeginStage, Sweep, Inv, Tally, NewWorld, Run, Terminal; }
    hide Run, NewWorld, Step, Good;
    RunRejecting(sub, v, e, after);
  }

  // ---- a verdict decides --------------------------------------------------------------------------------------

  ghost predicate Judged(j: Job, v: Verdict) {
    j.state == v.state && j.errorCode == Some(v.errorCode) && j.finalReason == Some(v.finalReason)
  }

  ghost predicate Concluding(w: World, v: Verdict) {
    || w.pc == Retrying(Reasoning(v))
    || (w.pc == Retrying(FailingExecute(v)) && w.job.finalReason == Some(v.finalReason))
    || (w.pc in {Retrying(Releasing(v)), Ending(Rejected(v.error)), Ending(Ended)} && Judged(w.job, v))
  }

  lemma StepConcluding(sub: Submission, w: World, v: Verdict, event: Event)
    requires Inv(sub, w) && Concluding(w, v) && Terminal(v.state)
    ensures Concluding(Step(sub, w, event), v)
  {
    hide OpenAt, Chain, HeldState, Settled, FinishStageFailure, RequestErrorTerminalization,
      RequestDeadlineTerminalization, LeaseExpired;
    if event.Task? && w.pc == Retrying(FailingExecute(v)) {
      FinishFails(w.job, Execute, v.state, v.errorCode, w.now);
      FailureCode(w.job, Execute, v.state, v.errorCode, w.now);
    }
    if event.Task? && w.pc == Ending(Rejected(v.error)) { TerminalWritesKeep(w.job, v.error.reason, w.now); }
  }

  lemma FailureCode(j: Job, s: Stage, t: TaskState, code: string, now: int)
    ensures var r := FinishStageFailure(j, s, t, code, now);
      r.ok ==> r.job.errorCode == Some(code) && r.job.finalReason == j.finalReason && r.job.state == t
  {
    hide Find, FailedRecord, FailureRef;
  }

  /** A verdict of the retry loop is carried out: its state, code and reason are what the job ends with. */
  lemma {:induction false} VerdictDecides(sub: Submission, w: World, v: Verdict, es: seq<Event>)
    requires Inv(sub, w) && Concluding(w, v) && Terminal(v.state)
    ensures Inv(sub, Run(sub, w, es)) && Concluding(Run(sub, w, es), v)
  {
    hide Step, Inv, Concluding;
    if es != [] {
      VerdictDecides(sub, w, v, es[..|es| - 1]);
      StepConcluding(sub, Run(sub, w, es[..|es| - 1]), v, es[|es| - 1]);
      StepKeeps(sub, Run(sub, w, es[..|es| - 1]), es[|es| - 1]);
    }
  }

  // ---- the retry decision ----------------------------------------------------------------------------------------

  /** The reason is not ruled out, and it is listed or its code is one of the transient ones. */
  predicate MayRetry(p: Policy, e: StageError) {
    && e.reason !in p.nonRetryable
    && (e.reason in p.retryable || e.code.Unavailable? || e.code.ResourceExhausted? || e.code.Aborted?
        || e.code.DeadlineExceeded?)
  }

  /** A failed attempt is followed by another exactly when the deadline lies ahead, the error may be retried, attempts
      are left and the next delay still fits; otherwise the first of these that fails names the verdict. */
  lemma RetryExactly(sub: Submission, w: World, reply: Reply, extra: nat)
    requires w.pc.Retrying? && w.pc.r.RetryDeciding?
    ensures var p, r, v := PolicyOf(sub.retry), w.pc.r, Step(sub, w, Task(reply, extra));
      var late := w.job.deadline.Some? && w.job.deadline.value <= w.now;
      var fits := w.now - r.started + Delay(p, r.error, r.attempt) <= p.maxElapsed;
      && (v.pc == Retrying(RetryGate(r.started, r.attempt)) <==>
            !late && MayRetry(p, r.error) && r.attempt < p.maxAttempts && fits)
      && (!late && !MayRetry(p, r.error) ==>
            v.pc == Retrying(Reasoning(Verdict(Error, "NON_RETRYABLE", r.error.reason, r.error))))
      && (!late && MayRetry(p, r.error) && r.attempt >= p.maxAttempts ==>
            v.pc == Retrying(Reasoning(Verdict(Error, "RETRY_EXHAUSTED", r.error.reason, r.error))))
      && (late || (MayRetry(p, r.error) && r.attempt < p.maxAttempts && !fits) ==>
            v.pc == Retrying(Reasoning(Verdict(Timeout, "DEADLINE_EXCEEDED", "DEADLINE_EXCEEDED", EXECUTION_DEADLINE))))
  {
    hide PolicyOf, Delay;
  }

  /** The gate lets the next attempt through exactly when the deadline lies ahead. */
  lemma GateExactly(sub: Submission, w: World, reply: Reply, extra: nat)
    requires w.pc.Retrying? && w.pc.r.RetryGate?
    ensures Step(sub, w, Task(reply, extra)).pc == Retrying(Executing(w.pc.r.started, w.pc.r.attempt + 1)) <==>
      (w.job.deadline.Some? ==> w.now < w.job.deadline.value)
  {
    hide PolicyOf;
  }

  /** An answer that comes at or after the deadline is not used; another than the first is counted as a retry that
      helped. */
  lemma AnswerExactly(sub: Submission, w: World, reply: Reply, extra: nat)
    requires w.pc.Retrying? && w.pc.r.RetryAnswered?
    ensures var v := Step(sub, w, Task(reply, extra)).pc;
      if w.job.deadline.Some? && w.job.deadline.value <= w.now then
        v == Retrying(Reasoning(Verdict(Timeout, "DEADLINE_EXCEEDED", "DEADLINE_EXCEEDED", EXECUTION_DEADLINE)))
      else v == if w.pc.r.attempt >= 2 then Retrying(RetryCounting) else Closing(ControlGate(Execute))
  {
    hide PolicyOf;
  }

  lemma CountingExactly(sub: Submission, w: World, reply: Reply, extra: nat)
    requires w.pc == Retrying(RetryCounting)
    ensures Step(sub, w, Task(reply, extra)) ==
      w.(job := w.job.(succeededAfterRetry := 1, updatedAt := w.now), pc := Closing(ControlGate(Execute)))
  {
    hide PolicyOf;
  }

  /** Between a stage's answer and its end: a cancel is looked for, then the deadline; four stages publish what they
      answered, which refreshes the job, except a persist answer without a result. */
  lemma ClosingExactly(sub: Submission, w: World, reply: Reply, extra: nat)
    requires w.pc.Closing?
    ensures var v, c, j := Step(sub, w, Task(reply, extra)), w.pc.c, w.job;
      && (c.ControlGate? && !j.cancelRequested ==> v.pc == Closing(DeadlineGate(c.s)))
      && (c.DeadlineGate? && (j.deadline.Some? ==> w.now < j.deadline.value) ==>
            v.pc == Closing(if c.s in {Schedule, Execute, Persist, Observe} then Publishing(c.s) else Finishing(c.s)))
      && (c.ControlGate? && j.cancelRequested ==>
            v.pc == Ending(Controlling(if c.s == ValidateEnqueue then Compile else c.s)))
      && (c.Publishing? ==>
            && v.pc == Closing(Finishing(c.s))
            && v.job == if c.s == Persist && "qfs_result_ref" !in w.output then j else j.(updatedAt := w.now))
  {
    hide FinishStageSuccess;
  }

  /** An answer replaces the one before it; a persist answer with a summary refreshes the job first. */
  lemma CallingExactly(sub: Submission, w: World, reply: Reply, extra: nat)
    requires w.pc.Opening? && w.pc.o.Calling? && reply.Answer?
    ensures var v, s := Step(sub, w, Task(reply, extra)), w.pc.o.s;
      && v.output == reply.output && v.job == w.job
      && v.pc == if s == Persist && reply.summarized then Opening(Summarizing) else Closing(ControlGate(s))
    ensures Step(sub, w.(pc := Opening(Summarizing)), Task(reply, extra)) ==
      w.(pc := Closing(ControlGate(Persist)), job := w.job.(updatedAt := w.now))
  {
    hide BeginStage;
  }

  predicate Over(limit: Option<Limit>, elapsed: int) {
    match limit
    case Some(Millis(ms)) => ms <= elapsed
    case _ => false
  }

  /** The simulated run looks for a cancel, then at the deadline, then at its timeout and only then at its duration;
      it sleeps at least 20 ms between rounds, and goes on to the first attempt when its duration is over. */
  lemma SimulationExactly(sub: Submission, w: World, reply: Reply, extra: nat)
    requires w.pc.Simulating?
    ensures var v, t := Step(sub, w, Task(reply, extra)), w.pc.m.started;
      && v.job == w.job
      && (w.pc.m.SimCancel? ==>
            v.pc == (if w.job.cancelRequested then Ending(CancelBeginning(Execute)) else Simulating(SimDeadline(t))))
      && (w.pc.m.SimDeadline? ==>
            v.pc == if w.job.deadline.Some? && w.job.deadline.value <= w.now then Ending(Controlling(Execute))
                    else Simulating(SimElapsed(t)))
      && (w.pc.m.SimElapsed? && Over(sub.timeout, w.now - t) ==>
            v.pc == Ending(Rejected(StageError(DeadlineExceeded, "EIGEN_EXECUTION_DEADLINE_EXCEEDED"))))
      && (w.pc.m.SimElapsed? && !Over(sub.timeout, w.now - t) && Over(sub.simulate, w.now - t) ==>
            v.pc == Retrying(RetryGate(w.now, 0)) && v.now == w.now)
      && (w.pc.m.SimElapsed? && !Over(sub.timeout, w.now - t) && !Over(sub.simulate, w.now - t) ==>
            v.pc == Simulating(SimCancel(t)) && v.now == w.now + 20 + extra)
  {}

  predicate PastExecuting(pc: PC) {
    pc.Ending? || (pc.Retrying? && (pc.r.Reasoning? || pc.r.FailingExecute? || pc.r.Releasing?))
  }

  /** What can follow the failure of an attempt. */
  ghost predicate Follows(p: Policy, w: World, e: StageError) {
    || MayRetry(p, e) || PastExecuting(w.pc)
    || (w.pc.Retrying? && (w.pc.r.Recording? || w.pc.r.RetryDeciding?) && w.pc.r.error == e)
  }

  lemma StepFollows(sub: Submission, w: World, e: StageError, event: Event)
    requires Follows(PolicyOf(sub.retry), w, e)
    ensures Follows(PolicyOf(sub.retry), Step(sub, w, event), e)
  {
    hide PolicyOf, Delay, FinishStageFailure, BeginStage, RequestErrorTerminalization, RequestDeadlineTerminalization,
      OpenStep, CloseStep, SimStep, DeadlineExpired, LeaseExpired;
  }

  lemma {:induction false} RunFollows(sub: Submission, w: World, e: StageError, es: seq<Event>)
    requires Follows(PolicyOf(sub.retry), w, e)
    ensures Follows(PolicyOf(sub.retry), Run(sub, w, es), e)
  {
    hide Step, Follows, PolicyOf;
    if es != [] {
      RunFollows(sub, w, e, es[..|es| - 1]);
      StepFollows(sub, Run(sub, w, es[..|es| - 1]), e, es[|es| - 1]);
    }
  }

  /** Over any run: the execute adapter is called again after a failure only if that failure may be retried. */
  lemma RetriedOnlyIfAllowed(sub: Submission, w: World, event: Event, es: seq<Event>)
    requires w.pc.Retrying? && w.pc.r.Executing? && event.Task? && event.reply.Fail?
    requires var v := Run(sub, Step(sub, w, event), es); v.pc.Retrying? && v.pc.r.Executing?
    ensures MayRetry(PolicyOf(sub.retry), event.reply.error)
  {
    hide Run, PolicyOf;
    RunFollows(sub, Step(sub, w, event), event.reply.error, es);
  }

  // ---- what a timeout means ----------------------------------------------------------------------------------------

  /** A step taken when time was up: the job's deadline had passed, or the simulated run's timeout, or another attempt
      would have gone over the retry budget; or the adapter said that its deadline was exceeded. */
  predicate TimeIsUp(sub: Submission, w: World, event: Event) {
    var p := PolicyOf(sub.retry);
    event.Task? &&
    (|| (sub.deadline.Some? && sub.deadline.value <= w.now)
     || (w.pc.Simulating? && sub.timeout.Some? && sub.timeout.value.Millis?
         && sub.timeout.value.ms <= w.now - w.pc.m.started)
     || (w.pc.Retrying? && w.pc.r.RetryDeciding?
         && w.now - w.pc.r.started + Delay(p, w.pc.r.error, w.pc.r.attempt) > p.maxElapsed)
     || (w.pc.Opening? && w.pc.o.Calling? && event.reply.Fail? && event.reply.error.code == DeadlineExceeded))
  }

  ghost predicate TimeWasUp(sub: Submission, w: World, es: seq<Event>) {
    exists i :: 0 <= i < |es| && TimeIsUp(sub, Run(sub, w, es[..i]), es[i])
  }

  /** The job has timed out, or its task is on the way to it. */
  predicate TimesOut(w: World) {
    || w.job.state == Timeout
    || match w.pc
       case Ending(TimingOut) => true
       case Ending(Controlling(_)) => !w.job.cancelRequested
       case Ending(Rejected(e)) => e.code == DeadlineExceeded && !Terminal(w.job.state)
       case Retrying(Reasoning(v)) => v.state == Timeout
       case Retrying(FailingExecute(v)) => v.state == Timeout
       case _ => false
  }

  lemma WritesDoNotTimeOut(j: Job, s: Stage, t: TaskState, input: Input, code: string, now: int)
    ensures BeginStage(j, s, t, input, now).job.state in {j.state, Error}
    ensures FinishStageSuccess(j, s, t, now).job.state in {j.state, t}
    ensures FinishStageFailure(j, s, t, code, now).job.state in {j.state, t}
    ensures RequestErrorTerminalization(j, code, now).state in {j.state, Error}
    ensures Terminal(j.state) ==> RequestDeadlineTerminalization(j, now) == j
  {
    hide Find, RequiredFields, Opened, Orphan, SucceededRecord, FailedRecord, FailureRef, CompletionRef,
      TerminalizedRecords, InputRef, PreviousOutput;
  }

  lemma OpenTimely(sub: Submission, w: World, event: Event)
    requires Inv(sub, w) && w.pc.Opening? && event.Task? && TimesOut(OpenStep(sub, w, w.pc.o, event.reply))
    ensures TimesOut(w) || TimeIsUp(sub, w, event)
  {
    hide BeginStage, StageInput, StageState, LeaseExpired, Terminal, PolicyOf, Delay, Inv;
    var o := w.pc.o;
    if o.Beginning? {
      WritesDoNotTimeOut(w.job, o.s, StageState(o.s), StageInput(sub, o.s, w.output), "", w.now);
    }
  }

  lemma CloseTimely(sub: Submission, w: World, event: Event)
    requires Inv(sub, w) && w.pc.Closing? && event.Task? && TimesOut(CloseStep(w, w.pc.c))
    ensures TimesOut(w) || TimeIsUp(sub, w, event)
  {
    hide FinishStageSuccess, Publishes, Terminal, PolicyOf, Delay, At, NextState, StageState;
    var c := w.pc.c;
    StatesOfSuccess(c.s);
    StatesOfSuccess(NextStage(c.s));
    if c.Finishing? { WritesDoNotTimeOut(w.job, c.s, NextState(c.s), CANCEL_INPUT, "", w.now); }
  }

  lemma EndTimely(sub: Submission, w: World, event: Event)
    requires Inv(sub, w) && w.pc.Ending? && event.Task? && TimesOut(EndStep(w, w.pc.e))
    ensures TimesOut(w) || TimeIsUp(sub, w, event)
  {
    hide BeginStage, FinishStageFailure, RequestErrorTerminalization, RequestDeadlineTerminalization, StageState,
      PolicyOf, Delay, Inv, Terminal;
    match w.pc.e
    case CancelBeginning(s) => WritesDoNotTimeOut(w.job, s, StageState(s), CANCEL_INPUT, "", w.now);
    case CancelFailing(s) => WritesDoNotTimeOut(w.job, s, Cancelled, CANCEL_INPUT, "CANCELLED", w.now);
    case Rejected(err) => WritesDoNotTimeOut(w.job, Execute, Error, CANCEL_INPUT, err.reason, w.now);
    case _ =>
  }

  lemma SimTimely(sub: Submission, w: World, event: Event)
    requires Inv(sub, w) && w.pc.Simulating? && event.Task? && TimesOut(SimStep(sub, w, w.pc.m, event.extra))
    ensures TimesOut(w) || TimeIsUp(sub, w, event)
  {
    hide PolicyOf, Delay, At, Terminal;
  }

  lemma RetryTimely(sub: Submission, w: World, event: Event)
    requires Inv(sub, w) && w.pc.Retrying? && event.Task?
    requires TimesOut(RetryStep(sub, w, w.pc.r, event.reply, event.extra))
    ensures TimesOut(w) || TimeIsUp(sub, w, event)
  {
    hide PolicyOf, Delay, Retryable, FinishStageFailure, OpenAt, Chain, HeldState, Sound, Orphaned;
    var r := w.pc.r;
    if r.FailingExecute? {
      FinishFails(w.job, Execute, r.v.state, r.v.errorCode, w.now);
      WritesDoNotTimeOut(w.job, Execute, r.v.state, CANCEL_INPUT, r.v.errorCode, w.now);
    }
  }

  lemma StepTimely(sub: Submission, w: World, event: Event)
    requires Inv(sub, w) && TimesOut(Step(sub, w, event))
    ensures TimesOut(w) || TimeIsUp(sub, w, event)
  {
    hide OpenStep, CloseStep, EndStep, SimStep, RetryStep, Inv, TimeIsUp, LeaseExpired;
    if event.Task? {
      hide TimesOut;
      match w.pc
      case Opening(_) => OpenTimely(sub, w, event);
      case Closing(_) => CloseTimely(sub, w, event);
      case Ending(_) => EndTimely(sub, w, event);
      case Simulating(_) => SimTimely(sub, w, event);
      case Retrying(_) => RetryTimely(sub, w, event);
    }
  }

  lemma TimeWasUpGrows(sub: Submission, w: World, es: seq<Event>)
    requires es != []
    ensures TimeWasUp(sub, w, es[..|es| - 1]) ==> TimeWasUp(sub, w, es)
    ensures TimeIsUp(sub, Run(sub, w, es[..|es| - 1]), es[|es| - 1]) ==> TimeWasUp(sub, w, es)
  {
    hide Run, TimeIsUp;
    var most := es[..|es| - 1];
    assert forall i :: 0 <= i < |most| ==> most[..i] == es[..i] && most[i] == es[i];
  }

  /** A job is in Timeout only if, at some step of its task, time was up. */
  lemma {:induction false} TimeoutOnlyIfLate(sub: Submission, now: int, es: seq<Event>)
    ensures TimesOut(Run(sub, NewWorld(sub, now), es)) ==> TimeWasUp(sub, NewWorld(sub, now), es)
  {
    var w := NewWorld(sub, now);
    if es != [] {
      var most, e := es[..|es| - 1], es[|es| - 1];
      TimeoutOnlyIfLate(sub, now, most);
      RunIsGood(sub, now, most);
      TimeWasUpGrows(sub, w, es);
      hide Step, NewWorld, TimesOut, TimeIsUp, TimeWasUp, Inv, Tally;
      if TimesOut(Step(sub, Run(sub, w, most), e)) { StepTimely(sub, Run(sub, w, most), e); }
    }
  }

  // ---- the error codes ---------------------------------------------------------------------------------------------

  /** A code is there exactly when the job failed, and tells a cancel and a timeout apart from the rest. */
  ghost predicate CodeFits(j: Job) {
    && (j.errorCode.Some? <==> j.state in {Error, Cancelled, Timeout})
    && (j.state == Cancelled ==> j.errorCode == Some("CANCELLED"))
    && (j.state == Timeout ==> j.errorCode == Some("DEADLINE_EXCEEDED"))
  }

  ghost predicate CodesFit(w: World) {
    && CodeFits(w.job)
    && (w.pc.Retrying? && (w.pc.r.Reasoning? || w.pc.r.FailingExecute?) ==>
          w.pc.r.v.state == Error || (w.pc.r.v.state == Timeout && w.pc.r.v.errorCode == "DEADLINE_EXCEEDED"))
  }

  lemma WritesFit(j: Job, s: Stage, t: TaskState, input: Input, code: string, now: int)
    requires CodeFits(j)
    ensures CodeFits(BeginStage(j, s, t, input, now).job)
    ensures !Terminal(j.state) && t !in {Error, Cancelled, Timeout} ==> CodeFits(FinishStageSuccess(j, s, t, now).job)
    ensures t == Error || (t == Cancelled && code == "CANCELLED") || (t == Timeout && code == "DEADLINE_EXCEEDED") ==>
      CodeFits(FinishStageFailure(j, s, t, code, now).job)
  {
    hide Find, RequiredFields, Opened, Orphan, SucceededRecord, FailedRecord, FailureRef, CompletionRef, PreviousOutput;
  }

  lemma TerminalWritesFit(j: Job, code: string, now: int)
    requires CodeFits(j)
    ensures CodeFits(RequestErrorTerminalization(j, code, now)) && CodeFits(RequestDeadlineTerminalization(j, now))
  {
    hide TerminalizedRecords, FailureRef, InputRef;
  }

  lemma StatesOfSuccess(s: Stage)
    ensures NextState(s) !in {Error, Cancelled, Timeout} && StageState(s) !in {Error, Cancelled, Timeout}
  {}

  lemma OpenFits(sub: Submission, w: World, reply: Reply)
    requires CodesFit(w) && w.pc.Opening?
    ensures CodesFit(OpenStep(sub, w, w.pc.o, reply))
  {
    hide BeginStage, StageInput, StageState, LeaseExpired, Terminal;
    var o := w.pc.o;
    if o.Beginning? { WritesFit(w.job, o.s, StageState(o.s), StageInput(sub, o.s, w.output), "", w.now); }
  }

  lemma CloseFits(sub: Submission, w: World)
    requires Inv(sub, w) && CodesFit(w) && w.pc.Closing?
    ensures CodesFit(CloseStep(w, w.pc.c))
  {
    var c := w.pc.c;
    assert !Terminal(w.job.state) by { hide OpenAt, Chain, HeldState, NextState; }
    hide FinishStageSuccess, Publishes, DeadlineExpired, Inv, StageState, NextState;
    StatesOfSuccess(c.s);
    StatesOfSuccess(NextStage(c.s));
    if c.Finishing? { WritesFit(w.job, c.s, NextState(c.s), CANCEL_INPUT, "", w.now); }
  }

  lemma EndFits(w: World)
    requires CodesFit(w) && w.pc.Ending?
    ensures CodesFit(EndStep(w, w.pc.e))
  {
    hide BeginStage, FinishStageFailure, RequestErrorTerminalization, RequestDeadlineTerminalization, StageState;
    match w.pc.e
    case CancelBeginning(s) => WritesFit(w.job, s, StageState(s), CANCEL_INPUT, "", w.now);
    case CancelFailing(s) => WritesFit(w.job, s, Cancelled, CANCEL_INPUT, "CANCELLED", w.now);
    case Rejected(err) => TerminalWritesFit(w.job, err.reason, w.now);
    case TimingOut => TerminalWritesFit(w.job, "", w.now);
    case _ =>
  }

  lemma RetryFits(sub: Submission, w: World, reply: Reply, extra: nat)
    requires CodesFit(w) && w.pc.Retrying?
    ensures CodesFit(RetryStep(sub, w, w.pc.r, reply, extra))
  {
    hide FinishStageFailure, PolicyOf, Retryable, Delay, DeadlineExpired;
    var r := w.pc.r;
    if r.FailingExecute? { WritesFit(w.job, Execute, r.v.state, CANCEL_INPUT, r.v.errorCode, w.now); }
  }

  lemma StepFits(sub: Submission, w: World, event: Event)
    requires Inv(sub, w) && CodesFit(w)
    ensures CodesFit(Step(sub, w, event))
  {
    hide OpenStep, CloseStep, EndStep, RetryStep, Inv, DeadlineExpired, Reached, LeaseExpired;
    if event.Task? {
      match w.pc
      case Opening(_) => OpenFits(sub, w, event.reply);
      case Closing(_) => CloseFits(sub, w);
      case Ending(_) => EndFits(w);
      case Simulating(_) =>
      case Retrying(_) => RetryFits(sub, w, event.reply, event.extra);
    }
  }

  /** At every point of every run the error code fits the state. */
  lemma {:induction false} CodesFitOverRun(sub: Submission, now: int, es: seq<Event>)
    ensures CodesFit(Run(sub, NewWorld(sub, now), es))
  {
    if es != [] {
      var most := es[..|es| - 1];
      CodesFitOverRun(sub, now, most);
      RunIsGood(sub, now, most);
      hide Step, NewWorld, CodesFit, Inv, Tally;
      StepFits(sub, Run(sub, NewWorld(sub, now), most), es[|es| - 1]);
    }
  }
}
