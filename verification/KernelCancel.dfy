/** What a cancel request means over whole runs: only a request leads to Cancelled, and a request keeps
    the job from being Done exactly when it is accepted before the last look at it. */
module KernelCancel {
  import opened KernelModel
  import opened KernelDag
  import opened KernelInvariant
  import opened KernelRuns
  import opened KernelRetry
  import opened KernelProgress

  // ---- what the writes do to the flag and the state --------------------------------------------------

  lemma StageWrites(j: Job, s: Stage, t: TaskState, input: Input, code: string, now: int)
    ensures var b := BeginStage(j, s, t, input, now).job;
      b.cancelRequested == j.cancelRequested && b.state in {j.state, Error}
    ensures var b := FinishStageSuccess(j, s, t, now).job;
      b.cancelRequested == j.cancelRequested && b.state in {j.state, t}
    ensures var b := FinishStageFailure(j, s, t, code, now).job;
      b.cancelRequested == j.cancelRequested && b.state in {j.state, t}
  {
    hide Find, RequiredFields, Opened, Orphan, SucceededRecord, FailedRecord, FailureRef, CompletionRef,
      PreviousOutput, Terminal;
  }

  lemma TerminalWrites(j: Job, code: string, now: int)
    ensures var b := RequestErrorTerminalization(j, code, now);
      b.cancelRequested == j.cancelRequested && b.state in {j.state, Error}
    ensures var b := RequestDeadlineTerminalization(j, now);
      (j.cancelRequested ==> b.cancelRequested) && b.state in {j.state, Timeout}
    ensures var b := RequestDeadlineTerminalization(j, now); if Terminal(j.state) then b == j else b.state == Timeout
  {
    hide TerminalizedRecords, FailureRef, InputRef;
  }

  // ---- only a request leads to Cancelled --------------------------------------------------------------

  predicate Cancels(pc: PC) { pc.Ending? && (pc.e.CancelBeginning? || pc.e.CancelFailing? || pc.e.CancelReleasing?) }

  /** A cancel request that meets a job that is not terminal. */
  predicate Accepts(w: World, e: Event) { e == Cancel && !Terminal(w.job.state) }

  ghost predicate Accepted(sub: Submission, w: World, es: seq<Event>) {
    exists i :: 0 <= i < |es| && Accepts(Run(sub, w, es[..i]), es[i])
  }

  /** The flag stands for an accepted request, except that a deadline also sets it when it ends the job; being
      cancelled, or on the way to it, always goes back to a request. */
  ghost predicate Asked(w: World, accepted: bool) {
    && (accepted ==> w.job.cancelRequested)
    && (w.job.cancelRequested && !accepted ==> w.job.state == Timeout && w.pc == Ending(Ended))
    && (w.job.state == Cancelled || Cancels(w.pc) ==> accepted)
  }

  lemma OpenAsked(sub: Submission, w: World, reply: Reply, accepted: bool)
    requires Asked(w, accepted) && w.pc.Opening?
    ensures Asked(OpenStep(sub, w, w.pc.o, reply), accepted)
  {
    hide BeginStage, StageInput, StageState, LeaseExpired, Terminal;
    var o := w.pc.o;
    if o.Beginning? { StageWrites(w.job, o.s, StageState(o.s), StageInput(sub, o.s, w.output), "", w.now); }
  }

  lemma CloseAsked(sub: Submission, w: World, accepted: bool)
    requires Asked(w, accepted) && w.pc.Closing?
    ensures Asked(CloseStep(w, w.pc.c), accepted)
  {
    hide FinishStageSuccess, Publishes, DeadlineExpired, Terminal;
    var c := w.pc.c;
    if c.Finishing? { StageWrites(w.job, c.s, NextState(c.s), CANCEL_INPUT, "", w.now); }
  }

  lemma EndAsked(w: World, accepted: bool)
    requires Asked(w, accepted) && w.pc.Ending?
    ensures Asked(EndStep(w, w.pc.e), accepted)
  {
    hide BeginStage, FinishStageFailure, RequestErrorTerminalization, RequestDeadlineTerminalization, StageState;
    match w.pc.e
    case CancelBeginning(s) => StageWrites(w.job, s, StageState(s), CANCEL_INPUT, "", w.now);
    case CancelFailing(s) => StageWrites(w.job, s, Cancelled, CANCEL_INPUT, "CANCELLED", w.now);
    case Rejected(err) => TerminalWrites(w.job, err.reason, w.now);
    case TimingOut => TerminalWrites(w.job, "", w.now);
    case _ =>
  }

  lemma RetryAsked(sub: Submission, w: World, reply: Reply, extra: nat, accepted: bool)
    requires Asked(w, accepted) && w.pc.Retrying? && (w.pc.r.FailingExecute? ==> w.pc.r.v.state in {Error, Timeout})
    ensures Asked(RetryStep(sub, w, w.pc.r, reply, extra), accepted)
  {
    hide FinishStageFailure, PolicyOf, Retryable, Delay, Decision, DeadlineExpired;
    if w.pc.r.FailingExecute? {
      StageWrites(w.job, Execute, w.pc.r.v.state, CANCEL_INPUT, w.pc.r.v.errorCode, w.now);
    }
  }

  lemma StepAsked(sub: Submission, w: World, e: Event, accepted: bool)
    requires Inv(sub, w) && Asked(w, accepted)
    ensures Asked(Step(sub, w, e), accepted || Accepts(w, e))
  {
    hide OpenStep, CloseStep, EndStep, RetryStep, OpenIn, AtOpen, AtClose, AtEnd, DeadlineExpired, Reached,
      LeaseExpired;
    if e.Task? {
      match w.pc
      case Opening(_) => OpenAsked(sub, w, e.reply, accepted);
      case Closing(_) => CloseAsked(sub, w, accepted);
      case Ending(_) => EndAsked(w, accepted);
      case Simulating(_) =>
      case Retrying(_) => RetryAsked(sub, w, e.reply, e.extra, accepted);
    }
  }

  lemma AcceptedSplits(sub: Submission, w: World, es: seq<Event>)
    requires es != []
    ensures var most := es[..|es| - 1];
      Accepted(sub, w, es) <==> Accepted(sub, w, most) || Accepts(Run(sub, w, most), es[|es| - 1])
  {
    hide Run, Accepts;
    var most := es[..|es| - 1];
    assert forall i :: 0 <= i < |most| ==> most[..i] == es[..i] && most[i] == es[i];
  }

  /** A job is Cancelled, or on the way to it, only after a cancel request that met it before it was terminal. */
  lemma {:induction false} CancelledOnlyIfAsked(sub: Submission, now: int, es: seq<Event>)
    ensures Asked(Run(sub, NewWorld(sub, now), es), Accepted(sub, NewWorld(sub, now), es))
  {
    var w := NewWorld(sub, now);
    if es != [] {
      var most := es[..|es| - 1];
      CancelledOnlyIfAsked(sub, now, most);
      AcceptedSplits(sub, w, es);
      RunIsGood(sub, now, most);
      hide Step, Asked, NewWorld, Inv, Tally, Accepted, Accepts;
      StepAsked(sub, Run(sub, w, most), es[|es| - 1], Accepted(sub, w, most));
    }
  }

  // ---- a request before the last gate prevents Done ----------------------------------------------------------

  /** Between the last look at the cancel flag and the write of Done. */
  predicate PastLastGate(pc: PC) { pc.Closing? && pc.c.s == Finalize && !pc.c.ControlGate? }

  ghost predicate Caught(w: World) { w.job.cancelRequested && w.job.state != Done && !PastLastGate(w.pc) }

  lemma NotDone(s: Stage)
    ensures NextState(s) == Done <==> s == Finalize
    ensures s in {ValidateEnqueue, Compile, Optimize, Schedule} ==> StageState(NextStage(s)) != Done
  {}

  lemma OpenCaught(sub: Submission, w: World, reply: Reply)
    requires Caught(w) && w.pc.Opening?
    ensures Caught(OpenStep(sub, w, w.pc.o, reply))
  {
    hide BeginStage, StageInput, StageState, LeaseExpired, Terminal;
    var o := w.pc.o;
    if o.Beginning? { StageWrites(w.job, o.s, StageState(o.s), StageInput(sub, o.s, w.output), "", w.now); }
  }

  lemma CloseCaught(sub: Submission, w: World)
    requires Caught(w) && w.pc.Closing? && AtClose(w.pc.c, w.job)
    ensures Caught(CloseStep(w, w.pc.c))
  {
    hide FinishStageSuccess, Publishes, DeadlineExpired, Terminal, OpenIn, StageState, NextState;
    var c := w.pc.c;
    NotDone(c.s);
    if c.Finishing? { StageWrites(w.job, c.s, NextState(c.s), CANCEL_INPUT, "", w.now); }
  }

  lemma EndCaught(w: World)
    requires Caught(w) && w.pc.Ending?
    ensures Caught(EndStep(w, w.pc.e))
  {
    hide BeginStage, FinishStageFailure, RequestErrorTerminalization, RequestDeadlineTerminalization, StageState;
    match w.pc.e
    case CancelBeginning(s) => StageWrites(w.job, s, StageState(s), CANCEL_INPUT, "", w.now);
    case CancelFailing(s) => StageWrites(w.job, s, Cancelled, CANCEL_INPUT, "CANCELLED", w.now);
    case Rejected(err) => TerminalWrites(w.job, err.reason, w.now);
    case TimingOut => TerminalWrites(w.job, "", w.now);
    case _ =>
  }

  lemma RetryCaught(sub: Submission, w: World, reply: Reply, extra: nat)
    requires Caught(w) && w.pc.Retrying? && (w.pc.r.FailingExecute? ==> w.pc.r.v.state in {Error, Timeout})
    ensures Caught(RetryStep(sub, w, w.pc.r, reply, extra))
  {
    hide FinishStageFailure, PolicyOf, Retryable, Delay, Decision, DeadlineExpired;
    if w.pc.r.FailingExecute? {
      StageWrites(w.job, Execute, w.pc.r.v.state, CANCEL_INPUT, w.pc.r.v.errorCode, w.now);
    }
  }

  lemma StepCaught(sub: Submission, w: World, e: Event)
    requires Inv(sub, w) && Caught(w)
    ensures Caught(Step(sub, w, e))
  {
    hide OpenStep, CloseStep, EndStep, RetryStep, OpenIn, AtOpen, AtClose, AtEnd, DeadlineExpired, Reached,
      LeaseExpired;
    if e.Task? {
      match w.pc
      case Opening(_) => OpenCaught(sub, w, e.reply);
      case Closing(_) => CloseCaught(sub, w);
      case Ending(_) => EndCaught(w);
      case Simulating(_) =>
      case Retrying(_) => RetryCaught(sub, w, e.reply, e.extra);
    }
  }

  /** Past the gate, but at the look at a deadline that has passed. */
  predicate TooLate(w: World) { w.pc == Closing(DeadlineGate(Finalize)) && DeadlineExpired(w.job, w.now) }

  ghost predicate Doomed(w: World) {
    w.job.cancelRequested && w.job.state != Done && (PastLastGate(w.pc) ==> TooLate(w))
  }

  lemma StepDoomed(sub: Submission, w: World, e: Event)
    requires Inv(sub, w) && Doomed(w)
    ensures Doomed(Step(sub, w, e))
  {
    if Caught(w) {
      hide Step, Inv;
      StepCaught(sub, w, e);
    } else {
      hide Inv, Terminal, LeaseExpired;
    }
  }

  lemma {:induction false} CancelPreventsDone(sub: Submission, w: World, es: seq<Event>)
    requires Inv(sub, w) && Doomed(w)
    ensures Inv(sub, Run(sub, w, es)) && Doomed(Run(sub, w, es))
  {
    if es != [] {
      hide Step, Doomed, Inv;
      CancelPreventsDone(sub, w, es[..|es| - 1]);
      StepDoomed(sub, Run(sub, w, es[..|es| - 1]), es[|es| - 1]);
      StepKeeps(sub, Run(sub, w, es[..|es| - 1]), es[|es| - 1]);
    } else {
      hide Inv;
    }
  }

  lemma LastWriteIgnoresCancel(sub: Submission, w: World)
    requires Inv(sub, w) && w.pc == Closing(Finishing(Finalize))
    ensures Step(sub, w, SUCCESS).job.state == Done
  {
    hide FinishStageSuccess, InStage, Settled, Ready;
    FinishSucceeds(w.job, Finalize, w.now);
  }

  lemma GateStep(sub: Submission, w: World)
    requires Inv(sub, w) && PastLastGate(w.pc) && !TooLate(w) && w.pc != Closing(Finishing(Finalize))
    ensures Step(sub, w, SUCCESS).pc == Closing(Finishing(Finalize))
  {
    assert !w.pc.c.Advancing? by { hide OpenIn, Ready, NextState; }
    hide Inv, FinishStageSuccess, SetState, DeadlineExpired, NextState, Touch;
  }

  /** Past the gate and in time, the task goes on to the last write. */
  lemma GateLeadsToDone(sub: Submission, w: World) returns (es: seq<Event>)
    requires Inv(sub, w) && PastLastGate(w.pc) && !TooLate(w)
    ensures Run(sub, w, es).job.state == Done
  {
    hide Step, Inv, PastLastGate, TooLate;
    RunOne(sub, w, [], SUCCESS);
    if w.pc == Closing(Finishing(Finalize)) {
      LastWriteIgnoresCancel(sub, w);
      es := [] + [SUCCESS];
    } else {
      GateStep(sub, w);
      StepKeeps(sub, w, SUCCESS);
      RunOne(sub, w, [] + [SUCCESS], SUCCESS);
      LastWriteIgnoresCancel(sub, Step(sub, w, SUCCESS));
      es := [] + [SUCCESS] + [SUCCESS];
    }
  }

  /** Once a cancel is accepted, the job can still become Done exactly when its task has taken its last look at the
      flag and is not about to find the deadline passed. */
  lemma CancelExactly(sub: Submission, w: World)
    requires Inv(sub, w) && w.job.cancelRequested && w.job.state != Done
    ensures (exists es :: Run(sub, w, es).job.state == Done) <==> PastLastGate(w.pc) && !TooLate(w)
  {
    hide Inv, Run, TooLate, PastLastGate;
    if PastLastGate(w.pc) && !TooLate(w) {
      var es := GateLeadsToDone(sub, w);
    } else {
      forall es ensures Run(sub, w, es).job.state != Done { CancelPreventsDone(sub, w, es); }
    }
  }

  // ---- a request stops the stages that have not begun ------------------------------------------------------------

  /** The task is past its look at the flag and begins the stage next. */
  predicate BeginsNext(pc: PC) { pc.Opening? && pc.o.Beginning? && pc.o.s !in {ValidateEnqueue, Finalize} }

  lemma StepStops(sub: Submission, w: World, e: Event)
    requires Inv(sub, w) && w.job.cancelRequested && !BeginsNext(w.pc)
    ensures Step(sub, w, e).job.cancelRequested && !BeginsNext(Step(sub, w, e).pc)
  {
    hide BeginStage, FinishStageSuccess, FinishStageFailure, RequestErrorTerminalization,
      RequestDeadlineTerminalization, StageInput, StageState, NextState, PolicyOf, Retryable, Delay, Decision,
      DeadlineExpired, LeaseExpired, Reached, Terminal, Publishes, Inv;
    if e.Task? {
      match w.pc
      case Opening(o) =>
        if o.Beginning? { StageWrites(w.job, o.s, StageState(o.s), StageInput(sub, o.s, w.output), "", w.now); }
      case Closing(c) => if c.Finishing? { StageWrites(w.job, c.s, NextState(c.s), CANCEL_INPUT, "", w.now); }
      case Ending(p) =>
        TerminalWrites(w.job, if p.Rejected? then p.error.reason else "", w.now);
        if p.CancelBeginning? { StageWrites(w.job, p.s, StageState(p.s), CANCEL_INPUT, "", w.now); }
        if p.CancelFailing? { StageWrites(w.job, p.s, Cancelled, CANCEL_INPUT, "CANCELLED", w.now); }
      case Simulating(_) =>
      case Retrying(r) =>
        if r.FailingExecute? { StageWrites(w.job, Execute, r.v.state, CANCEL_INPUT, r.v.errorCode, w.now); }
    }
  }

  /** Once a cancel is accepted, no stage between validation and the last one is begun any more, unless the task had
      already looked. */
  lemma {:induction false} CancelStopsStages(sub: Submission, w: World, es: seq<Event>)
    requires Inv(sub, w) && w.job.cancelRequested && !BeginsNext(w.pc)
    ensures var v := Run(sub, w, es); Inv(sub, v) && v.job.cancelRequested && !BeginsNext(v.pc)
  {
    hide Step, Inv, BeginsNext;
    if es != [] {
      CancelStopsStages(sub, w, es[..|es| - 1]);
      StepStops(sub, Run(sub, w, es[..|es| - 1]), es[|es| - 1]);
      StepKeeps(sub, Run(sub, w, es[..|es| - 1]), es[|es| - 1]);
    }
  }

  // ---- a run that is cancelled and Done ------------------------------------------------------------------------

  /** Nothing stands in the way of this submission. */
  predicate Unhindered(sub: Submission, now: int) {
    !sub.backendUnavailable && sub.simulate.None? && (sub.deadline.Some? ==> now < sub.deadline.value)
  }

  /** Points of the first attempt of the execute adapter. */
  predicate FirstAttempt(r: RetryPoint) {
    || (r.RetryGate? && r.attempt == 0) || (r.Executing? && r.attempt == 1) || (r.RetryAnswered? && r.attempt == 1)
  }

  /** Nobody has cancelled, and every adapter answered in full. */
  ghost predicate Smooth(sub: Submission, w: World) {
    && Unhindered(sub, w.now) && w.job.deadline == sub.deadline && !w.job.cancelRequested
    && (BeforeFirstAnswer(w.pc) || w.output == FULL)
    && (w.pc.Opening? || w.pc.Closing? || (w.pc.Retrying? && FirstAttempt(w.pc.r)))
  }

  lemma SmoothOpen(sub: Submission, w: World)
    requires Inv(sub, w) && Smooth(sub, w) && w.pc.Opening?
    ensures Smooth(sub, OpenStep(sub, w, w.pc.o, SUCCESS.reply))
  {
    hide BeginStage, StageInput, LeaseExpired, Terminal, StageState, HeldState, OpenAt, Chain, RequiredFields, Standard,
      UpstreamKeys, Settled;
    var o, j := w.pc.o, w.job;
    if o.Beginning? {
      var input := StageInput(sub, o.s, w.output);
      WritesKeepCancel(j, o.s, StageState(o.s), input, w.now);
      StageWritesKeep(j, o.s, StageState(o.s), input, "", w.now);
      NothingRequired(input);
      FullSuffices(o.s);
      assert o.s != ValidateEnqueue ==> RequiredFields(o.s) <= input.keys by { InputKeys(sub, o.s, w.output); }
      InputIsStandard(sub, o.s, w.output);
      BeginFromReady(j, o.s, StageState(o.s), input, w.now);
    }
  }

  lemma SmoothClose(sub: Submission, w: World)
    requires Inv(sub, w) && Smooth(sub, w) && w.pc.Closing? && w.pc != Closing(Finishing(Finalize))
    ensures Smooth(sub, CloseStep(w, w.pc.c))
  {
    hide FinishStageSuccess, Terminal, StageState, NextState, HeldState, OpenAt, Chain, Settled, Publishes;
    var c := w.pc.c;
    if c.Finishing? {
      WritesKeepCancel(w.job, c.s, NextState(c.s), CANCEL_INPUT, w.now);
      StageWritesKeep(w.job, c.s, NextState(c.s), CANCEL_INPUT, "", w.now);
      FinishSucceeds(w.job, c.s, w.now);
    }
  }

  lemma SmoothStep(sub: Submission, w: World)
    requires Inv(sub, w) && Smooth(sub, w) && w.pc != Closing(Finishing(Finalize))
    ensures Smooth(sub, Step(sub, w, SUCCESS))
  {
    match w.pc
    case Opening(_) =>
      hide Smooth, OpenStep, Inv;
      SmoothOpen(sub, w);
    case Closing(_) =>
      hide Smooth, CloseStep, Inv;
      SmoothClose(sub, w);
    case Retrying(_) =>
      hide Inv, PolicyOf, Decision, Retryable, Delay, FinishStageFailure;
  }

  /** From a smooth state, full answers lead to the last write. */
  lemma {:induction false} SmoothRun(sub: Submission, now: int, before: seq<Event>) returns (es: seq<Event>)
    requires Smooth(sub, Run(sub, NewWorld(sub, now), before))
    ensures var w := Run(sub, NewWorld(sub, now), es); Inv(sub, w) && w.pc == Closing(Finishing(Finalize))
    decreases var w := Run(sub, NewWorld(sub, now), before); Rank(sub, w.pc, w.now)
  {
    var w := Run(sub, NewWorld(sub, now), before);
    RunIsGood(sub, now, before);
    assert w.pc != Ending(Ended) && Bounded(sub);
    hide Step, Run, Inv, Smooth, NewWorld, Rank, Tally;
    if w.pc == Closing(Finishing(Finalize)) {
      es := before;
    } else {
      SmoothStep(sub, w);
      StepRank(sub, w, SUCCESS);
      RunOne(sub, NewWorld(sub, now), before, SUCCESS);
      es := SmoothRun(sub, now, before + [SUCCESS]);
    }
  }

  /** An accepted cancel does not rule out Done: any unhindered submission has a run that shows it. */
  lemma CancelledYetDone(sub: Submission, now: int) returns (es: seq<Event>)
    requires Unhindered(sub, now)
    ensures var w := NewWorld(sub, now); Accepted(sub, w, es) && Run(sub, w, es).job.state == Done
  {
    var start := NewWorld(sub, now);
    StartIsSmooth(sub, now);
    hide Run, Step, NewWorld, Inv, Smooth;
    var before := SmoothRun(sub, now, []);
    var w := Run(sub, start, before);
    CancelAtLastWrite(sub, w);
    LastWriteIgnoresCancel(sub, Step(sub, w, Cancel));
    es := before + [Cancel] + [SUCCESS];
    RunOne(sub, start, before, Cancel);
    RunOne(sub, start, before + [Cancel], SUCCESS);
    assert es[..|before|] == before && es[|before|] == Cancel;
    assert Accepts(Run(sub, start, es[..|before|]), es[|before|]);
  }

  lemma StartIsSmooth(sub: Submission, now: int)
    requires Unhindered(sub, now)
    ensures Smooth(sub, Run(sub, NewWorld(sub, now), []))
  {}

  lemma CancelAtLastWrite(sub: Submission, w: World)
    requires Inv(sub, w) && w.pc == Closing(Finishing(Finalize))
    ensures Accepts(w, Cancel)
    ensures Inv(sub, Step(sub, w, Cancel)) && Step(sub, w, Cancel).pc == w.pc
  {
    FinishingAt(sub, w, Finalize);
    StepKeeps(sub, w, Cancel);
    hide Inv, OpenAt;
  }
}
