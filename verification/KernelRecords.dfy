/** What the stage records say about their job, at every point of every run. */
module KernelRecords {
  import opened Options
  import opened KernelModel
  import opened KernelDag
  import opened KernelInvariant
  import opened KernelRuns
  import opened KernelRetry
  import opened KernelProgress

  /** A record begins in its stage's state and files its own handoff. A succeeded one ends in the next state, with its
      output and no code; a failed one carries the state and the code of the job, and its failure is its output. */
  ghost predicate Fits(j: Job, r: StageRecord) {
    && r.stateBefore == StageState(r.stage) && r.artifacts.handoff == Some(r.handoffRef)
    && match r.status
       case Open => r.stateAfter == r.stateBefore && r.errorCode == None && r.artifacts.failure == None
       case Succeeded =>
         && r.stateAfter == NextState(r.stage) && r.errorCode == None && r.artifacts.failure == None
         && r.artifacts.output == Some(OutputRef(j.id, r.stage))
       case Failed =>
         && r.stateAfter == j.state && r.errorCode == j.errorCode
         && r.artifacts.output == r.artifacts.failure == Some(StageFailureRef(j.id, r.stage))
  }

  /** Only the last record of an ended job can be a failed one. */
  ghost predicate RecordsFit(j: Job) {
    && (forall i :: 0 <= i < |j.records| ==> Fits(j, j.records[i]))
    && (forall i :: 0 <= i < |j.records| && j.records[i].status == Failed ==>
          i == |j.records| - 1 && Terminal(j.state))
  }

  // ---- the writes -----------------------------------------------------------------------------------------

  /** No record is failed, so the state of the job is in none. */
  lemma OtherState(j: Job, k: Job)
    requires RecordsFit(j) && !Terminal(j.state) && k.records == j.records && k.id == j.id
    ensures RecordsFit(k)
  {
    hide StageState, NextState, Terminal, OutputRef, StageFailureRef;
  }

  lemma SameState(j: Job, k: Job)
    requires RecordsFit(j) && k.records == j.records && k.state == j.state && k.errorCode == j.errorCode
    requires k.id == j.id
    ensures RecordsFit(k)
  {
    hide StageState, NextState, Terminal, OutputRef, StageFailureRef;
  }

  lemma OneMore(j: Job, k: Job, r: StageRecord)
    requires RecordsFit(j) && !Terminal(j.state) && k.records == j.records + [r] && Fits(k, r)
    requires k.id == j.id
    requires r.status == Failed ==> Terminal(k.state)
    ensures RecordsFit(k)
  {
    hide StageState, NextState, Terminal, OutputRef, StageFailureRef;
    forall i | 0 <= i < |k.records|
      ensures Fits(k, k.records[i])
      ensures k.records[i].status == Failed ==> i == |k.records| - 1 && Terminal(k.state)
    {
      if i < |j.records| { assert k.records[i] == j.records[i] && Fits(j, j.records[i]); }
    }
  }

  lemma LastChanged(j: Job, k: Job, r: StageRecord)
    requires RecordsFit(j) && j.records != [] && k.records == j.records[|j.records| - 1 := r] && Fits(k, r)
    requires k.id == j.id
    requires r.status == Failed ==> Terminal(k.state)
    ensures RecordsFit(k)
  {
    hide StageState, NextState, Terminal, OutputRef, StageFailureRef;
    forall i | 0 <= i < |k.records|
      ensures Fits(k, k.records[i])
      ensures k.records[i].status == Failed ==> i == |k.records| - 1 && Terminal(k.state)
    {
      if i < |j.records| - 1 { assert k.records[i] == j.records[i] && Fits(j, j.records[i]); }
    }
  }

  lemma BeginFits(j: Job, s: Stage, input: Input, now: int)
    requires RecordsFit(j)
    ensures RecordsFit(BeginStage(j, s, StageState(s), input, now).job)
  {
    var k := BeginStage(j, s, StageState(s), input, now).job;
    if Terminal(j.state) || Find(j.records, s) < |j.records| {
      SameState(j, k);
    } else {
      hide RecordsFit, StageState, NextState, Find, RequiredFields, FailureRef, PreviousOutput, InputRef, HandoffRef,
        LineageRef, RootLineageRef, StageFailureRef;
      OneMore(j, k, k.records[|j.records|]);
    }
  }

  lemma FinishFits(j: Job, s: Stage, now: int)
    requires RecordsFit(j) && InStage(j, s)
    ensures RecordsFit(FinishStageSuccess(j, s, NextState(s), now).job)
  {
    OpenOrders(j.id, j.records, s);
    OpenLength(j.id, j.records, s);
    var k, r := FinishStageSuccess(j, s, NextState(s), now).job, j.records[|j.records| - 1];
    assert Fits(j, r) && r.stage == s && r.status == Open by { hide Chain, Linked; }
    hide RecordsFit, InStage, StageState, NextState, Find, OutputRef, InputRef, LineageRef, RootLineageRef,
      CompletionRef;
    LastChanged(j, k, SucceededRecord(j.id, r, NextState(s)));
  }

  /** The current record of a job whose stage is open, or that was orphaned, is its last one. */
  ghost predicate AtLast(j: Job, s: Stage) { j.records != [] && Find(j.records, s) == |j.records| - 1 }

  lemma FailFits(j: Job, s: Stage, t: TaskState, code: string, now: int)
    requires RecordsFit(j) && AtLast(j, s) && Terminal(t)
    ensures RecordsFit(FinishStageFailure(j, s, t, code, now).job)
  {
    var k, r := FinishStageFailure(j, s, t, code, now).job, j.records[|j.records| - 1];
    assert Fits(j, r);
    hide RecordsFit, StageState, NextState, Find, StageFailureRef, LineageRef, FailureRef, Terminal;
    LastChanged(j, k, FailedRecord(j.id, r, t, code));
  }

  lemma TerminalizeFits(j: Job, code: string, now: int)
    requires RecordsFit(j) && (Terminal(j.state) || AtLast(j, j.currentStage))
    ensures RecordsFit(RequestErrorTerminalization(j, code, now))
    ensures RecordsFit(RequestDeadlineTerminalization(j, now))
  {
    if !Terminal(j.state) {
      var e, d := RequestErrorTerminalization(j, code, now), RequestDeadlineTerminalization(j, now);
      var r := j.records[|j.records| - 1];
      assert Fits(j, r);
      hide RecordsFit, StageState, NextState, Find, StageFailureRef, LineageRef, FailureRef, InputRef, Stranded;
      LastChanged(j, e, TerminalizedRecord(j.id, r, Error, code));
      LastChanged(j, d, TerminalizedRecord(j.id, r, Timeout, "DEADLINE_EXCEEDED"));
    }
  }

  lemma OpenAtLast(j: Job, s: Stage)
    requires InStage(j, s)
    ensures AtLast(j, s)
  {
    OpenOrders(j.id, j.records, s);
    OpenLength(j.id, j.records, s);
  }

  lemma OrphanAtLast(j: Job, s: Stage)
    requires Cancelling(j, s)
    ensures AtLast(j, s)
  {
    FindInChain(j.id, j.records, s);
    OrderInjective(s, s);
    hide Settled;
  }

  // ---- every step and every run ----------------------------------------------------------------------------

  lemma OpenStepFits(sub: Submission, w: World, reply: Reply)
    requires RecordsFit(w.job) && w.pc.Opening?
    ensures RecordsFit(OpenStep(sub, w, w.pc.o, reply).job)
  {
    var o := w.pc.o;
    if o.Beginning? {
      BeginFits(w.job, o.s, StageInput(sub, o.s, w.output), w.now);
    } else {
      hide BeginStage, RecordsFit, LeaseExpired;
      SameState(w.job, OpenStep(sub, w, o, reply).job);
    }
  }

  lemma CloseStepFits(sub: Submission, w: World)
    requires Inv(sub, w) && RecordsFit(w.job) && w.pc.Closing?
    ensures RecordsFit(CloseStep(w, w.pc.c).job)
  {
    var c := w.pc.c;
    if c.Finishing? {
      assert InStage(w.job, c.s) by { hide InStage, HeldState; }
      hide RecordsFit, FinishStageSuccess;
      FinishFits(w.job, c.s, w.now);
    } else if c.Advancing? {
      assert !Terminal(w.job.state) by { hide Chain, NextState; }
      hide RecordsFit;
      OtherState(w.job, CloseStep(w, c).job);
    } else {
      hide RecordsFit, Inv, FinishStageSuccess, SetState, Publishes, DeadlineExpired;
      SameState(w.job, CloseStep(w, c).job);
    }
  }

  lemma EndStepFits(sub: Submission, w: World)
    requires Inv(sub, w) && RecordsFit(w.job) && w.pc.Ending?
    ensures RecordsFit(EndStep(w, w.pc.e).job)
  {
    var j := w.job;
    hide RecordsFit, BeginStage, FinishStageFailure, RequestErrorTerminalization, RequestDeadlineTerminalization,
      InStage, Settled, HeldState, StageState, AtLast, Terminal, Orphaned;
    match w.pc.e
    case CancelBeginning(s) => BeginFits(j, s, CANCEL_INPUT, w.now);
    case CancelFailing(s) =>
      if OpenIn(j, s) { OpenAtLast(j, s); } else { OrphanAtLast(j, s); }
      TopLevel(Cancelled);
      FailFits(j, s, Cancelled, "CANCELLED", w.now);
    case Rejected(err) =>
      LiveOrEnded(j);
      TerminalizeFits(j, err.reason, w.now);
    case TimingOut =>
      LiveOrEnded(j);
      TerminalizeFits(j, "", w.now);
    case _ => SameState(j, EndStep(w, w.pc.e).job);
  }

  lemma LiveOrEnded(j: Job)
    requires Settled(j) || OpenIn(j, j.currentStage)
    ensures Terminal(j.state) || AtLast(j, j.currentStage)
  {
    if !Settled(j) { OpenAtLast(j, j.currentStage); }
    hide InStage, AtLast, Sound, Orphaned;
  }

  lemma RetryStepFits(sub: Submission, w: World, reply: Reply, extra: nat)
    requires Inv(sub, w) && RecordsFit(w.job) && w.pc.Retrying?
    ensures RecordsFit(RetryStep(sub, w, w.pc.r, reply, extra).job)
  {
    hide RecordsFit, FinishStageFailure, PolicyOf, Decision, Retryable, Delay, DeadlineExpired, InStage, Settled,
      HeldState, Terminal, AtLast;
    var r := w.pc.r;
    if r.FailingExecute? {
      OpenAtLast(w.job, Execute);
      TopLevel(r.v.state);
      FailFits(w.job, Execute, r.v.state, r.v.errorCode, w.now);
    } else {
      SameState(w.job, RetryStep(sub, w, r, reply, extra).job);
    }
  }

  lemma StepRecords(sub: Submission, w: World, e: Event)
    requires Inv(sub, w) && RecordsFit(w.job)
    ensures RecordsFit(Step(sub, w, e).job)
  {
    hide OpenStep, CloseStep, EndStep, RetryStep, Inv, RecordsFit, DeadlineExpired, Reached, LeaseExpired, Terminal;
    if !e.Task? || w.pc.Simulating? {
      SameState(w.job, Step(sub, w, e).job);
    } else {
      match w.pc
      case Opening(_) => OpenStepFits(sub, w, e.reply);
      case Closing(_) => CloseStepFits(sub, w);
      case Ending(_) => EndStepFits(sub, w);
      case Retrying(_) => RetryStepFits(sub, w, e.reply, e.extra);
    }
  }

  /** At every point of every run: records say what their stages did, at most the last one failed, and then it carries
      the state and the error code the job ended with. */
  lemma {:induction false} RecordsTellTheTruth(sub: Submission, now: int, es: seq<Event>)
    ensures RecordsFit(Run(sub, NewWorld(sub, now), es).job)
  {
    if es != [] {
      var most := es[..|es| - 1];
      RecordsTellTheTruth(sub, now, most);
      RunIsGood(sub, now, most);
      hide Step, NewWorld, RecordsFit, Inv, Tally;
      StepRecords(sub, Run(sub, NewWorld(sub, now), most), es[|es| - 1]);
    }
  }
}
