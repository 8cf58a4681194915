/** Whole runs of one job's task, interleaved with cancels, sweeps and the clock: every run keeps the job record
    well formed, never lowers its state, and ends in a terminal state after a bounded number of task steps. */
module KernelRuns {
  import opened KernelModel
  import opened KernelDag
  import opened KernelInvariant

  // ---- the invariant -----------------------------------------------------------------------------

  /** The state a job has while stage `s` is being run. */
  function HeldState(s: Stage): TaskState { if s == Finalize then Running else StageState(s) }

  ghost predicate ReadyIn(j: Job, s: Stage) { Ready(j, s) && j.state == HeldState(s) }

  ghost predicate OpenIn(j: Job, s: Stage) { InStage(j, s) && j.state == HeldState(s) }

  /** A control stop during validation is filed under the compile stage. */
  ghost predicate Under(j: Job, s: Stage) { OpenIn(j, s) || (s == Compile && OpenIn(j, ValidateEnqueue)) }

  ghost predicate Cancelling(j: Job, s: Stage) {
    Settled(j) && j.state == Error && Orphaned(j.id, j.records) && |j.records| == Order(s)
  }

  ghost predicate AtOpen(o: OpenPoint, j: Job) {
    match o
    case Sweeping => ReadyIn(j, ValidateEnqueue)
    case CancelGate(s) => s !in {ValidateEnqueue, Finalize} && ReadyIn(j, s)
    case Beginning(s) => ReadyIn(j, s)
    case Calling(s) => OpenIn(j, s)
    case Summarizing => OpenIn(j, Persist)
  }

  ghost predicate AtClose(c: ClosePoint, j: Job) {
    match c
    case Advancing(s) =>
      s in {ValidateEnqueue, Compile, Optimize, Schedule} && Ready(j, NextStage(s)) && j.state == NextState(s)
    case _ => OpenIn(j, c.s)
  }

  ghost predicate AtEnd(e: EndPoint, j: Job) {
    match e
    case Controlling(s) => Under(j, s)
    case CancelBeginning(s) => Under(j, s) || (s != ValidateEnqueue && ReadyIn(j, s))
    case CancelFailing(s) => OpenIn(j, s) || Cancelling(j, s)
    case CancelReleasing => Settled(j)
    case TimingOut => OpenIn(j, j.currentStage)
    case Rejected(_) => Settled(j) || OpenIn(j, j.currentStage)
    case Ended => Settled(j)
  }

  ghost predicate AtRetry(r: RetryPoint, j: Job) {
    match r
    case Reasoning(v) => OpenIn(j, Execute) && v.state in {Error, Timeout}
    case FailingExecute(v) => OpenIn(j, Execute) && v.state in {Error, Timeout}
    case Releasing(v) => Settled(j)
    case _ => OpenIn(j, Execute)
  }

  ghost predicate At(pc: PC, j: Job) {
    match pc
    case Opening(o) => AtOpen(o, j)
    case Closing(c) => AtClose(c, j)
    case Ending(e) => AtEnd(e, j)
    case Simulating(_) => OpenIn(j, Execute)
    case Retrying(r) => AtRetry(r, j)
  }

  ghost predicate Inv(sub: Submission, w: World) {
    && w.job.id == sub.id && w.job.fingerprint == sub.fingerprint && w.job.deadline == sub.deadline
    && At(w.pc, w.job)
  }

  /** One step keeps the invariant and never lowers the state. */
  ghost predicate Kept(sub: Submission, w: World, v: World) { Inv(sub, v) && Level(w.job.state) <= Level(v.job.state) }

  lemma Levels(s: Stage)
    ensures Level(HeldState(s)) <= Level(NextState(s)) && !Terminal(HeldState(s)) && Level(HeldState(s)) < 5
    ensures s != Finalize ==> Level(NextState(s)) <= Level(HeldState(NextStage(s)))
    ensures s in {Execute, Persist, Observe} ==> NextState(s) == HeldState(NextStage(s))
    ensures s in {ValidateEnqueue, Compile, Optimize, Schedule} ==> StageState(NextStage(s)) == HeldState(NextStage(s))
    ensures s != Finalize ==> NextStage(s) != ValidateEnqueue
    ensures s in {ValidateEnqueue, Compile, Optimize, Schedule, Execute, Persist} ==> NextStage(s) != Finalize
  {}

  lemma TerminalLevel(t: TaskState)
    ensures Terminal(t) <==> Level(t) == 5
    ensures Level(t) <= 5
  {}

  lemma TopLevel(t: TaskState)
    requires t in {Done, Error, Cancelled, Timeout}
    ensures Terminal(t) && Level(t) == 5
  {}

  lemma NewIsInv(sub: Submission, now: int)
    ensures Inv(sub, NewWorld(sub, now))
  {}

  lemma InputIsStandard(sub: Submission, s: Stage, output: map<string, string>)
    ensures Standard(sub.id, s, StageInput(sub, s, output))
    ensures Standard(sub.id, s, CANCEL_INPUT)
  {
    hide InputRef, HandoffRef, LineageRef, RootLineageRef;
  }

  /** What no operation changes. */
  ghost predicate Same(j: Job, k: Job) { j.id == k.id && j.fingerprint == k.fingerprint && j.deadline == k.deadline }

  lemma StageWritesKeep(j: Job, s: Stage, t: TaskState, input: Input, code: string, now: int)
    ensures Same(j, BeginStage(j, s, t, input, now).job)
    ensures Same(j, FinishStageSuccess(j, s, t, now).job)
    ensures Same(j, FinishStageFailure(j, s, t, code, now).job)
  {
    hide Find, RequiredFields, Opened, Orphan, SucceededRecord, FailedRecord, FailureRef, CompletionRef;
  }

  lemma TerminalWritesKeep(j: Job, code: string, now: int)
    ensures Same(j, RequestErrorTerminalization(j, code, now))
    ensures Same(j, RequestDeadlineTerminalization(j, now))
    ensures Terminal(j.state) ==>
      RequestErrorTerminalization(j, code, now) == j == RequestDeadlineTerminalization(j, now)
  {
    hide TerminalizedRecords, FailureRef, InputRef;
  }

  lemma NothingRequired(input: Input)
    ensures RequiredFields(ValidateEnqueue) <= input.keys
  {}

  lemma BeginningKeeps(sub: Submission, w: World, s: Stage, reply: Reply)
    requires Inv(sub, w) && w.pc == Opening(Beginning(s))
    ensures Kept(sub, w, OpenStep(sub, w, Beginning(s), reply))
  {
    var j, input := w.job, StageInput(sub, s, w.output);
    hide BeginStage, Sweep, Standard, RequiredFields, OpenAt, Chain, Settled, Orphaned, HeldState, StageInput,
      StageState, Terminal, Level, Order;
    InputIsStandard(sub, s, w.output);
    NothingRequired(input);
    BeginFromReady(j, s, StageState(s), input, w.now);
    StageWritesKeep(j, s, StageState(s), input, "", w.now);
    TerminalLevel(j.state);
    TopLevel(Error);
  }

  lemma OpeningKeeps(sub: Submission, w: World, reply: Reply)
    requires Inv(sub, w) && w.pc.Opening?
    ensures Kept(sub, w, OpenStep(sub, w, w.pc.o, reply))
  {
    hide BeginStage, OpenAt, Chain, Settled, StageInput, HeldState, Terminal, Level, Order, StageState, LeaseExpired;
    if w.pc.o.Beginning? { BeginningKeeps(sub, w, w.pc.o.s, reply); }
  }

  lemma AfterFinishAt(s: Stage, j: Job)
    requires j.state == NextState(s) && if s == Finalize then Settled(j) else Ready(j, NextStage(s))
    ensures At(AfterFinish(s), j)
  {
    hide Ready, Settled, HeldState, NextState;
    Levels(s);
  }

  lemma FinishingKeeps(sub: Submission, w: World, s: Stage)
    requires Inv(sub, w) && w.pc == Closing(Finishing(s))
    ensures Kept(sub, w, CloseStep(w, Finishing(s)))
  {
    hide FinishStageSuccess, At, HeldState, NextState, AfterFinish, Level, InStage, Ready, Settled;
    var j := w.job;
    FinishingAt(sub, w, s);
    Levels(s);
    FinishSucceeds(j, s, w.now);
    AfterFinishAt(s, FinishStageSuccess(j, s, NextState(s), w.now).job);
    StageWritesKeep(j, s, NextState(s), CANCEL_INPUT, "", w.now);
  }

  lemma FinishingAt(sub: Submission, w: World, s: Stage)
    requires Inv(sub, w) && w.pc == Closing(Finishing(s))
    ensures OpenIn(w.job, s)
  {
    hide OpenIn;
  }

  lemma ClosingKeeps(sub: Submission, w: World)
    requires Inv(sub, w) && w.pc.Closing?
    ensures Kept(sub, w, CloseStep(w, w.pc.c))
  {
    hide OpenAt, Chain, HeldState, NextState, StageState, FinishStageSuccess, Settled, Publishes, DeadlineExpired,
      Level, Terminal, Order;
    Levels(w.pc.c.s);
    Levels(NextStage(w.pc.c.s));
    if w.pc.c.Finishing? { FinishingKeeps(sub, w, w.pc.c.s); }
  }

  lemma CancelBeginningKeeps(sub: Submission, w: World, s: Stage)
    requires Inv(sub, w) && w.pc == Ending(CancelBeginning(s))
    ensures Kept(sub, w, EndStep(w, CancelBeginning(s)))
  {
    var j := w.job;
    hide BeginStage, FinishStageFailure, RequestErrorTerminalization, RequestDeadlineTerminalization, InStage, Ready,
      Settled, HeldState, Orphaned, RequiredFields, Standard, Terminal, Level, Order, StageState;
    StageWritesKeep(j, s, StageState(s), CANCEL_INPUT, "", w.now);
    TerminalLevel(j.state);
    TopLevel(Error);
    if OpenIn(j, s) {
      BeginAgain(j, s, StageState(s), CANCEL_INPUT, w.now);
    } else if s == Compile && OpenIn(j, ValidateEnqueue) {
      BeginOverValidation(j, StageState(s), w.now);
    } else {
      InputIsStandard(sub, s, w.output);
      CancelInputLacks(s);
      BeginFromReady(j, s, StageState(s), CANCEL_INPUT, w.now);
    }
  }

  lemma CancelFailingKeeps(sub: Submission, w: World, s: Stage)
    requires Inv(sub, w) && w.pc == Ending(CancelFailing(s))
    ensures Kept(sub, w, EndStep(w, CancelFailing(s)))
  {
    var j := w.job;
    hide BeginStage, FinishStageFailure, RequestErrorTerminalization, RequestDeadlineTerminalization, InStage,
      Settled, HeldState, Orphaned, Terminal, Level, Order;
    StageWritesKeep(j, s, Cancelled, CANCEL_INPUT, "CANCELLED", w.now);
    TerminalLevel(j.state);
    TopLevel(Cancelled);
    if OpenIn(j, s) {
      FinishFails(j, s, Cancelled, "CANCELLED", w.now);
    } else {
      FinishFailsOrphan(j, s, Cancelled, "CANCELLED", w.now);
    }
  }

  lemma TerminalizingKeeps(sub: Submission, w: World, code: string)
    requires Inv(sub, w) && w.pc.Ending?
    requires w.pc.e.TimingOut? || (w.pc.e.Rejected? && w.pc.e.error.reason == code)
    ensures Kept(sub, w, EndStep(w, w.pc.e))
  {
    var j := w.job;
    hide BeginStage, FinishStageFailure, RequestErrorTerminalization, RequestDeadlineTerminalization, InStage,
      HeldState, Sound, Orphaned, Chain, Level, Terminal, CompletionRef, FailureRef;
    TerminalLevel(j.state);
    TopLevel(Error);
    TopLevel(Timeout);
    TerminalWritesKeep(j, code, w.now);
    if !Settled(j) { Terminalizes(j, code, w.now); }
  }

  lemma EndingKeeps(sub: Submission, w: World)
    requires Inv(sub, w) && w.pc.Ending?
    ensures Kept(sub, w, EndStep(w, w.pc.e))
  {
    hide BeginStage, FinishStageFailure, RequestErrorTerminalization, RequestDeadlineTerminalization, OpenAt, Sound,
      Orphaned, Chain, HeldState, Level, Terminal, Order, CompletionRef, FailureRef;
    match w.pc.e
    case CancelBeginning(s) => CancelBeginningKeeps(sub, w, s);
    case CancelFailing(s) => CancelFailingKeeps(sub, w, s);
    case TimingOut => TerminalizingKeeps(sub, w, "");
    case Rejected(err) => TerminalizingKeeps(sub, w, err.reason);
    case _ =>
  }

  lemma SimulatingKeeps(sub: Submission, w: World, extra: nat)
    requires Inv(sub, w) && w.pc.Simulating?
    ensures Kept(sub, w, SimStep(sub, w, w.pc.m, extra))
  {
    hide OpenAt, Settled, HeldState, Reached, DeadlineExpired, Ready, Level;
  }

  lemma FailingExecuteKeeps(sub: Submission, w: World, v: Verdict, reply: Reply, extra: nat)
    requires Inv(sub, w) && w.pc == Retrying(FailingExecute(v))
    ensures Kept(sub, w, RetryStep(sub, w, FailingExecute(v), reply, extra))
  {
    hide FinishStageFailure, InStage, Settled, HeldState, PolicyOf, Decision, Retryable, Delay, DeadlineExpired, Level,
      Terminal;
    TerminalLevel(w.job.state);
    TopLevel(v.state);
    StageWritesKeep(w.job, Execute, v.state, CANCEL_INPUT, v.errorCode, w.now);
    FinishFails(w.job, Execute, v.state, v.errorCode, w.now);
  }

  lemma DecisionShape(p: Policy, expired: bool, t: int, n: nat, e: StageError, now: int)
    ensures var d := Decision(p, expired, t, n, e, now);
      d == RetryGate(t, n) || (d.Reasoning? && d.v.state in {Error, Timeout})
  {
    hide Retryable, Delay;
  }

  lemma RetryingKeeps(sub: Submission, w: World, reply: Reply, extra: nat)
    requires Inv(sub, w) && w.pc.Retrying?
    ensures Kept(sub, w, RetryStep(sub, w, w.pc.r, reply, extra))
  {
    hide OpenAt, Sound, Orphaned, Chain, HeldState, PolicyOf, Retryable, Delay, Decision, DeadlineExpired,
      FinishStageFailure, Level, Terminal, Order;
    match w.pc.r
    case FailingExecute(v) => FailingExecuteKeeps(sub, w, v, reply, extra);
    case RetryDeciding(t, n, e) => DecisionShape(PolicyOf(sub.retry), DeadlineExpired(w.job, w.now), t, n, e, w.now);
    case _ =>
  }

  lemma EnvironmentKeeps(sub: Submission, w: World, e: Event)
    requires Inv(sub, w) && !e.Task?
    ensures Kept(sub, w, Step(sub, w, e))
  {
    hide OpenAt, Sound, Orphaned, Chain, HeldState, TaskStep;
  }

  lemma StepKeeps(sub: Submission, w: World, e: Event)
    requires Inv(sub, w)
    ensures Kept(sub, w, Step(sub, w, e))
  {
    hide OpenStep, CloseStep, EndStep, SimStep, RetryStep, Kept, Inv, RequestCancel, Sweep;
    if !e.Task? {
      EnvironmentKeeps(sub, w, e);
    } else {
      match w.pc
      case Opening(_) => OpeningKeeps(sub, w, e.reply);
      case Closing(_) => ClosingKeeps(sub, w);
      case Ending(_) => EndingKeeps(sub, w);
      case Simulating(_) => SimulatingKeeps(sub, w, e.extra);
      case Retrying(_) => RetryingKeeps(sub, w, e.reply, e.extra);
    }
  }

  lemma RunOne(sub: Submission, w: World, es: seq<Event>, e: Event)
    ensures Run(sub, w, es + [e]) == Step(sub, Run(sub, w, es), e)
  {
    hide Step;
    assert (es + [e])[..|es|] == es;
  }

  /** Every reachable state is well formed, and the state rank never falls along a run. */
  lemma {:induction false} EveryRunKeeps(sub: Submission, w: World, es: seq<Event>, k: nat)
    requires Inv(sub, w) && k <= |es|
    ensures Inv(sub, Run(sub, w, es))
    ensures Level(Run(sub, w, es[..k]).job.state) <= Level(Run(sub, w, es).job.state)
  {
    hide Step, Inv, Level;
    if k == |es| {
      assert es[..k] == es;
      if es != [] {
        EveryRunKeeps(sub, w, es[..|es| - 1], 0);
        StepKeeps(sub, Run(sub, w, es[..|es| - 1]), es[|es| - 1]);
      }
    } else {
      var most := es[..|es| - 1];
      assert most[..k] == es[..k];
      EveryRunKeeps(sub, w, most, k);
      StepKeeps(sub, Run(sub, w, most), es[|es| - 1]);
    }
  }
}
