/** Every task ends: a rank falls with each step of the task and nothing the environment does raises it. The one
    exception, a simulated run without any limit, is shown to go on for ever. */
module KernelProgress {
  import opened Options
  import opened KernelModel
  import opened KernelDag
  import opened KernelInvariant
  import opened KernelRuns
  import opened KernelRetry

  // ---- the rank ------------------------------------------------------------------------------------

  predicate Finite(limit: Option<Limit>) { limit.Some? && limit.value.Millis? }

  /** The simulated run, if there is one, has a duration, a timeout or a deadline. */
  predicate Bounded(sub: Submission) {
    sub.backendUnavailable || sub.simulate.None? || Finite(sub.simulate) || Finite(sub.timeout) || sub.deadline.Some?
  }

  function Ticks(ms: int): nat { if ms <= 0 then 0 else (ms + 19) / 20 }

  /** Sleeps left in the simulated run. */
  function SimLeft(sub: Submission, started: int, now: int): nat {
    if Finite(sub.simulate) then Ticks(sub.simulate.value.ms - (now - started))
    else if Finite(sub.timeout) then Ticks(sub.timeout.value.ms - (now - started))
    else if sub.deadline.Some? then Ticks(sub.deadline.value - now)
    else 0
  }

  function SimRank(sub: Submission, m: SimPoint, now: int): nat {
    var b := SimLeft(sub, m.started, now);
    if Finite(sub.simulate) || Finite(sub.timeout) then
      match m {
        case SimCancel(_) => 3 * b + 2
        case SimDeadline(_) => 3 * b + 1
        case SimElapsed(_) => 3 * b
      }
    else
      match m {
        case SimCancel(_) => 3 * b + 1
        case SimDeadline(_) => 3 * b
        case SimElapsed(_) => if b == 0 then 2 else 3 * b - 1
      }
  }

  function Left(n: nat): nat { if n <= 16 then 16 - n else 0 }

  function RetryRank(r: RetryPoint): nat {
    match r
    case RetryGate(_, n) => 9 + 5 * Left(n)
    case Executing(_, n) => 13 + 5 * Left(n)
    case Recording(_, n, _) => 12 + 5 * Left(n)
    case RetryDeciding(_, n, _) => 11 + 5 * Left(n)
    case RetryAnswered(_) => 5
    case RetryCounting => 4
    case Reasoning(_) => 3
    case FailingExecute(_) => 2
    case Releasing(_) => 1
  }

  function EndRank(e: EndPoint): nat {
    match e
    case Controlling(_) => 4
    case CancelBeginning(_) => 3
    case CancelFailing(_) => 2
    case Ended => 0
    case _ => 1
  }

  function StageBase(s: Stage): nat { 8 + 10 * (8 - Order(s)) }

  function OpenRank(o: OpenPoint): nat {
    match o
    case Sweeping => 86
    case CancelGate(s) => StageBase(s) + 8
    case Beginning(s) => StageBase(s) + 7
    case Calling(s) => StageBase(s) + 6
    case Summarizing => StageBase(Persist) + 5
  }

  function CloseRank(c: ClosePoint): nat {
    StageBase(c.s)
      + match c {
        case ControlGate(_) => 4
        case DeadlineGate(_) => 3
        case Publishing(_) => 2
        case Finishing(_) => 1
        case Advancing(_) => 0
      }
  }

  /** The steps the execute stage may take, seen from before it. */
  function ExecuteCost(sub: Submission, now: int): nat { 110 + SimRank(sub, SimCancel(now), now) }

  predicate OpensEarly(o: OpenPoint) { o.Sweeping? || (!o.Summarizing? && Order(o.s) <= 5) }

  function Rank(sub: Submission, pc: PC, now: int): nat {
    match pc
    case Opening(o) => OpenRank(o) + if OpensEarly(o) then ExecuteCost(sub, now) else 0
    case Closing(c) => CloseRank(c) + if Order(c.s) < 5 then ExecuteCost(sub, now) else 0
    case Ending(e) => EndRank(e)
    case Simulating(m) => 142 + SimRank(sub, m, now)
    case Retrying(r) => 42 + RetryRank(r)
  }

  // ---- the clock -----------------------------------------------------------------------------------

  lemma TicksFall(ms: int, d: nat)
    ensures Ticks(ms - d) <= Ticks(ms)
    ensures ms > 0 && d >= 20 ==> Ticks(ms - d) < Ticks(ms)
    ensures Ticks(ms) > 0 <==> ms > 0
  {}

  lemma SimLeftFalls(sub: Submission, started: int, now: int, d: nat)
    ensures SimLeft(sub, started, now + d) <= SimLeft(sub, started, now)
    ensures SimLeft(sub, now + d, now + d) <= SimLeft(sub, now, now)
    ensures SimLeft(sub, started, now) > 0 && d >= 20 ==> SimLeft(sub, started, now + d) < SimLeft(sub, started, now)
  {
    hide Ticks;
    if Finite(sub.simulate) {
      TicksFall(sub.simulate.value.ms - (now - started), d);
      assert sub.simulate.value.ms - (now - started) - d == sub.simulate.value.ms - (now + d - started);
    } else if Finite(sub.timeout) {
      TicksFall(sub.timeout.value.ms - (now - started), d);
      assert sub.timeout.value.ms - (now - started) - d == sub.timeout.value.ms - (now + d - started);
    } else if sub.deadline.Some? {
      TicksFall(sub.deadline.value - now, d);
      assert sub.deadline.value - now - d == sub.deadline.value - (now + d);
    }
  }

  lemma ClockLowers(sub: Submission, pc: PC, now: int, d: nat)
    ensures Rank(sub, pc, now + d) <= Rank(sub, pc, now)
  {
    hide SimLeft, OpenRank, CloseRank, RetryRank, EndRank, Finite;
    SimLeftFalls(sub, if pc.Simulating? then pc.m.started else now, now, d);
  }

  // ---- each step of the task ---------------------------------------------------------------------------

  lemma StageRanks(s: Stage)
    ensures 8 <= StageBase(s) <= 78
    ensures s != Finalize ==> StageBase(NextStage(s)) + 10 == StageBase(s) && Order(NextStage(s)) == Order(s) + 1
    ensures StageBase(Execute) == 38 && StageBase(ValidateEnqueue) == 78 && StageBase(Persist) == 28
    ensures StageBase(Observe) == 18 && StageBase(Finalize) == 8
    ensures Order(Execute) == 5 && Order(ValidateEnqueue) == 1 && Order(Persist) == 6
  {}

  /** Rank before and after, with the clock unmoved. */
  ghost predicate Falls(sub: Submission, w: World, v: World) { Rank(sub, v.pc, v.now) < Rank(sub, w.pc, w.now) }

  lemma OpenFalls(sub: Submission, w: World, reply: Reply)
    requires w.pc.Opening?
    ensures Falls(sub, w, OpenStep(sub, w, w.pc.o, reply))
  {
    hide BeginStage, StageInput, Sweep, SimRank, StageBase, Order, StageState;
    StageRanks(if w.pc.o.Sweeping? || w.pc.o.Summarizing? then ValidateEnqueue else w.pc.o.s);
  }

  lemma CloseFalls(sub: Submission, w: World)
    requires w.pc.Closing? && AtClose(w.pc.c, w.job)
    ensures Falls(sub, w, CloseStep(w, w.pc.c))
  {
    hide FinishStageSuccess, OpenAt, Chain, Ready, OpenIn, SimRank, StageBase, Order, StageState, NextState,
      DeadlineExpired, SetState, ExecuteCost;
    StageRanks(w.pc.c.s);
  }

  lemma EndFalls(sub: Submission, w: World)
    requires w.pc.Ending? && w.pc.e != Ended
    ensures Falls(sub, w, EndStep(w, w.pc.e))
  {
    hide BeginStage, FinishStageFailure, RequestErrorTerminalization, RequestDeadlineTerminalization, StageState,
      SetReservation;
  }

  /** A sleep of the simulated run is taken only when no finite limit has been reached. */
  lemma SleepFalls(sub: Submission, started: int, now: int, d: nat)
    requires Finite(sub.simulate) || Finite(sub.timeout) || sub.deadline.Some?
    requires !Reached(sub.timeout, now - started) && !Reached(sub.simulate, now - started) && d >= 20
    ensures SimRank(sub, SimCancel(started), now + d) < SimRank(sub, SimElapsed(started), now)
  {
    SimLeftFalls(sub, started, now, d);
    if Finite(sub.simulate) {
      TicksFall(sub.simulate.value.ms - (now - started), 0);
    } else if Finite(sub.timeout) {
      TicksFall(sub.timeout.value.ms - (now - started), 0);
    }
    hide Ticks;
  }

  /** Past the deadline check, a deadline-bound run still has a sleep to count. */
  lemma CheckFalls(sub: Submission, started: int, now: int)
    requires sub.deadline.None? || now < sub.deadline.value
    requires Finite(sub.simulate) || Finite(sub.timeout) || sub.deadline.Some?
    ensures SimRank(sub, SimElapsed(started), now) < SimRank(sub, SimDeadline(started), now)
  {
    if !Finite(sub.simulate) && !Finite(sub.timeout) { TicksFall(sub.deadline.value - now, 0); }
    hide Ticks;
  }

  lemma SimFalls(sub: Submission, w: World, extra: nat)
    requires w.pc.Simulating? && w.job.deadline == sub.deadline
    requires Finite(sub.simulate) || Finite(sub.timeout) || sub.deadline.Some?
    ensures Falls(sub, w, SimStep(sub, w, w.pc.m, extra))
  {
    var t := w.pc.m.started;
    if w.pc.m.SimElapsed? {
      if !Reached(sub.timeout, w.now - t) && !Reached(sub.simulate, w.now - t) {
        SleepFalls(sub, t, w.now, 20 + extra);
      }
      hide SimRank, Reached;
    } else if w.pc.m.SimDeadline? {
      if !DeadlineExpired(w.job, w.now) { CheckFalls(sub, t, w.now); }
      hide SimRank, DeadlineExpired;
    } else {
      hide SimLeft;
    }
  }

  lemma RetryFalls(sub: Submission, w: World, reply: Reply, extra: nat)
    requires w.pc.Retrying? && RetryTally(PolicyOf(sub.retry), w, w.pc.r)
    ensures Falls(sub, w, RetryStep(sub, w, w.pc.r, reply, extra))
  {
    hide FinishStageFailure, Retryable, Delay, Decision, DeadlineExpired, AllRetryable, SimRank, Order, RecordAttempt,
      SetFinalReason, SetReservation, Looping;
    StageRanks(Execute);
    if w.pc.r.RetryDeciding? {
      var r := w.pc.r;
      DecisionGoesOn(PolicyOf(sub.retry), DeadlineExpired(w.job, w.now), r.started, r.attempt, r.error, w.now);
    }
  }

  lemma SimulatesOnlyIfAvailable(sub: Submission, w: World, e: Event)
    requires w.pc.Simulating? ==> !sub.backendUnavailable && sub.simulate.Some?
    ensures var v := Step(sub, w, e); v.pc.Simulating? ==> !sub.backendUnavailable && sub.simulate.Some?
  {
    hide BeginStage, FinishStageSuccess, FinishStageFailure, StageInput, Sweep, RequestErrorTerminalization,
      RequestDeadlineTerminalization, RequestCancel, Decision, DeadlineExpired, PolicyOf, Delay, Retryable, Reached,
      StageState, NextState, Publishes;
  }

  ghost predicate Good(sub: Submission, w: World) {
    Inv(sub, w) && Tally(sub, w) && (w.pc.Simulating? ==> !sub.backendUnavailable && sub.simulate.Some?)
  }

  /** A task step lowers the rank; nothing else raises it. */
  lemma StepRank(sub: Submission, w: World, e: Event)
    requires Bounded(sub) && Good(sub, w)
    ensures Rank(sub, Step(sub, w, e).pc, Step(sub, w, e).now) <= Rank(sub, w.pc, w.now)
    ensures e.Task? && w.pc != Ending(Ended) ==> Falls(sub, w, Step(sub, w, e))
    ensures w.pc == Ending(Ended) ==> Step(sub, w, e).pc == Ending(Ended)
  {
    hide OpenStep, CloseStep, SimStep, RetryStep, Rank, OpenIn, AtOpen, AtClose, AtEnd, AtRetry, Within, RetryTally,
      PolicyOf, BeforeExecute, RequestCancel, Sweep, BeginStage, FinishStageFailure, RequestErrorTerminalization,
      RequestDeadlineTerminalization, Finite;
    if e.Tick? {
      ClockLowers(sub, w.pc, w.now, e.ms);
    } else if e.Task? && w.pc != Ending(Ended) {
      match w.pc
      case Opening(_) => OpenFalls(sub, w, e.reply);
      case Closing(_) => CloseFalls(sub, w);
      case Ending(_) => EndFalls(sub, w);
      case Simulating(_) => SimFalls(sub, w, e.extra);
      case Retrying(_) => RetryFalls(sub, w, e.reply, e.extra);
    }
  }

  // ---- the theorems ----------------------------------------------------------------------------------------

  function TaskSteps(es: seq<Event>): nat {
    if es == [] then 0 else TaskSteps(es[..|es| - 1]) + if es[|es| - 1].Task? then 1 else 0
  }

  lemma {:induction false} RunIsGood(sub: Submission, now: int, es: seq<Event>)
    ensures Good(sub, Run(sub, NewWorld(sub, now), es))
  {
    if es == [] {
      NewIsInv(sub, now);
      NewTally(sub, now);
      hide Inv, Tally;
    } else {
      hide Step, Inv, Tally, NewWorld;
      var w, e := Run(sub, NewWorld(sub, now), es[..|es| - 1]), es[|es| - 1];
      RunIsGood(sub, now, es[..|es| - 1]);
      StepKeeps(sub, w, e);
      StepTally(sub, w, e);
      SimulatesOnlyIfAvailable(sub, w, e);
    }
  }

  /** Whenever the task has stopped, or is about to report that it gave up retrying, the job is terminal and
      complete. */
  lemma StoppedMeansSettled(sub: Submission, now: int, es: seq<Event>)
    ensures var w := Run(sub, NewWorld(sub, now), es);
      w.pc == Ending(Ended) || (w.pc.Retrying? && w.pc.r.Releasing?) ==> Settled(w.job) && w.job.id == sub.id
  {
    RunIsGood(sub, now, es);
    hide Run, NewWorld, Tally, Settled, OpenIn;
  }

  lemma {:induction false} RankCounts(sub: Submission, now: int, es: seq<Event>)
    requires Bounded(sub)
    ensures var w := Run(sub, NewWorld(sub, now), es);
      w.pc == Ending(Ended) || Rank(sub, w.pc, w.now) + TaskSteps(es) <= Rank(sub, Opening(Sweeping), now)
  {
    if es != [] {
      hide Step, Rank, Good, Bounded;
      RankCounts(sub, now, es[..|es| - 1]);
      RunIsGood(sub, now, es[..|es| - 1]);
      StepRank(sub, Run(sub, NewWorld(sub, now), es[..|es| - 1]), es[|es| - 1]);
    }
  }

  /** Every interleaving ends: once the task has taken as many steps as the initial rank it has stopped, and the job
      it leaves is terminal and complete: Done with eight succeeded stages in order and a completion reference, or
      else with a failure reference and its reservation released. */
  lemma EveryRunEnds(sub: Submission, now: int, es: seq<Event>)
    requires Bounded(sub) && TaskSteps(es) > Rank(sub, Opening(Sweeping), now)
    ensures var w := Run(sub, NewWorld(sub, now), es); w.pc == Ending(Ended) && Settled(w.job)
  {
    RankCounts(sub, now, es);
    StoppedMeansSettled(sub, now, es);
    hide Rank, Run, NewWorld, Settled, Bounded;
  }

  // ---- the exception -----------------------------------------------------------------------------------------

  function Unprefixed(f: string): string { if |f| < 9 then f else f[9..] }

  const STAGES := {ValidateEnqueue, Compile, Optimize, Schedule, Execute, Persist, Observe, Finalize}

  /** An adapter output with every field that any stage asks for. */
  const FULL: map<string, string> :=
    map k | k in (set s, f | s in STAGES && f in RequiredFields(s) :: Unprefixed(f)) :: ""

  const SUCCESS := Task(Answer(FULL, false), 0)

  lemma FullSuffices(s: Stage)
    ensures RequiredFields(s) <= UpstreamKeys(FULL)
  {
    hide RequiredFields, Upstream;
    assert s in STAGES;
    forall f | f in RequiredFields(s) ensures f in UpstreamKeys(FULL) {
      FieldsArePrefixed(s, f);
      assert Unprefixed(f) in FULL && f == Upstream(Unprefixed(f));
    }
  }

  predicate BeforeFirstAnswer(pc: PC) {
    pc == Opening(Sweeping) || pc == Opening(Beginning(ValidateEnqueue)) || pc == Opening(Calling(ValidateEnqueue))
  }

  /** Nobody cancels, every answer so far was full, and execution has not got past the simulated run. */
  ghost predicate Quiet(sub: Submission, w: World) {
    && Inv(sub, w) && BeforeExecute(w.pc) && !w.job.cancelRequested
    && (BeforeFirstAnswer(w.pc) || w.output == FULL)
  }

  lemma WritesKeepCancel(j: Job, s: Stage, t: TaskState, input: Input, now: int)
    ensures BeginStage(j, s, t, input, now).job.cancelRequested == j.cancelRequested
    ensures FinishStageSuccess(j, s, t, now).job.cancelRequested == j.cancelRequested
  {
    hide Find, RequiredFields, Opened, Orphan, SucceededRecord, FailureRef, CompletionRef;
  }

  lemma QuietOpen(sub: Submission, w: World)
    requires !Bounded(sub) && Quiet(sub, w) && w.pc.Opening?
    ensures var v := OpenStep(sub, w, w.pc.o, SUCCESS.reply);
      BeforeExecute(v.pc) && !v.job.cancelRequested && (BeforeFirstAnswer(v.pc) || v.output == FULL)
  {
    hide BeginStage, StageInput, LeaseExpired, Terminal, StageState, HeldState, OpenAt, Chain, RequiredFields, Standard,
      UpstreamKeys, Settled;
    var o, j := w.pc.o, w.job;
    if o.Beginning? {
      var input := StageInput(sub, o.s, w.output);
      WritesKeepCancel(j, o.s, StageState(o.s), input, w.now);
      NothingRequired(input);
      FullSuffices(o.s);
      assert o.s != ValidateEnqueue ==> RequiredFields(o.s) <= input.keys by { InputKeys(sub, o.s, w.output); }
      InputIsStandard(sub, o.s, w.output);
      BeginFromReady(j, o.s, StageState(o.s), input, w.now);
    }
  }

  lemma InputKeys(sub: Submission, s: Stage, output: map<string, string>)
    ensures StageInput(sub, s, output).keys == sub.keys + UpstreamKeys(output)
  {}

  lemma QuietClose(sub: Submission, w: World)
    requires !Bounded(sub) && Quiet(sub, w) && w.pc.Closing?
    ensures var v := CloseStep(w, w.pc.c); BeforeExecute(v.pc) && !v.job.cancelRequested && v.output == FULL
  {
    hide FinishStageSuccess, Terminal, StageState, NextState, HeldState, OpenAt, Chain, Settled, Publishes;
    var c := w.pc.c;
    if c.Finishing? {
      WritesKeepCancel(w.job, c.s, NextState(c.s), CANCEL_INPUT, w.now);
      FinishSucceeds(w.job, c.s, w.now);
    }
  }

  lemma QuietSim(sub: Submission, w: World)
    requires !Bounded(sub) && w.pc.Simulating? && !w.job.cancelRequested && w.job.deadline == sub.deadline
    ensures var v := SimStep(sub, w, w.pc.m, 0); v.pc.Simulating? && v.job == w.job && v.output == w.output
  {}

  lemma QuietStep(sub: Submission, w: World)
    requires !Bounded(sub) && Quiet(sub, w)
    ensures Quiet(sub, Step(sub, w, SUCCESS))
  {
    hide OpenStep, CloseStep, RetryStep, EndStep, SimStep, Inv, Bounded;
    StepKeeps(sub, w, SUCCESS);
    match w.pc
    case Opening(_) => QuietOpen(sub, w);
    case Closing(_) => QuietClose(sub, w);
    case Simulating(_) =>
      DeadlineKept(sub, w);
      QuietSim(sub, w);
  }

  lemma DeadlineKept(sub: Submission, w: World)
    requires Inv(sub, w)
    ensures w.job.deadline == sub.deadline
  {
    hide At;
  }

  lemma {:induction false} QuietRun(sub: Submission, now: int, n: nat)
    requires !Bounded(sub)
    ensures var es := seq(n, _ => SUCCESS); Quiet(sub, Run(sub, NewWorld(sub, now), es)) && TaskSteps(es) == n
  {
    var es := seq(n, _ => SUCCESS);
    if n == 0 {
      NewIsInv(sub, now);
      hide Inv;
    } else {
      hide Step, Quiet, Bounded, NewWorld;
      QuietRun(sub, now, n - 1);
      assert es[..n - 1] == seq(n - 1, _ => SUCCESS);
      QuietStep(sub, Run(sub, NewWorld(sub, now), es[..n - 1]));
    }
  }

  /** Without any limit the simulated run outlasts every number of steps, though every adapter answered. */
  lemma UnlimitedRunsOn(sub: Submission, now: int, n: nat)
    requires !Bounded(sub)
    ensures exists es :: TaskSteps(es) == n && Run(sub, NewWorld(sub, now), es).pc != Ending(Ended)
  {
    QuietRun(sub, now, n);
    hide Inv, Run, NewWorld, TaskSteps, Bounded;
    var es := seq(n, _ => SUCCESS);
    assert TaskSteps(es) == n && Run(sub, NewWorld(sub, now), es).pc != Ending(Ended);
  }

  /** `n` task steps are always enough. */
  ghost predicate EndsWithin(sub: Submission, now: int, n: nat) {
    forall es :: TaskSteps(es) > n ==> Run(sub, NewWorld(sub, now), es).pc == Ending(Ended)
  }

  /** A task is sure to end exactly when its simulated run, if it has one, is limited by something. */
  lemma EndsExactly(sub: Submission, now: int)
    ensures (exists n: nat :: EndsWithin(sub, now, n)) <==> Bounded(sub)
  {
    hide Run, NewWorld, TaskSteps, Bounded, Rank, Settled;
    if Bounded(sub) {
      var n := Rank(sub, Opening(Sweeping), now);
      forall es | TaskSteps(es) > n ensures Run(sub, NewWorld(sub, now), es).pc == Ending(Ended) {
        EveryRunEnds(sub, now, es);
      }
      assert EndsWithin(sub, now, n);
    } else {
      forall n: nat ensures !EndsWithin(sub, now, n) { UnlimitedRunsOn(sub, now, n + 1); }
    }
  }
}
