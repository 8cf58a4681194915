/** The retry loop over whole runs: how often the execute adapter is called, and how long the task sleeps. */
module KernelRetry {
  import opened KernelModel
  import opened KernelDag

  // ---- back-off ----------------------------------------------------------------------------------

  lemma Pow2Plus7(n: nat)
    ensures Pow2(n + 7) == 128 * Pow2(n)
  {
    assert Pow2(n + 4) == 2 * Pow2(n + 3) == 4 * Pow2(n + 2) == 8 * Pow2(n + 1);
    assert Pow2(n + 7) == 2 * Pow2(n + 6) == 4 * Pow2(n + 5) == 8 * Pow2(n + 4);
  }

  lemma Pow2Bounds(n: nat)
    requires n < 32
    ensures Pow2(n) <= 0x8000_0000
  {
    Pow2Below(n, 31);
    Pow2Plus7(24);
    Pow2Plus7(17);
    Pow2Plus7(10);
    Pow2Plus7(3);
    assert Pow2(3) == 8;
  }

  lemma {:induction false} Pow2Below(m: nat, n: nat)
    requires m <= n
    ensures 1 <= Pow2(m) <= Pow2(n)
    decreases n
  {
    if m < n {
      Pow2Below(m, n - 1);
    } else if n > 0 {
      Pow2Below(n - 1, n - 1);
    }
  }

  lemma ShiftedGrows(m: nat, n: nat)
    requires m <= n
    ensures Shifted(m) <= Shifted(n)
  {
    if n < 32 { Pow2Below(m, n); } else if m < 32 { Pow2Bounds(m); }
  }

  lemma Product(b: nat, x: nat, y: nat)
    requires x <= y
    ensures 0 <= b * x <= b * y
  {}

  /** Later attempts never wait less, and no attempt waits longer than the cap, saturation included. */
  lemma BackoffGrows(p: Policy, m: nat, n: nat)
    requires m <= n
    ensures Backoff(p, m) <= Backoff(p, n) <= p.maxDelay
  {
    var x, y := (if m == 0 then 0 else m - 1), (if n == 0 then 0 else n - 1);
    ShiftedGrows(x, y);
    Product(p.baseDelay, Shifted(x), Shifted(y));
  }

  function Least(a: nat, b: nat): nat { if a < b then a else b }

  /** The first attempt waits the base delay and every further one twice as long, up to the cap. */
  lemma BackoffDoubles(p: Policy, n: nat)
    requires 1 <= n < 32
    ensures Backoff(p, 1) == Least(p.baseDelay, p.maxDelay)
    ensures Backoff(p, n + 1) == Least(2 * Backoff(p, n), p.maxDelay)
  {
    assert Shifted(n) == 2 * Shifted(n - 1);
    hide Shifted;
    Twice(p.baseDelay, Shifted(n - 1));
    assert Shifted(0) == 1 by { assert Pow2(0) == 1; ShiftedOnce(); }
  }

  lemma ShiftedOnce()
    ensures Shifted(0) == 1
  {}

  lemma Twice(b: nat, x: nat)
    ensures b * (2 * x) == 2 * (b * x)
  {}

  /** Without overrides: three attempts, 50 ms doubling up to a second, five seconds in all. */
  lemma DefaultPolicy(o: RetryOverrides)
    ensures o.maxAttempts.None? ==> PolicyOf(o).maxAttempts == 3
    ensures o.maxAttempts.Some? && 0 < o.maxAttempts.value ==>
      PolicyOf(o).maxAttempts == Least(o.maxAttempts.value, 16)
    ensures o.baseDelay.None? ==> PolicyOf(o).baseDelay == 50
    ensures o.maxDelay.None? ==> PolicyOf(o).maxDelay == 1000
    ensures o.maxElapsed.None? ==> PolicyOf(o).maxElapsed == 5000
    ensures o.baseDelay.Some? && o.baseDelay.value > 0 ==> PolicyOf(o).baseDelay == o.baseDelay.value
    ensures o.retryable == {} ==> "EIGEN_EXECUTION_UNAVAILABLE" in PolicyOf(o).retryable
    ensures o.nonRetryable == {} ==> "EIGEN_EXECUTION_INVALID_ARGUMENT" in PolicyOf(o).nonRetryable
    ensures o.retryable != {} ==> PolicyOf(o).retryable == o.retryable
    ensures o.nonRetryable != {} ==> PolicyOf(o).nonRetryable == o.nonRetryable
  {}

  // ---- the books of the loop -----------------------------------------------------------------------

  /** The recorded attempts are numbered from one and carry the back-off of their number. */
  ghost predicate Recorded(p: Policy, attempts: seq<Attempt>) {
    forall i :: 0 <= i < |attempts| ==>
      && attempts[i].number == i + 1
      && attempts[i].delay == (if attempts[i].retryable then Backoff(p, i + 1) else 0)
  }

  ghost predicate AllRetryable(attempts: seq<Attempt>) { forall i :: 0 <= i < |attempts| ==> attempts[i].retryable }

  /** At every point: the calls made, the attempts recorded and the time slept stay within the policy. */
  ghost predicate Within(p: Policy, w: World) {
    && w.executions <= p.maxAttempts && |w.job.attempts| <= w.executions && w.slept <= p.maxElapsed
    && Recorded(p, w.job.attempts)
    && (w.job.attempts != [] ==> AllRetryable(w.job.attempts[..|w.job.attempts| - 1]))
  }

  ghost predicate Unstarted(w: World) { w.executions == 0 && w.job.attempts == [] && w.slept == 0 }

  /** In the loop since time `t`, with `n` attempts behind it, all of them retryable. */
  ghost predicate Looping(w: World, t: int, n: nat) {
    w.executions == n && |w.job.attempts| == n && AllRetryable(w.job.attempts) && t + w.slept <= w.now
  }

  ghost predicate RetryTally(p: Policy, w: World, r: RetryPoint) {
    match r
    case RetryGate(t, n) => n < p.maxAttempts && Looping(w, t, n)
    case Executing(t, n) => 1 <= n <= p.maxAttempts && Looping(w, t, n - 1)
    case Recording(t, n, e) =>
      1 <= n <= p.maxAttempts && w.executions == n && |w.job.attempts| == n - 1 && AllRetryable(w.job.attempts)
      && t + w.slept <= w.now
    case RetryDeciding(t, n, e) =>
      && 1 <= n <= p.maxAttempts && w.executions == n && |w.job.attempts| == n && t + w.slept <= w.now
      && w.job.attempts[n - 1].retryable == Retryable(p, e)
    case _ => true
  }

  predicate BeforeExecute(pc: PC) {
    match pc
    case Opening(o) => o.Sweeping? || (!o.Summarizing? && Order(o.s) <= 5 && !(o.Calling? && o.s == Execute))
    case Closing(c) => Order(c.s) < 5
    case Simulating(_) => true
    case _ => false
  }

  ghost predicate Tally(sub: Submission, w: World) {
    var p := PolicyOf(sub.retry);
    && Within(p, w)
    && (BeforeExecute(w.pc) ==> Unstarted(w))
    && (w.pc.Retrying? ==> RetryTally(p, w, w.pc.r))
  }

  lemma NewTally(sub: Submission, now: int)
    ensures Tally(sub, NewWorld(sub, now))
  {}

  // ---- steps ---------------------------------------------------------------------------------------

  /** What the tally reads of the world, apart from the point reached and the clock. */
  ghost predicate SameTally(w: World, v: World) {
    w.executions == v.executions && w.slept == v.slept && w.job.attempts == v.job.attempts
  }

  lemma WritesKeepAttempts(j: Job, s: Stage, t: TaskState, input: Input, code: string, now: int)
    ensures BeginStage(j, s, t, input, now).job.attempts == j.attempts
    ensures FinishStageSuccess(j, s, t, now).job.attempts == j.attempts
    ensures FinishStageFailure(j, s, t, code, now).job.attempts == j.attempts
    ensures RequestErrorTerminalization(j, code, now).attempts == j.attempts
    ensures RequestDeadlineTerminalization(j, now).attempts == j.attempts
  {
    hide Find, RequiredFields, Opened, Orphan, SucceededRecord, FailedRecord, FailureRef, CompletionRef,
      TerminalizedRecords, InputRef;
  }

  lemma OpenTally(sub: Submission, w: World, reply: Reply)
    requires Tally(sub, w) && w.pc.Opening?
    ensures Tally(sub, OpenStep(sub, w, w.pc.o, reply))
  {
    hide BeginStage, Within, PolicyOf, StageInput, StageState, LeaseExpired, Terminal;
    var o := w.pc.o;
    if o.Beginning? { WritesKeepAttempts(w.job, o.s, StageState(o.s), StageInput(sub, o.s, w.output), "", w.now); }
    var v := OpenStep(sub, w, o, reply);
    assert SameTally(w, v) && v.now == w.now;
    SameWithin(PolicyOf(sub.retry), w, v);
  }

  lemma SameWithin(p: Policy, w: World, v: World)
    requires Within(p, w) && SameTally(w, v)
    ensures Within(p, v)
  {}

  lemma CloseChangesNothing(w: World, c: ClosePoint)
    ensures SameTally(w, CloseStep(w, c))
  {
    hide FinishStageSuccess, NextState, StageState, Publishes, DeadlineExpired, Terminal;
    if c.Finishing? { WritesKeepAttempts(w.job, c.s, NextState(c.s), CANCEL_INPUT, "", w.now); }
  }

  lemma CloseMoves(w: World, c: ClosePoint)
    ensures var v := CloseStep(w, c); !v.pc.Retrying? && (BeforeExecute(v.pc) ==> BeforeExecute(Closing(c)))
  {
    hide FinishStageSuccess, NextState, StageState, Publishes, DeadlineExpired, Terminal, SetState, Touch;
  }

  lemma CloseTally(sub: Submission, w: World)
    requires Tally(sub, w) && w.pc.Closing?
    ensures Tally(sub, CloseStep(w, w.pc.c))
  {
    hide CloseStep, Within, PolicyOf, BeforeExecute, RetryTally;
    CloseChangesNothing(w, w.pc.c);
    CloseMoves(w, w.pc.c);
    SameWithin(PolicyOf(sub.retry), w, CloseStep(w, w.pc.c));
  }

  lemma EndTally(sub: Submission, w: World)
    requires Tally(sub, w) && w.pc.Ending?
    ensures Tally(sub, EndStep(w, w.pc.e))
  {
    hide BeginStage, FinishStageFailure, RequestErrorTerminalization, RequestDeadlineTerminalization, Within, PolicyOf,
      StageState;
    var e := w.pc.e;
    match e {
      case CancelBeginning(s) => WritesKeepAttempts(w.job, s, StageState(s), CANCEL_INPUT, "", w.now);
      case CancelFailing(s) => WritesKeepAttempts(w.job, s, Cancelled, CANCEL_INPUT, "CANCELLED", w.now);
      case Rejected(err) => WritesKeepAttempts(w.job, Execute, Error, CANCEL_INPUT, err.reason, w.now);
      case _ => WritesKeepAttempts(w.job, Execute, Error, CANCEL_INPUT, "", w.now);
    }
    var v := EndStep(w, e);
    assert SameTally(w, v);
    SameWithin(PolicyOf(sub.retry), w, v);
  }

  lemma SimTally(sub: Submission, w: World, extra: nat)
    requires Tally(sub, w) && w.pc.Simulating?
    ensures Tally(sub, SimStep(sub, w, w.pc.m, extra))
  {
    hide Within, PolicyOf, Reached, DeadlineExpired;
    var v := SimStep(sub, w, w.pc.m, extra);
    assert SameTally(w, v);
    SameWithin(PolicyOf(sub.retry), w, v);
  }

  lemma RecordingTally(p: Policy, w: World, t: int, n: nat, e: StageError, v: World)
    requires Within(p, w) && RetryTally(p, w, Recording(t, n, e))
    requires v.executions == w.executions && v.slept == w.slept && v.now == w.now
    requires v.job.attempts == w.job.attempts + [Attempt(n, Retryable(p, e), Delay(p, e, n), w.now - t)]
    ensures Within(p, v) && RetryTally(p, v, RetryDeciding(t, n, e))
  {
    hide Retryable, Backoff;
    assert v.job.attempts[..n - 1] == w.job.attempts;
  }

  lemma DecidingTally(p: Policy, w: World, t: int, n: nat, e: StageError, v: World, expired: bool, extra: nat)
    requires Within(p, w) && RetryTally(p, w, RetryDeciding(t, n, e))
    requires Decision(p, expired, t, n, e, w.now) == RetryGate(t, n)
    requires v.executions == w.executions && v.job.attempts == w.job.attempts
    requires v.slept == w.slept + Delay(p, e, n) && v.now == w.now + Delay(p, e, n) + extra
    ensures Within(p, v) && RetryTally(p, v, RetryGate(t, n))
  {
    hide Backoff, Delay, Retryable, Recorded;
    var a := w.job.attempts;
    assert a[..n - 1] + [a[n - 1]] == a;
    assert Retryable(p, e);
  }

  lemma RetryStepTally(sub: Submission, w: World, reply: Reply, extra: nat)
    requires Tally(sub, w) && w.pc.Retrying?
    ensures Tally(sub, RetryStep(sub, w, w.pc.r, reply, extra))
  {
    hide FinishStageFailure, PolicyOf, Retryable, Delay, Decision, DeadlineExpired, Recorded, AllRetryable;
    var p, r := PolicyOf(sub.retry), w.pc.r;
    var v := RetryStep(sub, w, r, reply, extra);
    match r
    case Recording(t, n, e) => RecordingTally(p, w, t, n, e, v);
    case RetryDeciding(t, n, e) =>
      var expired := DeadlineExpired(w.job, w.now);
      DecisionGoesOn(p, expired, t, n, e, w.now);
      if Decision(p, expired, t, n, e, w.now).RetryGate? { DecidingTally(p, w, t, n, e, v, expired, extra); }
    case FailingExecute(verdict) =>
      WritesKeepAttempts(w.job, Execute, verdict.state, CANCEL_INPUT, verdict.errorCode, w.now);
    case _ =>
  }

  lemma DecisionGoesOn(p: Policy, expired: bool, t: int, n: nat, e: StageError, now: int)
    ensures var d := Decision(p, expired, t, n, e, now); d.RetryGate? ==> d == RetryGate(t, n)
    ensures var d := Decision(p, expired, t, n, e, now); d.RetryGate? || d.Reasoning?
  {
    hide Retryable, Delay;
  }

  lemma StepTally(sub: Submission, w: World, e: Event)
    requires Tally(sub, w)
    ensures Tally(sub, Step(sub, w, e))
  {
    hide OpenStep, CloseStep, EndStep, SimStep, RetryStep, PolicyOf, Recorded, AllRetryable;
    if e.Task? {
      hide Tally;
      match w.pc
      case Opening(_) => OpenTally(sub, w, e.reply);
      case Closing(_) => CloseTally(sub, w);
      case Ending(_) => EndTally(sub, w);
      case Simulating(_) => SimTally(sub, w, e.extra);
      case Retrying(_) => RetryStepTally(sub, w, e.reply, e.extra);
    }
  }

  lemma {:induction false} RunTally(sub: Submission, w: World, es: seq<Event>)
    requires Tally(sub, w)
    ensures Tally(sub, Run(sub, w, es))
  {
    hide Step, Tally;
    if es != [] {
      RunTally(sub, w, es[..|es| - 1]);
      StepTally(sub, Run(sub, w, es[..|es| - 1]), es[|es| - 1]);
    }
  }

  // ---- the theorem -----------------------------------------------------------------------------------

  /** The delays of the retryable attempts never fall, and none exceeds the cap. */
  ghost predicate DelaysRise(p: Policy, a: seq<Attempt>) {
    && (forall i :: 0 <= i < |a| ==> a[i].delay <= p.maxDelay)
    && (forall i, k :: 0 <= i < k < |a| && a[k].retryable ==> a[i].retryable && a[i].delay <= a[k].delay)
  }

  lemma RecordedDelaysRise(p: Policy, a: seq<Attempt>)
    requires Recorded(p, a) && (a != [] ==> AllRetryable(a[..|a| - 1]))
    ensures DelaysRise(p, a)
  {
    hide Backoff;
    forall i | 0 <= i < |a| ensures a[i].delay <= p.maxDelay { BackoffGrows(p, i + 1, i + 1); }
    forall i, k | 0 <= i < k < |a| && a[k].retryable ensures a[i].retryable && a[i].delay <= a[k].delay {
      assert a[..|a| - 1][i] == a[i];
      BackoffGrows(p, i + 1, k + 1);
    }
  }

  /** In every run, whatever the adapters answer and however long the sleeps really take: at most `maxAttempts`
      calls (itself between 1 and 16), at most one recorded attempt a call, the delays of the retryable attempts
      never fall and stay under the cap, and the time slept stays under the elapsed budget. */
  lemma RetriesBounded(sub: Submission, now: int, es: seq<Event>)
    ensures var p, w := PolicyOf(sub.retry), Run(sub, NewWorld(sub, now), es);
      && w.executions <= p.maxAttempts <= 16
      && |w.job.attempts| <= w.executions
      && w.slept <= p.maxElapsed
      && DelaysRise(p, w.job.attempts)
  {
    var p, w := PolicyOf(sub.retry), Run(sub, NewWorld(sub, now), es);
    NewTally(sub, now);
    RunTally(sub, NewWorld(sub, now), es);
    RecordedDelaysRise(p, w.job.attempts);
    hide DelaysRise, Run, NewWorld, PolicyOf, BeforeExecute, RetryTally, Recorded, AllRetryable;
  }
}
