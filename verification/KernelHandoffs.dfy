/** When a run files a stage without the handoff fields it requires, and so when the lineage of an ended run holds. */
module KernelHandoffs {
  import opened Options
  import opened KernelModel
  import opened KernelDag
  import opened KernelInvariant
  import opened KernelRuns
  import opened KernelProgress
  import opened KernelCancel
  import opened KernelLineage

  // ---- the stage records under each write ----------------------------------------------------------------

  /** Nothing that decides about handoffs changed. */
  ghost predicate SameHandoffs(rs: seq<StageRecord>, more: seq<StageRecord>) {
    |rs| == |more| && forall i :: 0 <= i < |rs| ==> rs[i].stage == more[i].stage && rs[i].input == more[i].input
  }

  lemma SameHandoffsKeep(j: Job, k: Job)
    requires SameHandoffs(j.records, k.records)
    ensures HandoffsComplete(j) <==> HandoffsComplete(k)
  {
    hide RequiredFields;
    if HandoffsComplete(j) {
      forall i | 0 <= i < |k.records| ensures RequiredFields(k.records[i].stage) <= k.records[i].input.keys {
        assert RequiredFields(j.records[i].stage) <= j.records[i].input.keys;
      }
    } else {
      var i :| 0 <= i < |j.records| && !(RequiredFields(j.records[i].stage) <= j.records[i].input.keys);
      assert !(RequiredFields(k.records[i].stage) <= k.records[i].input.keys);
    }
  }

  predicate Recorded(j: Job, s: Stage) { Find(j.records, s) < |j.records| }

  lemma BeginHandsOver(j: Job, s: Stage, t: TaskState, input: Input, now: int)
    requires !Terminal(j.state)
    ensures var k := BeginStage(j, s, t, input, now).job;
      HandoffsComplete(k) <==> HandoffsComplete(j) && (Recorded(j, s) || RequiredFields(s) <= input.keys)
  {
    var k := BeginStage(j, s, t, input, now).job;
    hide RequiredFields, Find, FailureRef, PreviousOutput, InputRef, HandoffRef, LineageRef, RootLineageRef;
    if Recorded(j, s) {
      SameHandoffsKeep(j, k);
    } else {
      var r := k.records[|j.records|];
      assert k.records == j.records + [r] && r.stage == s && r.input == input;
      OneMoreRecord(j, k, r);
    }
  }

  lemma OneMoreRecord(j: Job, k: Job, r: StageRecord)
    requires k.records == j.records + [r]
    ensures HandoffsComplete(k) <==> HandoffsComplete(j) && RequiredFields(r.stage) <= r.input.keys
  {
    hide RequiredFields;
    if HandoffsComplete(k) {
      assert k.records[|j.records|] == r;
      forall i | 0 <= i < |j.records| ensures RequiredFields(j.records[i].stage) <= j.records[i].input.keys {
        assert k.records[i] == j.records[i];
      }
    }
  }

  lemma FinishHandsOver(j: Job, s: Stage, t: TaskState, code: string, now: int)
    ensures SameHandoffs(j.records, FinishStageSuccess(j, s, t, now).job.records)
    ensures SameHandoffs(j.records, FinishStageFailure(j, s, t, code, now).job.records)
  {
    hide CompletionRef, FailureRef, OutputRef, InputRef, LineageRef, RootLineageRef, StageFailureRef;
  }

  lemma Unchanged(rs: seq<StageRecord>)
    ensures SameHandoffs(rs, rs)
  {}

  lemma TerminalizedHandsOver(j: Job, t: TaskState, code: string, upstream: Option<string>)
    requires InStage(j, j.currentStage)
    ensures SameHandoffs(j.records, TerminalizedRecords(j, t, code, upstream))
  {
    OpenOrders(j.id, j.records, j.currentStage);
    OpenLength(j.id, j.records, j.currentStage);
    var r := j.records[|j.records| - 1];
    TerminalizedInput(j.id, r, t, code);
    hide InStage, OpenAt, Order, Find, TerminalizedRecord, Stranded;
    assert TerminalizedRecords(j, t, code, upstream) ==
      j.records[|j.records| - 1 := TerminalizedRecord(j.id, r, t, code)];
  }

  lemma TerminalizedInput(id: string, r: StageRecord, t: TaskState, code: string)
    ensures var k := TerminalizedRecord(id, r, t, code); k.stage == r.stage && k.input == r.input
  {
    hide StageFailureRef, LineageRef;
  }

  lemma TerminalHandsOver(j: Job, code: string, now: int)
    requires Terminal(j.state) || InStage(j, j.currentStage)
    ensures SameHandoffs(j.records, RequestErrorTerminalization(j, code, now).records)
    ensures SameHandoffs(j.records, RequestDeadlineTerminalization(j, now).records)
  {
    if !Terminal(j.state) {
      TerminalizedHandsOver(j, Error, code, None);
      TerminalizedHandsOver(j, Timeout, "DEADLINE_EXCEEDED", Some(InputRef(j.id, j.currentStage)));
    }
    hide TerminalizedRecords, FailureRef, InputRef, SameHandoffs;
    assert Terminal(j.state) ==> SameHandoffs(j.records, j.records) by { Unchanged(j.records); }
  }

  lemma UpstreamIn(f: string, output: map<string, string>)
    ensures Upstream(f) in UpstreamKeys(output) <==> f in output
  {
    if Upstream(f) in UpstreamKeys(output) {
      var k :| k in output && Upstream(k) == Upstream(f);
      assert Upstream(k)[9..] == k && Upstream(f)[9..] == f;
    }
  }

  /** What each stage needs from the output before it. */
  lemma StageNeeds(s: Stage, output: map<string, string>)
    ensures RequiredFields(s) <= UpstreamKeys(output) <==>
      match s {
        case ValidateEnqueue => true
        case Compile => "qfs_submission_ref" in output
        case Optimize => "compiled_artifact_ref" in output
        case Schedule => "optimized_artifact_ref" in output
        case Execute => "resource_plan_ref" in output && "selected_backend" in output
        case Persist => "counts_ref" in output && "execution_ref" in output
        case Observe => "qfs_result_ref" in output
        case Finalize => "observability_ref" in output
      }
  {
    hide Upstream, UpstreamKeys;
    match s
    case ValidateEnqueue =>
    case Compile => UpstreamIn("qfs_submission_ref", output);
    case Optimize => UpstreamIn("compiled_artifact_ref", output);
    case Schedule => UpstreamIn("optimized_artifact_ref", output);
    case Execute =>
      UpstreamIn("resource_plan_ref", output);
      UpstreamIn("selected_backend", output);
    case Persist =>
      UpstreamIn("counts_ref", output);
      UpstreamIn("execution_ref", output);
    case Observe => UpstreamIn("qfs_result_ref", output);
    case Finalize => UpstreamIn("observability_ref", output);
  }

  // ---- the steps that break a handoff ----------------------------------------------------------------------

  /** The task files a stage without its handoff fields: it begins one with an input that lacks them, because neither
      the submission nor the latest adapter output has them; or it cancels one that has no record yet. */
  predicate Strands(sub: Submission, w: World, e: Event) {
    e.Task? &&
    match w.pc
    case Opening(Beginning(s)) => !(RequiredFields(s) <= sub.keys + UpstreamKeys(w.output))
    case Ending(CancelBeginning(s)) => !Recorded(w.job, s)
    case _ => false
  }

  ghost predicate HandoffBroken(sub: Submission, w: World, es: seq<Event>) {
    exists i :: 0 <= i < |es| && Strands(sub, Run(sub, w, es[..i]), es[i])
  }

  lemma BrokenSplits(sub: Submission, w: World, es: seq<Event>)
    requires es != []
    ensures var most := es[..|es| - 1];
      HandoffBroken(sub, w, es) <==> HandoffBroken(sub, w, most) || Strands(sub, Run(sub, w, most), es[|es| - 1])
  {
    hide Run, Strands;
    var most := es[..|es| - 1];
    assert forall i :: 0 <= i < |most| ==> most[..i] == es[..i] && most[i] == es[i];
  }

  // ---- every step and every run ------------------------------------------------------------------------------

  /** The step changes nothing about handoffs, unless it strands. */
  ghost predicate HandsOver(sub: Submission, w: World, e: Event, v: World) {
    HandoffsComplete(v.job) <==> HandoffsComplete(w.job) && !Strands(sub, w, e)
  }

  lemma OpenHandsOver(sub: Submission, w: World, e: Event)
    requires Inv(sub, w) && w.pc.Opening? && e.Task?
    ensures HandsOver(sub, w, e, OpenStep(sub, w, w.pc.o, e.reply))
  {
    var o := w.pc.o;
    if o.Beginning? {
      assert ReadyIn(w.job, o.s) && !Recorded(w.job, o.s) by { NotRecorded(w.job, o.s); }
      hide BeginStage, RequiredFields, UpstreamKeys, HandoffsComplete, Ready, HeldState, StageState;
      BeginHandsOver(w.job, o.s, StageState(o.s), StageInput(sub, o.s, w.output), w.now);
    } else {
      hide BeginStage, HandoffsComplete;
      SameHandoffsKeep(w.job, OpenStep(sub, w, o, e.reply).job);
    }
  }

  lemma NotRecorded(j: Job, s: Stage)
    requires Ready(j, s)
    ensures !Recorded(j, s) && !Terminal(j.state)
  {
    FindInChain(j.id, j.records, s);
    hide Find, Linked, Order;
  }

  lemma CloseHandsOver(sub: Submission, w: World, e: Event)
    requires w.pc.Closing? && e.Task?
    ensures HandsOver(sub, w, e, CloseStep(w, w.pc.c))
  {
    var c := w.pc.c;
    if c.Finishing? { FinishHandsOver(w.job, c.s, NextState(c.s), "", w.now); }
    Unchanged(w.job.records);
    hide FinishStageSuccess, HandoffsComplete, SameHandoffs, Publishes, DeadlineExpired;
    SameHandoffsKeep(w.job, CloseStep(w, c).job);
  }

  lemma CancelHandsOver(sub: Submission, w: World, e: Event, s: Stage)
    requires Inv(sub, w) && w.pc == Ending(CancelBeginning(s)) && e.Task?
    ensures HandsOver(sub, w, e, EndStep(w, w.pc.e))
  {
    hide BeginStage, RequiredFields, HandoffsComplete, HeldState, StageState, Recorded;
    assert !Terminal(w.job.state) && (s == ValidateEnqueue ==> OpenIn(w.job, s));
    if s == ValidateEnqueue {
      OpenIsRecorded(w.job, s);
    } else {
      CancelInputLacks(s);
    }
    hide Inv;
    BeginHandsOver(w.job, s, StageState(s), CANCEL_INPUT, w.now);
  }

  lemma OpenIsRecorded(j: Job, s: Stage)
    requires InStage(j, s)
    ensures Recorded(j, s)
  {
    OpenOrders(j.id, j.records, s);
  }

  lemma EndHandsOver(sub: Submission, w: World, e: Event)
    requires Inv(sub, w) && w.pc.Ending? && e.Task?
    ensures HandsOver(sub, w, e, EndStep(w, w.pc.e))
  {
    if w.pc.e.CancelBeginning? {
      hide HandsOver, Inv, EndStep;
      CancelHandsOver(sub, w, e, w.pc.e.s);
    } else {
      Unchanged(w.job.records);
      match w.pc.e {
        case CancelFailing(s) => FinishHandsOver(w.job, s, Cancelled, "CANCELLED", w.now);
        case Rejected(err) => TerminalHandsOver(w.job, err.reason, w.now);
        case TimingOut => TerminalHandsOver(w.job, "", w.now);
        case _ =>
      }
      hide Inv, FinishStageFailure, RequestErrorTerminalization, RequestDeadlineTerminalization, BeginStage,
        HandoffsComplete, SameHandoffs;
      SameHandoffsKeep(w.job, EndStep(w, w.pc.e).job);
    }
  }

  lemma RetryHandsOver(sub: Submission, w: World, e: Event)
    requires w.pc.Retrying? && e.Task?
    ensures HandsOver(sub, w, e, RetryStep(sub, w, w.pc.r, e.reply, e.extra))
  {
    var r := w.pc.r;
    if r.FailingExecute? { FinishHandsOver(w.job, Execute, r.v.state, r.v.errorCode, w.now); }
    Unchanged(w.job.records);
    hide FinishStageFailure, HandoffsComplete, SameHandoffs, PolicyOf, Decision, Retryable, Delay, DeadlineExpired;
    SameHandoffsKeep(w.job, RetryStep(sub, w, r, e.reply, e.extra).job);
  }

  lemma RestHandsOver(sub: Submission, w: World, e: Event)
    requires !e.Task? || w.pc.Simulating?
    ensures HandsOver(sub, w, e, Step(sub, w, e))
  {
    hide HandoffsComplete, SameHandoffs, DeadlineExpired, LeaseExpired, Reached, Terminal;
    Unchanged(w.job.records);
    SameHandoffsKeep(w.job, Step(sub, w, e).job);
  }

  lemma StepHandsOver(sub: Submission, w: World, e: Event)
    requires Inv(sub, w)
    ensures HandsOver(sub, w, e, Step(sub, w, e))
  {
    hide HandsOver, OpenStep, CloseStep, EndStep, SimStep, RetryStep, Inv;
    if !e.Task? || w.pc.Simulating? {
      RestHandsOver(sub, w, e);
    } else {
      match w.pc
      case Opening(_) => OpenHandsOver(sub, w, e);
      case Closing(_) => CloseHandsOver(sub, w, e);
      case Ending(_) => EndHandsOver(sub, w, e);
      case Retrying(_) => RetryHandsOver(sub, w, e);
    }
  }

  /** At every point of every run, all recorded stages have their handoff fields exactly when no step stranded one. */
  lemma {:induction false} HandoffsExactly(sub: Submission, now: int, es: seq<Event>)
    ensures HandoffsComplete(Run(sub, NewWorld(sub, now), es).job) <==> !HandoffBroken(sub, NewWorld(sub, now), es)
  {
    var w := NewWorld(sub, now);
    if es != [] {
      var most := es[..|es| - 1];
      HandoffsExactly(sub, now, most);
      BrokenSplits(sub, w, es);
      RunIsGood(sub, now, most);
      hide Step, NewWorld, Inv, HandoffBroken, Strands, HandoffsComplete;
      StepHandsOver(sub, Run(sub, w, most), es[|es| - 1]);
    }
  }

  /** An ended run's graph passes the validator exactly when no step of the run stranded a stage. */
  lemma LineageOverRun(sub: Submission, now: int, es: seq<Event>)
    requires "job-" <= sub.id && Run(sub, NewWorld(sub, now), es).pc == Ending(Ended)
    ensures var w := NewWorld(sub, now);
      WellFormed(WorkflowGraph(Run(sub, w, es).job)) <==> !HandoffBroken(sub, w, es)
  {
    LineageExactly(sub, now, es);
    HandoffsExactly(sub, now, es);
    hide Run, NewWorld, WellFormed, WorkflowGraph, HandoffsComplete, HandoffBroken;
  }

  /** A step that strands a stage either follows an accepted cancel request or begins the stage on an input that lacks
      one of its fields. */
  lemma StrandedByWhom(sub: Submission, now: int, es: seq<Event>, e: Event)
    requires Strands(sub, Run(sub, NewWorld(sub, now), es), e)
    ensures var w := Run(sub, NewWorld(sub, now), es);
      || Accepted(sub, NewWorld(sub, now), es)
      || (w.pc.Opening? && w.pc.o.Beginning? && w.pc.o.s != ValidateEnqueue
          && exists f :: f in RequiredFields(w.pc.o.s) && f !in sub.keys && f !in UpstreamKeys(w.output))
  {
    var w := Run(sub, NewWorld(sub, now), es);
    CancelledOnlyIfAsked(sub, now, es);
    hide Run, NewWorld, Accepted, RequiredFields, UpstreamKeys;
    if w.pc.Opening? {
      var f :| f in RequiredFields(w.pc.o.s) && f !in sub.keys + UpstreamKeys(w.output);
      NothingRequired(StageInput(sub, ValidateEnqueue, w.output));
    }
  }
}
