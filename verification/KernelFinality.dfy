/** Exactly when a terminal state is final. */
module KernelFinality {
  import opened KernelModel
  import opened KernelDag
  import opened KernelInvariant
  import opened KernelRuns

  // ---- what a task can still do to a terminal job -----------------------------------------------------------

  /** The task's next step records a cancelled stage. */
  predicate AboutToCancel(pc: PC) { pc.Ending? && pc.e.CancelFailing? }

  /** Where the task of a terminal job can be. */
  lemma TerminalPoints(sub: Submission, w: World)
    requires Inv(sub, w) && Terminal(w.job.state)
    ensures (w.pc.Retrying? && w.pc.r.Releasing?)
         || (w.pc.Ending? && (w.pc.e.CancelFailing? || w.pc.e.CancelReleasing? || w.pc.e.Rejected? || w.pc.e.Ended?))
    ensures AboutToCancel(w.pc) ==> w.job.state == Error && Cancelling(w.job, w.pc.e.s)
  {
    hide OpenAt, Chain, Sound, Orphaned, HeldState, Order, Terminal;
  }

  /** A call changes a terminal state exactly when it records a cancelled stage: Error becomes Cancelled. */
  lemma TerminalStep(sub: Submission, w: World, e: Event)
    requires Inv(sub, w) && Terminal(w.job.state)
    ensures var v := Step(sub, w, e);
      && (if e.Task? && AboutToCancel(w.pc) then w.job.state == Error && v.job.state == Cancelled
          else v.job.state == w.job.state)
      && (AboutToCancel(v.pc) <==> AboutToCancel(w.pc) && !e.Task?)
  {
    TerminalPoints(sub, w);
    hide Inv, FinishStageFailure, RequestErrorTerminalization, RequestDeadlineTerminalization, Settled, Orphaned, Order,
      OpenStep, CloseStep, SimStep, BeginStage, Terminal;
    if e.Task? && AboutToCancel(w.pc) {
      FinishFailsOrphan(w.job, w.pc.e.s, Cancelled, "CANCELLED", w.now);
    } else if e.Task? && w.pc.Ending? && w.pc.e.Rejected? {
      TerminalWritesKeep(w.job, w.pc.e.error.reason, w.now);
    }
  }

  lemma {:induction false} TerminalRun(sub: Submission, w: World, es: seq<Event>)
    requires Inv(sub, w) && Terminal(w.job.state)
    ensures var v := Run(sub, w, es);
      && Inv(sub, v) && Terminal(v.job.state)
      && (v.job.state != w.job.state ==> AboutToCancel(w.pc) && w.job.state == Error && v.job.state == Cancelled)
      && (AboutToCancel(v.pc) ==> AboutToCancel(w.pc) && v.job.state == w.job.state)
  {
    hide Inv, Step;
    if es != [] {
      var v, e := Run(sub, w, es[..|es| - 1]), es[|es| - 1];
      TerminalRun(sub, w, es[..|es| - 1]);
      TerminalStep(sub, v, e);
      StepKeeps(sub, v, e);
    }
  }

  /** A terminal state is final exactly when its task is not about to record a cancelled stage; Done, Timeout and
      Cancelled always are. */
  lemma FinalExactly(sub: Submission, w: World)
    requires Inv(sub, w) && Terminal(w.job.state)
    ensures (forall es :: Run(sub, w, es).job.state == w.job.state) <==> !AboutToCancel(w.pc)
    ensures AboutToCancel(w.pc) ==> w.job.state == Error
    ensures forall es :: Run(sub, w, es).job.state in {w.job.state, Cancelled}
  {
    hide Inv, Step;
    TerminalStep(sub, w, NO_FIELDS);
    forall es
      ensures !AboutToCancel(w.pc) ==> Run(sub, w, es).job.state == w.job.state
      ensures Run(sub, w, es).job.state in {w.job.state, Cancelled}
    {
      TerminalRun(sub, w, es);
    }
    if AboutToCancel(w.pc) {
      RunOne(sub, w, [], NO_FIELDS);
      assert Run(sub, w, [] + [NO_FIELDS]).job.state != w.job.state;
    }
  }

  // ---- the change is reached -----------------------------------------------------------------------------------

  /** An adapter that answers without any field. */
  const NO_FIELDS := Task(Answer(map[], false), 0)

  /** Validation called its adapter. */
  lemma ValidationAnswers(sub: Submission, now: int) returns (es: seq<Event>)
    ensures var w := Run(sub, NewWorld(sub, now), es);
      Inv(sub, w) && w.pc == Closing(ControlGate(ValidateEnqueue))
  {
    var w := NewWorld(sub, now);
    NewIsInv(sub, now);
    var a := Step(sub, w, NO_FIELDS);
    var b := Step(sub, a, NO_FIELDS);
    StepKeeps(sub, w, NO_FIELDS);
    StepKeeps(sub, a, NO_FIELDS);
    assert a.pc == Opening(Beginning(ValidateEnqueue));
    assert b.pc == Opening(Calling(ValidateEnqueue)) by {
      var input := StageInput(sub, ValidateEnqueue, a.output);
      InputIsStandard(sub, ValidateEnqueue, a.output);
      NothingRequired(input);
      hide BeginStage, StageInput, Standard, RequiredFields;
      BeginFromReady(a.job, ValidateEnqueue, StageState(ValidateEnqueue), input, a.now);
    }
    hide Inv, NewWorld, BeginStage;
    StepKeeps(sub, b, NO_FIELDS);
    es := [] + [NO_FIELDS] + [NO_FIELDS] + [NO_FIELDS];
    RunOne(sub, w, [], NO_FIELDS);
    RunOne(sub, w, [] + [NO_FIELDS], NO_FIELDS);
    RunOne(sub, w, [] + [NO_FIELDS] + [NO_FIELDS], NO_FIELDS);
  }

  /** Every submission has a run that leaves its job in a terminal state that is not final: the cancel of a validation
      that has answered. */
  lemma ErrorIsNotAlwaysFinal(sub: Submission, now: int) returns (es: seq<Event>)
    ensures var w := Run(sub, NewWorld(sub, now), es); Inv(sub, w) && w.job.state == Error && AboutToCancel(w.pc)
  {
    var before := ValidationAnswers(sub, now);
    var w := NewWorld(sub, now);
    var a := Run(sub, w, before);
    var b := Step(sub, a, Cancel);
    var c := Step(sub, b, NO_FIELDS);
    var d := Step(sub, c, NO_FIELDS);
    assert !Terminal(a.job.state) by { hide OpenAt; }
    StepKeeps(sub, a, Cancel);
    StepKeeps(sub, b, NO_FIELDS);
    StepKeeps(sub, c, NO_FIELDS);
    StepKeeps(sub, d, NO_FIELDS);
    assert c.pc == Ending(Controlling(Compile)) && d.pc == Ending(CancelBeginning(Compile)) && d.job == b.job;
    assert InStage(d.job, ValidateEnqueue) by { hide OpenAt; }
    BeginOverValidation(d.job, StageState(Compile), d.now);
    hide Inv, NewWorld, BeginStage, InStage;
    es := before + [Cancel] + [NO_FIELDS] + [NO_FIELDS] + [NO_FIELDS];
    RunOne(sub, w, before, Cancel);
    RunOne(sub, w, before + [Cancel], NO_FIELDS);
    RunOne(sub, w, before + [Cancel] + [NO_FIELDS], NO_FIELDS);
    RunOne(sub, w, before + [Cancel] + [NO_FIELDS] + [NO_FIELDS], NO_FIELDS);
  }
}
