/** The job lifecycle and the event log that records it. */
module EventLog {
  import opened Options

  // ---- the state machine ---------------------------------------------------------------------------

  datatype JobState = Pending | Compiling | Running | Done | Error | Cancelled | Timeout

  datatype JobEvent = StartCompiling | StartRunning | Complete | Fail | Cancel | TimeOut

  predicate IsTerminal(s: JobState) { s in {Done, Error, Cancelled, Timeout} }

  /** The next state, or nothing when the event is not allowed. */
  function Transition(s: JobState, e: JobEvent): Option<JobState> {
    match (s, e)
    case (Pending, StartCompiling) => Some(Compiling)
    case (Compiling, StartRunning) => Some(Running)
    case (Running, Complete) => Some(Done)
    case (_, Cancel) => if IsTerminal(s) then None else Some(Cancelled)
    case (_, Fail) => if IsTerminal(s) then None else Some(Error)
    case (_, TimeOut) => if IsTerminal(s) then None else Some(Timeout)
    case (_, _) => None
  }

  function Progress(s: JobState): nat {
    match s
    case Pending => 0
    case Compiling => 1
    case Running => 2
    case _ => 3
  }

  /** Terminal states accept nothing, and every accepted event moves forward. */
  lemma TransitionAdvances(s: JobState, e: JobEvent)
    ensures IsTerminal(s) ==> Transition(s, e).None?
    ensures Transition(s, e).Some? ==> Progress(s) < Progress(Transition(s, e).value) <= 3
    ensures IsTerminal(s) <==> Progress(s) == 3
  {}

  /** Where an event leads, whatever state it is applied to. */
  function Target(e: JobEvent): JobState {
    match e
    case StartCompiling => Compiling
    case StartRunning => Running
    case Complete => Done
    case Cancel => Cancelled
    case Fail => Error
    case TimeOut => Timeout
  }

  /** The steps of a job that runs to its end are taken one after the other; the other three events end a job that has
      not ended. An accepted event leads to its own state, wherever it comes from. */
  lemma LifecycleExactly(s: JobState, e: JobEvent)
    ensures Transition(s, e).Some? ==> Transition(s, e).value == Target(e)
    ensures Transition(s, StartCompiling).Some? <==> s == Pending
    ensures Transition(s, StartRunning).Some? <==> s == Compiling
    ensures Transition(s, Complete).Some? <==> s == Running
    ensures e in {Cancel, Fail, TimeOut} ==> (Transition(s, e).Some? <==> s in {Pending, Compiling, Running})
    ensures IsTerminal(s) <==> s !in {Pending, Compiling, Running}
  {}

  // ---- logs ----------------------------------------------------------------------------------------

  datatype Entry = Entry(jobId: string, sequence: nat, event: JobEvent, source: JobState, target: JobState)

  ghost predicate Numbered(es: seq<Entry>) { forall i :: 0 <= i < |es| ==> es[i].sequence == i + 1 }

  ghost predicate Moves(es: seq<Entry>, i: nat)
    requires i < |es|
  {
    Transition(es[i].source, es[i].event) == Some(es[i].target) && (i > 0 ==> es[i].source == es[i - 1].target)
  }

  /** Each entry is a legal move from where the one before it arrived. */
  ghost predicate Path(es: seq<Entry>) { forall i :: 0 <= i < |es| ==> Moves(es, i) }

  datatype ReplayError =
    | EmptyLog
    | SequenceGap(wanted: nat, found: nat)
    | InvalidSequence(sequence: nat, expected: JobState, actual: JobState)
    | DeterminismViolation(sequence: nat, expected: JobState, actual: JobState)
    | InvalidTransition(sequence: nat)

  datatype Replayed = Reached(state: JobState) | Failed(error: ReplayError)

  method ReplayToCurrentState(es: seq<Entry>) returns (r: Replayed)
    ensures r.Reached? <==> es != [] && Path(es)
    ensures es == [] ==> r == Failed(EmptyLog)
    ensures r.Reached? ==> r.state == es[|es| - 1].target
    ensures r.Failed? && es != [] ==>
      && !r.error.EmptyLog? && !r.error.SequenceGap?
      && exists i :: 0 <= i < |es| && !Moves(es, i) && Path(es[..i]) && r.error.sequence == es[i].sequence
  {
    if es == [] { return Failed(EmptyLog); }
    var current := es[0].source;
    for i := 0 to |es|
      invariant forall k :: 0 <= k < i ==> Moves(es, k)
      invariant current == if i == 0 then es[0].source else es[i - 1].target
    {
      var e := es[i];
      ghost var moves := Moves(es, i);
      assert Path(es[..i]) by { forall k | 0 <= k < i ensures Moves(es[..i], k) { assert Moves(es, k); } }
      if e.source != current { return Failed(InvalidSequence(e.sequence, current, e.source)); }
      var next := Transition(current, e.event);
      if next.None? { return Failed(InvalidTransition(e.sequence)); }
      if next.value != e.target { return Failed(DeterminismViolation(e.sequence, next.value, e.target)); }
      current := next.value;
    }
    r := Reached(current);
  }

  ghost predicate FirstGap(es: seq<Entry>, i: nat) { i < |es| && Numbered(es[..i]) && es[i].sequence != i + 1 }

  /** Accepts a log exactly when it is not empty, numbered from one, and a path of the state machine. */
  method Verify(es: seq<Entry>) returns (problem: Option<ReplayError>)
    ensures problem.None? <==> es != [] && Numbered(es) && Path(es)
    ensures problem.Some? && problem.value.SequenceGap? ==>
      exists i: nat :: FirstGap(es, i) && problem.value == SequenceGap(i + 1, es[i].sequence)
  {
    for i := 0 to |es|
      invariant forall k :: 0 <= k < i ==> es[k].sequence == k + 1
    {
      if es[i].sequence != i + 1 {
        assert FirstGap(es, i);
        return Some(SequenceGap(i + 1, es[i].sequence));
      }
    }
    var r := ReplayToCurrentState(es);
    problem := if r.Reached? then None else Some(r.error);
  }

  lemma {:induction false} PathClimbs(es: seq<Entry>, i: nat)
    requires Path(es) && i < |es|
    ensures Progress(es[i].target) > i
    ensures i > 0 ==> !IsTerminal(es[i].source) && !IsTerminal(es[i - 1].target)
  {
    assert Moves(es, i);
    TransitionAdvances(es[i].source, es[i].event);
    if i > 0 { PathClimbs(es, i - 1); }
  }

  /** An accepted log is short and says nothing after a terminal state. */
  lemma AcceptedLogsAreShort(es: seq<Entry>)
    requires Path(es)
    ensures |es| <= 3
    ensures forall i :: 0 <= i < |es| - 1 ==> !IsTerminal(es[i].target)
  {
    if es != [] {
      PathClimbs(es, |es| - 1);
      TransitionAdvances(es[|es| - 1].target, Cancel);
    }
    forall i | 0 <= i < |es| - 1 ensures !IsTerminal(es[i].target) { PathClimbs(es, i + 1); }
  }

  function Events(es: seq<Entry>): seq<JobEvent> { seq(|es|, i requires 0 <= i < |es| => es[i].event) }

  /** The events of a job that runs to its end. */
  const LIFECYCLE := [StartCompiling, StartRunning, Complete]

  /** What has happened to a job that has not ended early: the first so many events of the lifecycle. */
  ghost predicate OnCourse(events: seq<JobEvent>) { events <= LIFECYCLE }

  ghost function StateOf(events: seq<JobEvent>): JobState {
    if events == [] then Pending else Target(events[|events| - 1])
  }

  /** A log from Pending is the lifecycle so far, or the lifecycle so far and then one early end. */
  lemma {:induction false} LogIsLifecycle(es: seq<Entry>)
    requires Path(es) && (es != [] ==> es[0].source == Pending)
    ensures es != [] ==> OnCourse(Events(es[..|es| - 1])) && |es| <= 3
    ensures es != [] ==> es[|es| - 1].target == StateOf(Events(es))
    ensures OnCourse(Events(es)) <==> StateOf(Events(es)) in {Pending, Compiling, Running, Done}
  {
    if es != [] {
      var most, last := es[..|es| - 1], es[|es| - 1];
      PrefixIsPath(most, es);
      LogIsLifecycle(most);
      assert Moves(es, |es| - 1) && (most != [] ==> most[|most| - 1] == es[|es| - 2]);
      LifecycleExactly(last.source, last.event);
      assert Events(es) == Events(most) + [last.event];
      assert last.source == StateOf(Events(most));
      hide Transition, Path;
      CourseGoesOn(Events(most), last.event);
    }
  }

  lemma CourseGoesOn(events: seq<JobEvent>, e: JobEvent)
    requires OnCourse(events) || !(StateOf(events) in {Pending, Compiling, Running})
    requires Transition(StateOf(events), e).Some?
    ensures OnCourse(events) && |events| <= 2
    ensures OnCourse(events + [e]) <==> Target(e) in {Pending, Compiling, Running, Done}
  {
    LifecycleExactly(StateOf(events), e);
    hide Transition;
    assert |events| == 3 ==> events == LIFECYCLE;
    if |events| < 3 && e == LIFECYCLE[|events|] { assert events + [e] == LIFECYCLE[..|events| + 1]; }
  }

  lemma PrefixIsPath(es: seq<Entry>, fs: seq<Entry>)
    requires Path(fs) && es <= fs
    ensures Path(es)
  {
    forall i | 0 <= i < |es| ensures Moves(es, i) { assert Moves(fs, i); }
  }

  lemma PathExtends(es: seq<Entry>, e: Entry)
    requires Path(es) && Transition(e.source, e.event) == Some(e.target)
    requires es != [] ==> e.source == es[|es| - 1].target
    ensures Path(es + [e])
  {
    var more := es + [e];
    forall i | 0 <= i < |more| ensures Moves(more, i) {
      if i < |es| { assert Moves(es, i); }
    }
  }
}
