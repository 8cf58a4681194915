/** Restarting the durable store: what a process must not do to the jobs it recovered if the next process is to
    start. */
module JobStoreRecovery {
  import opened EventLog
  import opened JobStoreModel

  // ---- sessions ------------------------------------------------------------------------------------------

  /** A disk on which recovery gets through, holding the snapshots that creating jobs wrote. */
  ghost predicate Sound(disk: Disk) {
    && Recovers(disk)
    && forall id :: id in disk.snapshots ==> disk.snapshots[id] != [] && disk.snapshots[id][0].sequence == 1
  }

  /** Fresh UUIDs: none is created twice, and none names a file that is already there. */
  ghost predicate FreshOn(disk: Disk, ops: seq<Op>) {
    FreshIds(ops) && forall i :: 0 <= i < |ops| && ops[i].Create? ==> Unnamed(disk, ops[i].id)
  }

  predicate Unnamed(disk: Disk, id: string) { id !in disk.snapshots && id !in disk.events }

  /** The call moves the job and its log line reaches the disk. */
  predicate WritesMove(d: Durable, op: Op, id: string) {
    op.Apply? && op.written && op.id == id && Moving(d, id, op.event)
  }

  ghost predicate Touched(d: Durable, ops: seq<Op>, id: string) {
    exists i :: 0 <= i < |ops| && WritesMove(RunFrom(d, ops[..i]), ops[i], id)
  }

  /** No job that was there at the start had a move written. */
  ghost predicate LeftAlone(d: Durable, ops: seq<Op>) { forall id :: id in d.records ==> !Touched(d, ops, id) }

  lemma RunFromSplits(d: Durable, ops: seq<Op>)
    requires ops != []
    ensures RunFrom(d, ops) == DurableStep(RunFrom(d, ops[..|ops| - 1]), ops[|ops| - 1])
  {}

  lemma TouchedSplits(d: Durable, ops: seq<Op>, id: string)
    requires ops != []
    ensures var most := ops[..|ops| - 1];
      Touched(d, ops, id) <==> Touched(d, most, id) || WritesMove(RunFrom(d, most), ops[|ops| - 1], id)
  {
    hide RunFrom, WritesMove;
    var most := ops[..|ops| - 1];
    assert forall i :: 0 <= i < |most| ==> most[..i] == ops[..i] && most[i] == ops[i];
    if i :| 0 <= i < |ops| && WritesMove(RunFrom(d, ops[..i]), ops[i], id) {
      assert i < |most| ==> WritesMove(RunFrom(d, most[..i]), most[i], id);
    }
    if i :| 0 <= i < |most| && WritesMove(RunFrom(d, most[..i]), most[i], id) {
      assert WritesMove(RunFrom(d, ops[..i]), ops[i], id);
    }
  }

  lemma StepElsewhere(d: Durable, op: Op, id: string)
    requires op.id != id
    ensures var t := DurableStep(d, op);
      && (id in t.records <==> id in d.records) && (id in d.records ==> t.records[id] == d.records[id])
      && (id in t.logs <==> id in d.logs) && (id in d.logs ==> t.logs[id] == d.logs[id])
      && (id in t.disk.snapshots <==> id in d.disk.snapshots)
      && (id in d.disk.snapshots ==> t.disk.snapshots[id] == d.disk.snapshots[id])
      && (id in t.disk.events <==> id in d.disk.events)
      && (id in d.disk.events ==> t.disk.events[id] == d.disk.events[id])
  {
    hide Transition, IsTerminal, EntryFor;
  }

  // ---- jobs that were recovered -----------------------------------------------------------------------------

  /** How a recovered log goes on: its numbers start again at one, or a lost move left a hole in the path. */
  ghost predicate Breaks(log: seq<Entry>, e: Entry)
    requires log != []
  {
    e.sequence == 1 || Progress(e.source) > Progress(log[|log| - 1].target)
  }

  ghost predicate GoesOn(log: seq<Entry>, r: Record, lines: seq<Entry>) {
    && log != [] && log <= lines && r.sequence >= 1
    && (r.sequence == 1 ==> r.state == log[|log| - 1].target && lines == log)
    && (r.sequence > 1 ==> Progress(r.state) > Progress(log[|log| - 1].target))
    && (lines != log ==> Breaks(log, lines[|log|]))
  }

  lemma MoveGoesOn(log: seq<Entry>, r: Record, lines: seq<Entry>, id: string, e: JobEvent)
    requires GoesOn(log, r, lines) && Transition(r.state, e).Some?
    ensures var n := EntryFor(r, id, e);
      var moved := r.(state := n.target, sequence := r.sequence + 1);
      GoesOn(log, moved, lines) && GoesOn(log, moved, lines + [n])
  {
    TransitionAdvances(r.state, e);
    hide Transition;
    var n := EntryFor(r, id, e);
    assert log <= lines + [n];
    if lines == log { assert (lines + [n])[|log|] == n; } else { assert (lines + [n])[|log|] == lines[|log|]; }
  }

  lemma BrokenLog(log: seq<Entry>, r: Record, lines: seq<Entry>)
    requires GoesOn(log, r, lines) && lines != log
    ensures !Accepted(lines)
  {
    if lines[|log|].sequence == |log| + 1 { assert !Moves(lines, |log|); }
  }

  /** A recovered job keeps its snapshot, and its log on the disk grows exactly when a move is written. */
  ghost predicate RecoveredGoesOn(r: Durable, d: Durable, id: string, touched: bool) {
    && id in r.logs && id in d.records && id in d.logs && id in d.disk.events
    && id in r.disk.snapshots && id in d.disk.snapshots && d.disk.snapshots[id] == r.disk.snapshots[id]
    && GoesOn(r.logs[id], d.records[id], d.disk.events[id])
    && (d.disk.events[id] != r.logs[id] <==> touched)
  }

  lemma RecoveredStep(r: Durable, d: Durable, op: Op, id: string, touched: bool)
    requires RecoveredGoesOn(r, d, id, touched) && (op.Create? ==> op.id != id)
    ensures RecoveredGoesOn(r, DurableStep(d, op), id, touched || WritesMove(d, op, id))
  {
    if op.id != id {
      StepElsewhere(d, op, id);
    } else if Moving(d, id, op.event) {
      MoveGoesOn(r.logs[id], d.records[id], d.disk.events[id], id, op.event);
      hide GoesOn, Transition, IsTerminal, EntryFor;
      assert |r.logs[id]| <= |d.disk.events[id]| by { assert GoesOn(r.logs[id], d.records[id], d.disk.events[id]); }
    }
  }

  lemma {:induction false} RecoveredRun(r: Durable, ops: seq<Op>, id: string)
    requires RecoveredGoesOn(r, r, id, false)
    requires forall i :: 0 <= i < |ops| && ops[i].Create? ==> ops[i].id != id
    ensures RecoveredGoesOn(r, RunFrom(r, ops), id, Touched(r, ops, id))
  {
    if ops == [] {
      assert !Touched(r, ops, id);
    } else {
      var most, op := ops[..|ops| - 1], ops[|ops| - 1];
      RecoveredRun(r, most, id);
      RunFromSplits(r, ops);
      TouchedSplits(r, ops, id);
      hide RunFrom, Touched, RecoveredGoesOn;
      RecoveredStep(r, RunFrom(r, most), op, id, Touched(r, most, id));
    }
  }

  // ---- jobs that were left behind, and new ones ----------------------------------------------------------------

  /** A job that recovery skipped is out of reach: its files stay as they are. */
  lemma {:induction false} SkippedRun(r: Durable, ops: seq<Op>, id: string)
    requires id !in r.records
    requires forall i :: 0 <= i < |ops| && ops[i].Create? ==> ops[i].id != id
    ensures var d := RunFrom(r, ops);
      && id !in d.records
      && (id in d.disk.snapshots <==> id in r.disk.snapshots) && (id in d.disk.events <==> id in r.disk.events)
      && (id in d.disk.snapshots ==> d.disk.snapshots[id] == r.disk.snapshots[id])
  {
    if ops != [] {
      var most, op := ops[..|ops| - 1], ops[|ops| - 1];
      SkippedRun(r, most, id);
      RunFromSplits(r, ops);
      hide RunFrom;
      if op.id != id { StepElsewhere(RunFrom(r, most), op, id); }
    }
  }

  /** What the store keeps of a job it created itself: its history, and on the disk an ordered part of it. */
  ghost predicate OwnJob(d: Durable, id: string) {
    if id !in d.records then id !in d.logs && Unnamed(d.disk, id)
    else
      && id in d.logs && LogOf(d.records[id], d.logs[id])
      && (id in d.disk.events ==> Partial(d.disk.events[id], d.logs[id]))
      && (id in d.disk.snapshots ==> d.disk.snapshots[id] != [] && d.disk.snapshots[id][0].sequence == 1)
  }

  lemma OwnStep(d: Durable, op: Op, id: string)
    requires OwnJob(d, id) && (op.Create? && op.id == id ==> id !in d.records)
    ensures OwnJob(DurableStep(d, op), id)
  {
    if op.id != id {
      hide LogOf, Partial;
      StepElsewhere(d, op, id);
    } else if op.Create? {
      EmptyLogOf(op.name);
    } else if Moving(d, id, op.event) {
      LogGrows(d.records[id], id, d.logs[id], op.event);
      var n := EntryFor(d.records[id], id, op.event);
      assert n.sequence == |d.logs[id]| + 1;
      LinesGrow(Lines(d.disk.events, id), d.logs[id], n);
      if id in d.disk.events { LinesStay(d.disk.events[id], d.logs[id], n); }
      hide LogOf, Partial, Transition, IsTerminal;
    }
  }

  ghost predicate Creates(ops: seq<Op>, id: string) { exists i :: 0 <= i < |ops| && ops[i].Create? && ops[i].id == id }

  lemma {:induction false} OwnRun(r: Durable, ops: seq<Op>, id: string)
    requires FreshIds(ops) && id !in r.records && OwnJob(r, id)
    ensures OwnJob(RunFrom(r, ops), id) && (id in RunFrom(r, ops).records ==> Creates(ops, id))
  {
    if ops != [] {
      var most, op := ops[..|ops| - 1], ops[|ops| - 1];
      assert FreshIds(most);
      OwnRun(r, most, id);
      RunFromSplits(r, ops);
      var d := RunFrom(r, most);
      if op.Create? && op.id == id { CreatedOnce(ops, id); }
      hide RunFrom, OwnJob;
      OwnStep(d, op, id);
      hide Transition, IsTerminal, EntryFor;
      assert id in DurableStep(d, op).records ==> id in d.records || (op.Create? && op.id == id);
    }
  }

  lemma CreatedOnce(ops: seq<Op>, id: string)
    requires FreshIds(ops) && ops != [] && ops[|ops| - 1].Create? && ops[|ops| - 1].id == id
    ensures !Creates(ops[..|ops| - 1], id)
  {}

  lemma OwnLogStep(d: Durable, op: Op, id: string)
    requires op.written && OwnJob(d, id) && (op.Create? && op.id == id ==> id !in d.records)
    requires Lines(d.disk.events, id) == Lines(d.logs, id)
    ensures var t := DurableStep(d, op); Lines(t.disk.events, id) == Lines(t.logs, id)
  {
    hide LogOf, Partial, Transition, IsTerminal, EntryFor;
    if op.id != id { StepElsewhere(d, op, id); }
  }

  /** With every append done, the lines on the disk are the log. */
  lemma {:induction false} OwnLogWritten(r: Durable, ops: seq<Op>, id: string)
    requires AllWritten(ops) && FreshIds(ops) && id !in r.records && OwnJob(r, id)
    ensures var d := RunFrom(r, ops); Lines(d.disk.events, id) == Lines(d.logs, id)
  {
    if ops != [] {
      var most, op := ops[..|ops| - 1], ops[|ops| - 1];
      assert FreshIds(most) && AllWritten(most);
      OwnLogWritten(r, most, id);
      OwnRun(r, most, id);
      RunFromSplits(r, ops);
      hide RunFrom, OwnJob, Creates, Lines;
      if op.Create? && op.id == id { CreatedOnce(ops, id); }
      OwnLogStep(RunFrom(r, most), op, id);
    }
  }

  // ---- one session ---------------------------------------------------------------------------------------------

  lemma StartsAgain(disk: Disk, id: string)
    requires Sound(disk)
    ensures var r := RecoveredStore(disk);
      && (id in r.records <==> Readable(disk, id)) && r.disk == disk
      && (id in r.records ==> RecoveredGoesOn(r, r, id, false))
      && (Unnamed(disk, id) ==> OwnJob(r, id))
  {
    hide Numbered, Path;
    if Readable(disk, id) { assert Restorable(disk, id); }
  }

  /** Every log of a job the session created is on the disk without a hole. */
  ghost predicate NoHoles(r: Durable, d: Durable) {
    forall id :: id !in r.records && Readable(d.disk, id) ==> d.disk.events[id] <= Lines(d.logs, id)
  }

  lemma OwnAcceptedExactly(d: Durable, id: string)
    requires OwnJob(d, id) && Readable(d.disk, id)
    ensures Restorable(d.disk, id) <==> d.disk.events[id] <= Lines(d.logs, id)
  {
    PartialNumbered(d.disk.events[id], d.logs[id]);
    if d.disk.events[id] <= d.logs[id] { PrefixIsPath(d.disk.events[id], d.logs[id]); }
  }

  /** One job after a session: whether the next recovery restores it. */
  lemma JobAfterSession(disk: Disk, ops: seq<Op>, id: string)
    requires Sound(disk) && FreshOn(disk, ops)
    ensures var r := RecoveredStore(disk);
      var d := RunFrom(r, ops);
      && (id in d.disk.snapshots ==> d.disk.snapshots[id] != [] && d.disk.snapshots[id][0].sequence == 1)
      && (id in r.records ==> Readable(d.disk, id) && (Restorable(d.disk, id) <==> !Touched(r, ops, id)))
      && (id !in r.records && Readable(d.disk, id) ==>
            && (Restorable(d.disk, id) <==> d.disk.events[id] <= Lines(d.logs, id))
            && (AllWritten(ops) ==> Restorable(d.disk, id)))
  {
    var r := RecoveredStore(disk);
    var d := RunFrom(r, ops);
    StartsAgain(disk, id);
    assert !Unnamed(disk, id) ==> forall i :: 0 <= i < |ops| && ops[i].Create? ==> ops[i].id != id;
    if id in r.records {
      RecoveredRun(r, ops, id);
      assert Restorable(disk, id);
      hide RunFrom, Touched;
      if Touched(r, ops, id) { BrokenLog(r.logs[id], d.records[id], d.disk.events[id]); }
      assert r.logs[id] == disk.events[id];
    } else if Unnamed(disk, id) {
      OwnRun(r, ops, id);
      if AllWritten(ops) { OwnLogWritten(r, ops, id); }
      if Readable(d.disk, id) { OwnAcceptedExactly(d, id); }
    } else {
      SkippedRun(r, ops, id);
    }
  }

  /** The next recovery gets through exactly when no recovered job had a move written and no new job has a lost event
      followed by a written one. */
  lemma SessionExactly(disk: Disk, ops: seq<Op>)
    requires Sound(disk) && FreshOn(disk, ops)
    ensures var r := RecoveredStore(disk);
      var d := RunFrom(r, ops);
      && (Recovers(d.disk) <==> LeftAlone(r, ops) && NoHoles(r, d))
      && (Recovers(d.disk) <==> Sound(d.disk))
      && (AllWritten(ops) ==> NoHoles(r, d))
  {
    var r := RecoveredStore(disk);
    var d := RunFrom(r, ops);
    forall id
      ensures id in d.disk.snapshots ==> d.disk.snapshots[id] != [] && d.disk.snapshots[id][0].sequence == 1
      ensures id in r.records ==> Readable(d.disk, id) && (Restorable(d.disk, id) <==> !Touched(r, ops, id))
      ensures id !in r.records && Readable(d.disk, id) ==>
            && (Restorable(d.disk, id) <==> d.disk.events[id] <= Lines(d.logs, id))
            && (AllWritten(ops) ==> Restorable(d.disk, id))
    {
      JobAfterSession(disk, ops, id);
    }
    hide RunFrom, Touched, Restorable, RecoveredStore, AllWritten, FreshOn;
  }

  lemma RunLeavesSoundDisk(ops: seq<Op>)
    requires FreshIds(ops) && Recovers(DurableRun(ops).disk)
    ensures Sound(DurableRun(ops).disk)
  {
    RunIsConsistent(ops);
    hide DurableRun, Histories, Fragments, Recovers;
  }

  /** After a run and a recovery, with every write done, a second recovery gets through exactly when the calls between
      the two moved no recovered job: the next event of such a job is numbered one again. */
  lemma SecondRecoveryExactly(ops: seq<Op>, more: seq<Op>)
    requires FreshIds(ops) && AllWritten(ops) && FreshOn(DurableRun(ops).disk, more) && AllWritten(more)
    ensures Recovers(DurableRun(ops).disk)
    ensures var r := RecoveredStore(DurableRun(ops).disk); Recovers(RunFrom(r, more).disk) <==> LeftAlone(r, more)
  {
    RecoveryRestores(ops);
    RunLeavesSoundDisk(ops);
    SessionExactly(DurableRun(ops).disk, more);
  }

  // ---- any number of sessions ------------------------------------------------------------------------------------

  const NEW_DISK := Disk(map[], map[])

  /** The disk after sessions that each start by recovering; a process that cannot start leaves the disk alone. */
  ghost function DiskAfter(sessions: seq<seq<Op>>): Disk {
    if sessions == [] then NEW_DISK
    else
      var disk := DiskAfter(sessions[..|sessions| - 1]);
      if Recovers(disk) then RunFrom(RecoveredStore(disk), sessions[|sessions| - 1]).disk else disk
  }

  /** If the process starts at all, it writes no move of a job it recovered. */
  ghost predicate Considerate(disk: Disk, ops: seq<Op>) {
    Recovers(disk) ==> LeftAlone(RecoveredStore(disk), ops)
  }

  ghost predicate AllConsiderate(sessions: seq<seq<Op>>) {
    forall k :: 0 <= k < |sessions| ==> Considerate(DiskAfter(sessions[..k]), sessions[k])
  }

  ghost predicate FreshAndWritten(sessions: seq<seq<Op>>) {
    forall k :: 0 <= k < |sessions| ==>
      AllWritten(sessions[k]) && FreshOn(DiskAfter(sessions[..k]), sessions[k])
  }

  lemma SessionsSplit(sessions: seq<seq<Op>>)
    requires sessions != []
    ensures var n := |sessions| - 1;
      && (AllConsiderate(sessions) <==>
            AllConsiderate(sessions[..n]) && Considerate(DiskAfter(sessions[..n]), sessions[n]))
      && (FreshAndWritten(sessions) ==> FreshAndWritten(sessions[..n]))
  {
    hide DiskAfter, Considerate, AllWritten, FreshOn;
    var most := sessions[..|sessions| - 1];
    assert forall k :: 0 <= k < |most| ==> most[..k] == sessions[..k] && most[k] == sessions[k];
  }

  /** The store starts again after any number of sessions, all of whose writes succeeded, exactly when no session
      moved a job it had recovered. */
  lemma {:induction false} RestartsExactly(sessions: seq<seq<Op>>)
    requires FreshAndWritten(sessions)
    ensures Recovers(DiskAfter(sessions)) <==> AllConsiderate(sessions)
    ensures Recovers(DiskAfter(sessions)) ==> Sound(DiskAfter(sessions))
  {
    if sessions != [] {
      var n := |sessions| - 1;
      var disk := DiskAfter(sessions[..n]);
      SessionsSplit(sessions);
      RestartsExactly(sessions[..n]);
      hide AllConsiderate, LeftAlone, Recovers, Sound, RunFrom, RecoveredStore, NoHoles;
      if Recovers(disk) { SessionExactly(disk, sessions[n]); }
    }
  }
}
