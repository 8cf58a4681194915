/** The two job stores over whole runs: the plain in-memory store, and the durable one that also logs every
    transition and can rebuild itself from what reached the file system. */
module JobStoreModel {
  import opened Options
  import opened EventLog

  // ---- the plain store ---------------------------------------------------------------------------------

  datatype Plain = Plain(name: string, state: JobState)

  datatype Answer = State(state: JobState) | Invalid(source: JobState, event: JobEvent)

  function TerminalFor(e: JobEvent): Option<JobState> {
    match e
    case Complete => Some(Done)
    case Fail => Some(Error)
    case Cancel => Some(Cancelled)
    case TimeOut => Some(Timeout)
    case _ => None
  }

  /** What an event does to a state: nothing when it repeats the terminal event, otherwise a transition. */
  function Outcome(s: JobState, e: JobEvent): Answer {
    if IsTerminal(s) && TerminalFor(e) == Some(s) then State(s)
    else if Transition(s, e).Some? then State(Transition(s, e).value)
    else Invalid(s, e)
  }

  /** An event that ended a job may be repeated without effect; any other event is then refused. */
  lemma EndingIsIdempotent(s: JobState, e: JobEvent, other: JobEvent)
    requires Outcome(s, e).State? && IsTerminal(Outcome(s, e).state) && !IsTerminal(s)
    ensures Outcome(Outcome(s, e).state, e) == Outcome(s, e)
    ensures other != e ==> Outcome(Outcome(s, e).state, other) == Invalid(Outcome(s, e).state, other)
  {}

  function PlainApply(m: map<string, Plain>, id: string, e: JobEvent): map<string, Plain> {
    if id in m && Outcome(m[id].state, e).State? then m[id := m[id].(state := Outcome(m[id].state, e).state)] else m
  }

  function PlainAnswer(m: map<string, Plain>, id: string, e: JobEvent): Answer {
    if id in m then Outcome(m[id].state, e) else Invalid(Pending, e)
  }

  // ---- the durable store ---------------------------------------------------------------------------------

  datatype Record = Record(name: string, state: JobState, sequence: nat)

  /** The file system: per job, the lines of the snapshot log and of the event log. */
  datatype Disk = Disk(snapshots: map<string, seq<Record>>, events: map<string, seq<Entry>>)

  datatype Durable = Durable(records: map<string, Record>, logs: map<string, seq<Entry>>, disk: Disk)

  const NEW_STORE := Durable(map[], map[], Disk(map[], map[]))

  function Lines<T>(m: map<string, seq<T>>, id: string): seq<T> { if id in m then m[id] else [] }

  function Append<T>(m: map<string, seq<T>>, id: string, line: T): map<string, seq<T>> {
    m[id := Lines(m, id) + [line]]
  }

  /** `written` tells whether the append to the file system succeeded; the store goes on either way. */
  function DurableCreate(d: Durable, id: string, name: string, written: bool): Durable {
    var r := Record(name, Pending, 1);
    Durable(d.records[id := r], d.logs[id := []],
      d.disk.(snapshots := if written then Append(d.disk.snapshots, id, r) else d.disk.snapshots))
  }

  /** Whether the event makes a new transition. */
  predicate Moving(d: Durable, id: string, e: JobEvent) {
    id in d.records && !IsTerminal(d.records[id].state) && Transition(d.records[id].state, e).Some?
  }

  function EntryFor(r: Record, id: string, e: JobEvent): Entry
    requires Transition(r.state, e).Some?
  {
    Entry(id, r.sequence, e, r.state, Transition(r.state, e).value)
  }

  function DurableApply(d: Durable, id: string, e: JobEvent, written: bool): Durable {
    if !Moving(d, id, e) then d
    else
      var r := d.records[id];
      var entry := EntryFor(r, id, e);
      Durable(d.records[id := r.(state := entry.target, sequence := r.sequence + 1)],
        if id in d.logs then d.logs[id := d.logs[id] + [entry]] else d.logs,
        d.disk.(events := if written then Append(d.disk.events, id, entry) else d.disk.events))
  }

  function DurableAnswer(d: Durable, id: string, e: JobEvent): Answer {
    if id in d.records then Outcome(d.records[id].state, e) else Invalid(Pending, e)
  }

  // ---- runs ----------------------------------------------------------------------------------------------

  datatype Op = Create(id: string, name: string, written: bool) | Apply(id: string, event: JobEvent, written: bool)

  function DurableStep(d: Durable, op: Op): Durable {
    match op
    case Create(id, name, w) => DurableCreate(d, id, name, w)
    case Apply(id, e, w) => DurableApply(d, id, e, w)
  }

  function PlainStep(m: map<string, Plain>, op: Op): map<string, Plain> {
    match op
    case Create(id, name, _) => m[id := Plain(name, Pending)]
    case Apply(id, e, _) => PlainApply(m, id, e)
  }

  function RunFrom(d: Durable, ops: seq<Op>): Durable {
    if ops == [] then d else DurableStep(RunFrom(d, ops[..|ops| - 1]), ops[|ops| - 1])
  }

  function DurableRun(ops: seq<Op>): Durable { RunFrom(NEW_STORE, ops) }

  function PlainRun(ops: seq<Op>): map<string, Plain> {
    if ops == [] then map[] else PlainStep(PlainRun(ops[..|ops| - 1]), ops[|ops| - 1])
  }

  /** Job ids are fresh UUIDs. */
  ghost predicate FreshIds(ops: seq<Op>) {
    forall i, k :: 0 <= i < k < |ops| && ops[i].Create? && ops[k].Create? ==> ops[i].id != ops[k].id
  }

  // ---- the invariant ---------------------------------------------------------------------------------------

  /** The log is the record's history: numbered, a path from Pending, ending in the record's state, and one shorter
      than the next number. */
  ghost predicate LogOf(r: Record, log: seq<Entry>) {
    && r.sequence == |log| + 1 && Numbered(log) && Path(log)
    && (if log == [] then r.state == Pending else log[0].source == Pending && r.state == log[|log| - 1].target)
  }

  /** Some of the log, in order: line `k` is the entry it is numbered as. */
  ghost predicate Partial(lines: seq<Entry>, log: seq<Entry>) {
    && lines != []
    && (forall k :: 0 <= k < |lines| ==> 1 <= lines[k].sequence <= |log| && lines[k] == log[lines[k].sequence - 1])
    && (forall i, k :: 0 <= i < k < |lines| ==> lines[i].sequence < lines[k].sequence)
  }

  ghost predicate Histories(records: map<string, Record>, logs: map<string, seq<Entry>>) {
    records.Keys == logs.Keys && forall id :: id in records ==> LogOf(records[id], logs[id])
  }

  ghost predicate Fragments(events: map<string, seq<Entry>>, logs: map<string, seq<Entry>>) {
    events.Keys <= logs.Keys && forall id :: id in events ==> Partial(events[id], logs[id])
  }

  ghost predicate Snapshots(snapshots: map<string, seq<Record>>, records: map<string, Record>) {
    snapshots.Keys <= records.Keys
    && forall id :: id in snapshots ==> snapshots[id] == [Record(records[id].name, Pending, 1)]
  }

  ghost predicate Consistent(d: Durable) {
    Histories(d.records, d.logs) && Fragments(d.disk.events, d.logs) && Snapshots(d.disk.snapshots, d.records)
  }

  lemma LogGrows(r: Record, id: string, log: seq<Entry>, e: JobEvent)
    requires LogOf(r, log) && Transition(r.state, e).Some?
    ensures var n := EntryFor(r, id, e);
      LogOf(r.(state := n.target, sequence := r.sequence + 1), log + [n])
  {
    hide Transition;
    PathExtends(log, EntryFor(r, id, e));
  }

  lemma LinesGrow(lines: seq<Entry>, log: seq<Entry>, n: Entry)
    requires (lines == [] || Partial(lines, log)) && n.sequence == |log| + 1
    ensures Partial(lines + [n], log + [n])
  {}

  lemma LinesStay(lines: seq<Entry>, log: seq<Entry>, n: Entry)
    requires Partial(lines, log)
    ensures Partial(lines, log + [n])
  {}

  lemma FragmentsGrow(events: map<string, seq<Entry>>, logs: map<string, seq<Entry>>, id: string, n: Entry)
    requires Fragments(events, logs) && id in logs && n.sequence == |logs[id]| + 1
    ensures Fragments(events, logs[id := logs[id] + [n]])
    ensures Fragments(Append(events, id, n), logs[id := logs[id] + [n]])
  {
    LinesGrow(Lines(events, id), logs[id], n);
    if id in events { LinesStay(events[id], logs[id], n); }
    hide Partial;
  }

  lemma HistoriesGrow(records: map<string, Record>, logs: map<string, seq<Entry>>, id: string, e: JobEvent)
    requires Histories(records, logs) && id in records && Transition(records[id].state, e).Some?
    ensures id in logs && records[id].sequence == |logs[id]| + 1
    ensures var r, n := records[id], EntryFor(records[id], id, e);
      Histories(records[id := r.(state := n.target, sequence := r.sequence + 1)], logs[id := logs[id] + [n]])
  {
    LogGrows(records[id], id, logs[id], e);
    assert records[id].sequence == |logs[id]| + 1;
    hide LogOf, Transition;
  }

  lemma SnapshotsStay(snapshots: map<string, seq<Record>>, records: map<string, Record>, id: string, r: Record)
    requires Snapshots(snapshots, records) && id in records && r.name == records[id].name
    ensures Snapshots(snapshots, records[id := r])
  {}

  lemma ApplyKeeps(d: Durable, id: string, e: JobEvent, written: bool)
    requires Consistent(d)
    ensures Consistent(DurableApply(d, id, e, written))
  {
    if Moving(d, id, e) {
      var r, n := d.records[id], EntryFor(d.records[id], id, e);
      hide Histories, Fragments, Snapshots, Transition, IsTerminal, Append;
      HistoriesGrow(d.records, d.logs, id, e);
      FragmentsGrow(d.disk.events, d.logs, id, n);
      SnapshotsStay(d.disk.snapshots, d.records, id, r.(state := n.target, sequence := r.sequence + 1));
    }
  }

  lemma CreateKeeps(d: Durable, id: string, name: string, written: bool)
    requires Consistent(d) && id !in d.records
    ensures Consistent(DurableCreate(d, id, name, written))
  {
    EmptyLogOf(name);
    hide Partial, LogOf;
  }

  lemma EmptyLogOf(name: string)
    ensures LogOf(Record(name, Pending, 1), [])
  {}

  lemma {:induction false} RunKnows(ops: seq<Op>)
    ensures forall id :: id in DurableRun(ops).records <==>
      exists i :: 0 <= i < |ops| && ops[i].Create? && ops[i].id == id
  {
    if ops != [] {
      var most, op := ops[..|ops| - 1], ops[|ops| - 1];
      RunKnows(most);
      hide DurableRun, Transition, IsTerminal, EntryFor;
      var d := DurableRun(most);
      assert DurableRun(ops) == DurableStep(d, op) by { RunSplits(ops); }
      assert DurableStep(d, op).records.Keys == d.records.Keys + (if op.Create? then {op.id} else {});
      forall id
        ensures id in DurableStep(d, op).records <==>
          exists i :: 0 <= i < |ops| && ops[i].Create? && ops[i].id == id
      {
        if i :| 0 <= i < |most| && most[i].Create? && most[i].id == id { assert ops[i] == most[i]; }
        if i :| 0 <= i < |ops| && ops[i].Create? && ops[i].id == id { assert i < |most| ==> most[i] == ops[i]; }
        if op.Create? && op.id == id { assert ops[|ops| - 1] == op; }
      }
    }
  }

  lemma RunSplits(ops: seq<Op>)
    requires ops != []
    ensures DurableRun(ops) == DurableStep(DurableRun(ops[..|ops| - 1]), ops[|ops| - 1])
  {}

  /** Every run keeps every log the exact history of its record, whatever reached the disk. */
  lemma {:induction false} RunIsConsistent(ops: seq<Op>)
    requires FreshIds(ops)
    ensures Consistent(DurableRun(ops))
  {
    if ops != [] {
      var most, op := ops[..|ops| - 1], ops[|ops| - 1];
      assert FreshIds(most);
      RunIsConsistent(most);
      RunSplits(ops);
      hide Consistent, DurableRun;
      match op
      case Create(id, name, w) =>
        RunKnows(most);
        CreateKeeps(DurableRun(most), id, name, w);
      case Apply(id, e, w) => ApplyKeeps(DurableRun(most), id, e, w);
    }
  }

  // ---- agreement with the plain store ------------------------------------------------------------------------

  ghost predicate Agree(d: Durable, m: map<string, Plain>) {
    && d.records.Keys == m.Keys
    && forall id :: id in m ==> d.records[id].state == m[id].state && d.records[id].name == m[id].name
  }

  lemma StepsAgree(d: Durable, m: map<string, Plain>, op: Op)
    requires Agree(d, m)
    ensures Agree(DurableStep(d, op), PlainStep(m, op))
  {
    if op.Apply? && op.id in m {
      TransitionAdvances(m[op.id].state, op.event);
      hide Transition, IsTerminal, TerminalFor;
    }
  }

  /** The durable store is the plain store as far as a caller can see: the same jobs, states and answers, at every
      point of every run, whether or not anything reached the disk. */
  lemma {:induction false} StoresAgree(ops: seq<Op>, id: string, e: JobEvent)
    ensures Agree(DurableRun(ops), PlainRun(ops))
    ensures DurableAnswer(DurableRun(ops), id, e) == PlainAnswer(PlainRun(ops), id, e)
  {
    if ops != [] {
      hide DurableStep, PlainStep;
      StoresAgree(ops[..|ops| - 1], id, e);
      StepsAgree(DurableRun(ops[..|ops| - 1]), PlainRun(ops[..|ops| - 1]), ops[|ops| - 1]);
    }
  }

  // ---- recovery ----------------------------------------------------------------------------------------------

  /** Jobs recovery looks at: those with both files. */
  predicate Readable(disk: Disk, id: string) { id in disk.snapshots && id in disk.events }

  ghost predicate Accepted(es: seq<Entry>) { es != [] && Numbered(es) && Path(es) }

  /** A snapshot line and an acceptable log. */
  ghost predicate Restorable(disk: Disk, id: string) {
    Readable(disk, id) && disk.snapshots[id] != [] && Accepted(disk.events[id])
  }

  /** Recovery gets through when it can restore every job it looks at. */
  ghost predicate Recovers(disk: Disk) { forall id :: Readable(disk, id) ==> Restorable(disk, id) }

  ghost function RecoveredRecord(disk: Disk, id: string): Record
    requires Restorable(disk, id)
  {
    disk.snapshots[id][0].(state := disk.events[id][|disk.events[id]| - 1].target)
  }

  lemma PartialNumbered(lines: seq<Entry>, log: seq<Entry>)
    requires Partial(lines, log) && Numbered(log)
    ensures Numbered(lines) <==> lines <= log
  {
    if Numbered(lines) {
      assert |lines| <= |log| by { assert lines[|lines| - 1].sequence == |lines|; }
      assert forall k :: 0 <= k < |lines| ==> lines[k] == log[k];
    } else if lines <= log {
      forall k | 0 <= k < |lines| ensures lines[k].sequence == k + 1 { assert lines[k] == log[k]; }
    }
  }

  /** Recovery gets through exactly when, for every job with both files, no lost event is followed by a written one. */
  lemma RecoveryExactly(ops: seq<Op>)
    requires FreshIds(ops)
    ensures var d := DurableRun(ops);
      Recovers(d.disk) <==> forall id :: Readable(d.disk, id) ==> d.disk.events[id] <= Lines(d.logs, id)
  {
    RunIsConsistent(ops);
    var d := DurableRun(ops);
    hide DurableRun, FreshIds;
    forall id | Readable(d.disk, id)
      ensures id in d.logs && d.disk.snapshots[id] != []
      ensures Accepted(d.disk.events[id]) <==> d.disk.events[id] <= d.logs[id]
    {
      PartialNumbered(d.disk.events[id], d.logs[id]);
      if d.disk.events[id] <= d.logs[id] { PrefixIsPath(d.disk.events[id], d.logs[id]); }
    }
  }

  ghost predicate AllWritten(ops: seq<Op>) { forall i :: 0 <= i < |ops| ==> ops[i].written }

  ghost predicate SameLines(events: map<string, seq<Entry>>, logs: map<string, seq<Entry>>) {
    && (forall id :: id in events <==> Lines(logs, id) != [])
    && (forall id :: id in events ==> events[id] == Lines(logs, id))
  }

  /** Nothing was lost: the disk has a snapshot of every job and the whole log of every job that has one. */
  ghost predicate Mirrored(d: Durable) {
    d.disk.snapshots.Keys == d.records.Keys == d.logs.Keys && SameLines(d.disk.events, d.logs)
  }

  lemma CreateMirrors(d: Durable, id: string, name: string)
    requires Mirrored(d) && id !in d.records
    ensures Mirrored(DurableCreate(d, id, name, true))
  {
    assert forall k :: Lines(d.logs[id := []], k) == Lines(d.logs, k);
  }

  lemma AppendMirrors(events: map<string, seq<Entry>>, logs: map<string, seq<Entry>>, id: string, n: Entry)
    requires SameLines(events, logs)
    ensures SameLines(Append(events, id, n), logs[id := Lines(logs, id) + [n]])
  {
    var more := logs[id := Lines(logs, id) + [n]];
    assert forall k :: k != id ==> Lines(more, k) == Lines(logs, k);
    assert Lines(events, id) == Lines(logs, id);
  }

  lemma ApplyMirrors(d: Durable, id: string, e: JobEvent)
    requires Mirrored(d)
    ensures Mirrored(DurableApply(d, id, e, true))
  {
    hide SameLines, Append, Transition, IsTerminal, EntryFor;
    if Moving(d, id, e) { AppendMirrors(d.disk.events, d.logs, id, EntryFor(d.records[id], id, e)); }
  }

  lemma {:induction false} WrittenRunIsMirrored(ops: seq<Op>)
    requires FreshIds(ops) && AllWritten(ops)
    ensures Mirrored(DurableRun(ops))
  {
    if ops != [] {
      var most, op := ops[..|ops| - 1], ops[|ops| - 1];
      assert FreshIds(most) && AllWritten(most);
      WrittenRunIsMirrored(most);
      RunSplits(ops);
      hide DurableRun, Mirrored;
      match op
      case Create(id, name, _) =>
        RunKnows(most);
        CreateMirrors(DurableRun(most), id, name);
      case Apply(id, e, _) => ApplyMirrors(DurableRun(most), id, e);
    }
  }

  /** The job comes back with its whole log, in the state it had, to be numbered from one again. */
  ghost predicate Restored(d: Durable, id: string) {
    && Restorable(d.disk, id) && id in d.records && d.disk.events[id] == Lines(d.logs, id)
    && RecoveredRecord(d.disk, id) == d.records[id].(sequence := 1)
  }

  lemma RestoredWhole(d: Durable, id: string)
    requires Consistent(d) && Mirrored(d) && Restorable(d.disk, id)
    ensures Restored(d, id)
  {
    hide Numbered, Path, Partial;
    assert d.disk.events[id] == Lines(d.logs, id);
    assert LogOf(d.records[id], d.logs[id]);
  }

  /** If every append succeeded, one recovery restores exactly the jobs that have events, each in the state and with
      the log it had; the number of the next event, though, is read from the creation snapshot. */
  lemma RecoveryRestores(ops: seq<Op>)
    requires FreshIds(ops) && AllWritten(ops)
    ensures var d := DurableRun(ops);
      && Recovers(d.disk)
      && (forall id :: Readable(d.disk, id) <==> Lines(d.logs, id) != [])
      && (forall id :: Readable(d.disk, id) ==> Restored(d, id))
  {
    var d := DurableRun(ops);
    RecoveryExactly(ops);
    WrittenRunIsMirrored(ops);
    RunIsConsistent(ops);
    hide DurableRun, FreshIds, AllWritten, Restorable, LogOf, Partial;
    forall id | Readable(d.disk, id) ensures Restored(d, id) {
      assert Restorable(d.disk, id);
      RestoredWhole(d, id);
    }
    forall id | Lines(d.logs, id) != [] ensures Readable(d.disk, id) { assert id in d.disk.events; }
  }

  ghost function RecoveredStore(disk: Disk): Durable
    requires Recovers(disk)
  {
    var ids := set id | id in disk.snapshots && Readable(disk, id);
    Durable(map id | id in ids :: RecoveredRecord(disk, id), map id | id in ids :: disk.events[id], disk)
  }

  /** The recovery loop after the jobs in `done`. */
  ghost predicate RestoredFrom(records: map<string, Record>, logs: map<string, seq<Entry>>, disk: Disk,
                               done: seq<string>)
  {
    && records.Keys == logs.Keys
    && (forall id :: id in records <==> id in done && Readable(disk, id))
    && (forall id :: id in records ==>
          Restorable(disk, id) && records[id] == RecoveredRecord(disk, id) && logs[id] == disk.events[id])
  }

  lemma NoneRestored(disk: Disk)
    ensures RestoredFrom(map[], map[], disk, [])
  {}

  lemma NotYetRestored(records: map<string, Record>, logs: map<string, seq<Entry>>, disk: Disk, done: seq<string>,
                       id: string)
    requires RestoredFrom(records, logs, disk, done) && id !in done
    ensures id !in records
  {}

  lemma OneMoreRestored(records: map<string, Record>, logs: map<string, seq<Entry>>, disk: Disk, done: seq<string>,
                        id: string)
    requires RestoredFrom(records, logs, disk, done)
    ensures !Readable(disk, id) ==> RestoredFrom(records, logs, disk, done + [id])
    ensures Restorable(disk, id) ==>
      RestoredFrom(records[id := RecoveredRecord(disk, id)], logs[id := disk.events[id]], disk, done + [id])
  {
    hide Accepted;
  }

  lemma AllRestored(records: map<string, Record>, logs: map<string, seq<Entry>>, disk: Disk, ids: seq<string>)
    requires RestoredFrom(records, logs, disk, ids)
    requires forall id :: id in ids <==> id in disk.snapshots || id in disk.events
    ensures Recovers(disk) && RecoveredStore(disk) == Durable(records, logs, disk)
  {
    hide Accepted;
    forall id | Readable(disk, id) ensures Restorable(disk, id) { assert id in records; }
    var found := RecoveredStore(disk);
    assert found.records == records;
    assert found.logs == logs;
  }
}
