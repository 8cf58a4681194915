/** The plain and the durable job store as the objects they are. */
module JobStores {
  import opened Options
  import opened EventLog
  import opened JobStoreModel

  class JobStore {
    var records: map<string, Plain>

    constructor ()
      ensures records == map[]
    {
      records := map[];
    }

    method CreateJob(id: string, name: string)
      modifies this
      ensures records == PlainStep(old(records), Create(id, name, true))
    {
      records := records[id := Plain(name, Pending)];
    }

    method ApplyEvent(id: string, event: JobEvent) returns (r: Answer)
      modifies this
      ensures r == PlainAnswer(old(records), id, event)
      ensures records == PlainApply(old(records), id, event)
    {
      hide Transition;
      if id !in records { return Invalid(Pending, event); }
      var rec := records[id];
      TransitionAdvances(rec.state, event);
      if IsTerminal(rec.state) {
        if TerminalFor(event) == Some(rec.state) {
          assert records == records[id := rec];
          return State(rec.state);
        }
        return Invalid(rec.state, event);
      }
      var next := Transition(rec.state, event);
      if next.None? { return Invalid(rec.state, event); }
      records := records[id := rec.(state := next.value)];
      r := State(next.value);
    }
  }

  datatype Recovery = Recovered(count: nat) | Aborted(id: string)

  class DurableJobStore {
    var records: map<string, Record>
    var eventLogs: map<string, seq<Entry>>
    var disk: Disk

    ghost function Contents(): Durable
      reads this
    {
      Durable(records, eventLogs, disk)
    }

    constructor (disk: Disk)
      ensures Contents() == Durable(map[], map[], disk)
    {
      records, eventLogs := map[], map[];
      this.disk := disk;
    }

    /** `id` is the fresh UUID; `written` tells whether the snapshot reached the disk. */
    method CreateJob(id: string, name: string, written: bool)
      modifies this
      ensures Contents() == DurableCreate(old(Contents()), id, name, written)
    {
      var record := Record(name, Pending, 1);
      eventLogs := eventLogs[id := []];
      records := records[id := record];
      if written { disk := disk.(snapshots := Append(disk.snapshots, id, record)); }
    }

    method ApplyEvent(id: string, event: JobEvent, written: bool) returns (r: Answer)
      modifies this
      ensures r == DurableAnswer(old(Contents()), id, event)
      ensures Contents() == DurableApply(old(Contents()), id, event, written)
    {
      hide Transition, Append;
      if id !in records { return Invalid(Pending, event); }
      var rec := records[id];
      TransitionAdvances(rec.state, event);
      if IsTerminal(rec.state) {
        if TerminalFor(event) == Some(rec.state) { return State(rec.state); }
        return Invalid(rec.state, event);
      }
      var next := Transition(rec.state, event);
      if next.None? { return Invalid(rec.state, event); }
      var entry := Entry(id, rec.sequence, event, rec.state, next.value);
      if written { disk := disk.(events := Append(disk.events, id, entry)); }
      if id in eventLogs { eventLogs := eventLogs[id := eventLogs[id] + [entry]]; }
      records := records[id := rec.(state := next.value, sequence := rec.sequence + 1)];
      r := State(next.value);
    }

    /** One job of the recovery: skipped, restored, or found unacceptable. */
    method RestoreJob(id: string) returns (acceptable: bool)
      modifies this`records, this`eventLogs
      ensures acceptable <==> (Readable(disk, id) ==> Restorable(disk, id))
      ensures !(Readable(disk, id) && acceptable) ==> records == old(records) && eventLogs == old(eventLogs)
      ensures Readable(disk, id) && acceptable ==>
        records == old(records)[id := RecoveredRecord(disk, id)] && eventLogs == old(eventLogs)[id := disk.events[id]]
    {
      hide Numbered, Path;
      if !(id in disk.snapshots && id in disk.events) { return true; }
      if disk.snapshots[id] == [] { return false; }
      var snapshot, log := disk.snapshots[id][0], disk.events[id];
      var problem := Verify(log);
      if problem.Some? { return false; }
      var current := ReplayToCurrentState(log);
      records := records[id := snapshot.(state := current.state)];
      eventLogs := eventLogs[id := log];
      acceptable := true;
    }

    /** `ids` lists every job that has a file. A job that lacks either file is skipped; the first unacceptable log
        stops the recovery. */
    method RecoverFromQfs(ids: seq<string>) returns (r: Recovery)
      requires forall id :: id in ids <==> id in disk.snapshots || id in disk.events
      requires forall i, k :: 0 <= i < k < |ids| ==> ids[i] != ids[k]
      requires records == map[] && eventLogs == map[]
      modifies this`records, this`eventLogs
      ensures r.Recovered? <==> Recovers(disk)
      ensures r.Recovered? ==> Contents() == RecoveredStore(disk) && r.count == |records|
      ensures r.Aborted? ==> Readable(disk, r.id) && !Restorable(disk, r.id)
    {
      hide RestoredFrom, Restorable, RecoveredStore;
      var recovered := 0;
      NoneRestored(disk);
      for i := 0 to |ids|
        invariant RestoredFrom(records, eventLogs, disk, ids[..i]) && recovered == |records|
      {
        var id := ids[i];
        assert ids[..i + 1] == ids[..i] + [id] && id !in ids[..i];
        NotYetRestored(records, eventLogs, disk, ids[..i], id);
        OneMoreRestored(records, eventLogs, disk, ids[..i], id);
        var acceptable := RestoreJob(id);
        if !acceptable { return Aborted(id); }
        if Readable(disk, id) { recovered := recovered + 1; }
      }
      assert ids[..|ids|] == ids;
      AllRestored(records, eventLogs, disk, ids);
      r := Recovered(recovered);
    }
  }
}
