/** What the state of a stored job says about the calls that were made: the lifecycle over whole runs. */
module JobLifecycle {
  import opened EventLog
  import opened JobStoreModel

  /** After any run each job's log is the lifecycle so far, possibly cut short by one early end, and its state is
      where the last event leads: a job is Done exactly when its log is the whole lifecycle. */
  lemma LifecycleOverRun(ops: seq<Op>, id: string)
    requires FreshIds(ops) && id in DurableRun(ops).records
    ensures var d := DurableRun(ops);
      && id in d.logs
      && var state, events := d.records[id].state, Events(d.logs[id]);
         && state == StateOf(events) && (events != [] ==> OnCourse(events[..|events| - 1]))
         && (state == Pending <==> events == [])
         && (state == Compiling <==> events == [StartCompiling])
         && (state == Running <==> events == [StartCompiling, StartRunning])
         && (state == Done <==> events == [StartCompiling, StartRunning, Complete])
  {
    RunIsConsistent(ops);
    var d := DurableRun(ops);
    hide DurableRun, FreshIds, Fragments, Snapshots, Numbered, Path;
    var log := d.logs[id];
    LogIsLifecycle(log);
    if log != [] { assert Events(log)[..|log| - 1] == Events(log[..|log| - 1]); }
    CourseStates(Events(log));
  }

  lemma CourseStates(events: seq<JobEvent>)
    requires events != [] ==> OnCourse(events[..|events| - 1]) && |events| <= 3
    requires OnCourse(events) <==> StateOf(events) in {Pending, Compiling, Running, Done}
    ensures StateOf(events) == Pending <==> events == []
    ensures StateOf(events) == Compiling <==> events == [StartCompiling]
    ensures StateOf(events) == Running <==> events == [StartCompiling, StartRunning]
    ensures StateOf(events) == Done <==> events == [StartCompiling, StartRunning, Complete]
  {
    if OnCourse(events) { assert events == LIFECYCLE[..|events|]; }
  }

  /** The calls at these positions, in this order, made these events of the job. */
  ghost predicate MadeBy(ops: seq<Op>, id: string, at: seq<nat>, events: seq<JobEvent>) {
    && |at| == |events| && (forall i, k :: 0 <= i < k < |at| ==> at[i] < at[k])
    && forall i :: 0 <= i < |at| ==>
         at[i] < |ops| && ops[at[i]].Apply? && ops[at[i]].id == id && ops[at[i]].event == events[i]
  }

  /** Every log entry goes back to a call, in order, and names its job. */
  lemma {:induction false} LogFromCalls(ops: seq<Op>, id: string) returns (at: seq<nat>)
    ensures MadeBy(ops, id, at, Events(Lines(DurableRun(ops).logs, id)))
    ensures forall e :: e in Lines(DurableRun(ops).logs, id) ==> e.jobId == id
  {
    at := [];
    if ops != [] {
      var most, op := ops[..|ops| - 1], ops[|ops| - 1];
      at := LogFromCalls(most, id);
      var d := DurableRun(most);
      RunSplits(ops);
      hide DurableRun, Transition, IsTerminal, Events;
      var before, after := Lines(d.logs, id), Lines(DurableRun(ops).logs, id);
      if op.Create? && op.id == id {
        at := [];
        assert Events(after) == [] by { NoEvents(); }
      } else if op.Apply? && op.id == id && Moving(d, id, op.event) && id in d.logs {
        at := at + [|most|];
        assert after == before + [EntryFor(d.records[id], id, op.event)];
        EventsGrow(before, EntryFor(d.records[id], id, op.event));
      } else {
        assert after == before;
      }
    }
  }

  lemma NoEvents()
    ensures Events([]) == []
  {}

  lemma EventsGrow(es: seq<Entry>, e: Entry)
    ensures Events(es + [e]) == Events(es) + [e.event]
  {}

  /** A job is Running, or Done, only after the calls that start compiling and then running it. */
  lemma RunningOnlyAfter(ops: seq<Op>, id: string) returns (i: nat, k: nat)
    requires FreshIds(ops) && id in DurableRun(ops).records && DurableRun(ops).records[id].state in {Running, Done}
    ensures i < k < |ops| && ops[i].Apply? && ops[i].id == id && ops[i].event == StartCompiling
    ensures ops[k].Apply? && ops[k].id == id && ops[k].event == StartRunning
  {
    LifecycleOverRun(ops, id);
    var at := LogFromCalls(ops, id);
    hide DurableRun, FreshIds, Events;
    i, k := at[0], at[1];
  }
}
