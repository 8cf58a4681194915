/** The kernel's runtime store as the object it is: a map of job records that each method updates in place. Every
    method is proved to be the atomic step of the same name. */
module KernelStore {
  import opened Options
  import M = KernelModel
  import opened KernelModel

  datatype Status = Ok | NotFound | FailedPrecondition | Collision

  /** The linear search over the stage list. */
  method FindStage(records: seq<StageRecord>, s: Stage) returns (i: nat)
    ensures i == Find(records, s)
  {
    i := 0;
    while i < |records| && records[i].stage != s
      invariant i <= |records|
      invariant forall k :: 0 <= k < i ==> records[k].stage != s
    {
      i := i + 1;
    }
  }

  /** The search from the end for a recorded output. */
  method LatestOutput(records: seq<StageRecord>) returns (r: Option<string>)
    ensures r == PreviousOutput(records)
  {
    var i := |records|;
    assert records[..i] == records;
    while i > 0
      invariant i <= |records|
      invariant PreviousOutput(records) == PreviousOutput(records[..i])
    {
      assert records[..i][..i - 1] == records[..i - 1];
      if records[i - 1].artifacts.output.Some? { return records[i - 1].artifacts.output; }
      i := i - 1;
    }
    r := None;
  }

  // ---- what the writes leave behind ---------------------------------------------------------------------------

  /** A cancel is refused once the job has ended; otherwise it raises the flag, lets the reservation go and leaves the
      rest to the task. */
  lemma CancelInFields(j: Job, now: int)
    ensures var k := M.RequestCancel(j, now);
      if j.state in {Done, Error, Cancelled, Timeout} then k == j
      else k == j.(cancelRequested := true, reservation := ReleasePending, updatedAt := now)
  {}

  /** A held reservation of a live job is let go when nothing was written for its whole lease, and for at least a
      millisecond. */
  lemma SweepInFields(j: Job, now: int)
    ensures var k, idle := Sweep(j, now), now - j.updatedAt;
      if j.reservation == Held && j.state !in {Done, Error, Cancelled, Timeout} && idle >= j.leaseMs && idle >= 1 then
        k == j.(reservation := Released, updatedAt := now)
      else k == j
  {}

  /** How a job reads that was ended in a stage, by a failure, an error or its deadline. */
  ghost predicate EndedWith(j: Job, t: TaskState, code: string, now: int) {
    && j.state == t && j.errorCode == Some(code) && j.reservation == Released
    && j.completedAt == Some(now) && j.updatedAt == now && j.failureRef == Some(FailureRef(j.id))
  }

  lemma EndingsInFields(j: Job, s: Stage, t: TaskState, code: string, now: int)
    ensures var r := M.FinishStageFailure(j, s, t, code, now);
      if r.ok then EndedWith(r.job, t, code, now) && r.job.cancelRequested == j.cancelRequested else r.job == j
    ensures j.state !in {Done, Error, Cancelled, Timeout} ==>
      var e, d := M.RequestErrorTerminalization(j, code, now), M.RequestDeadlineTerminalization(j, now);
      && EndedWith(e, Error, code, now) && e.cancelRequested == j.cancelRequested
      && EndedWith(d, Timeout, "DEADLINE_EXCEEDED", now) && d.cancelRequested
  {
    hide Find, FailedRecord, FailureRef, TerminalizedRecords, InputRef;
  }

  /** Beginning a stage makes it current; one that lacks a field ends the job instead. */
  lemma BeginningInFields(j: Job, s: Stage, t: TaskState, input: Input, now: int)
    ensures var b := M.BeginStage(j, s, t, input, now);
      && (b.ok ==> b.job.currentStage == s && b.job.state == j.state)
      && (!b.ok && !Terminal(j.state) ==> EndedWith(b.job, Error, "WORKFLOW_HANDOFF_CORRUPTION", now))
      && (Terminal(j.state) ==> !b.ok && b.job == j)
  {
    hide Find, RequiredFields, Opened, Orphan, FailureRef, PreviousOutput, Terminal;
  }

  /** Finishing a stage sets the state, and a terminal state the completion time. */
  lemma FinishingInFields(j: Job, s: Stage, t: TaskState, now: int)
    ensures var f := M.FinishStageSuccess(j, s, t, now);
      && (f.ok ==> f.job.state == t && f.job.updatedAt == now && f.job.errorCode == j.errorCode)
      && (f.ok && Terminal(t) ==> f.job.completedAt == Some(now))
      && (f.ok && t == Done ==> f.job.completionRef == Some(CompletionRef(j.id)))
  {
    hide Find, SucceededRecord, CompletionRef, Terminal;
  }

  /** A job ended in a stage that has no record gets one: failed, with the job's state so far, and naming its own input
      as upstream only when the deadline ended it. */
  lemma StrandedInFields(j: Job, code: string, now: int)
    requires !Terminal(j.state) && Find(j.records, j.currentStage) == |j.records|
    ensures var e, d := M.RequestErrorTerminalization(j, code, now), M.RequestDeadlineTerminalization(j, now);
      && |e.records| == |d.records| == |j.records| + 1
      && var x, y := e.records[|j.records|], d.records[|j.records|];
         && e.records == j.records + [x] && d.records == j.records + [y]
         && x.stage == y.stage == j.currentStage && x.status == y.status == Failed
         && x.stateBefore == y.stateBefore == j.state && x.stateAfter == Error && y.stateAfter == Timeout
         && x.errorCode == Some(code) && y.errorCode == Some("DEADLINE_EXCEEDED")
         && x.artifacts.upstream == None && y.artifacts.upstream == Some(InputRef(j.id, j.currentStage))
         && x.artifacts.output == y.artifacts.output == Some(StageFailureRef(j.id, j.currentStage))
  {
    hide InputRef, StageFailureRef, FailureRef, HandoffRef, LineageRef, RootLineageRef, Find, Terminal;
  }

  /** A new job waits for validation with its reservation held. */
  lemma NewJobInFields(id: string, fingerprint: string, deadline: Option<int>, leaseMs: nat, now: int)
    ensures var j := NewJob(id, fingerprint, deadline, leaseMs, now);
      && j.id == id && j.fingerprint == fingerprint && j.deadline == deadline && j.leaseMs == leaseMs
      && j.state == Pending && j.currentStage == ValidateEnqueue && j.records == [] && j.attempts == []
      && j.reservation == Held && !j.cancelRequested && j.updatedAt == now
      && j.completionRef == j.failureRef == j.errorCode == j.finalReason == None && j.completedAt == None
  {}

  // ---- the store ----------------------------------------------------------------------------------------------

  /** Jobs are filed under their ids, and the index leads from exactly the jobs' fingerprints to such a job. */
  ghost predicate Filed(jobs: map<string, Job>, index: map<string, string>) {
    && (forall id :: id in jobs ==> jobs[id].id == id && jobs[id].fingerprint in index)
    && (forall f :: f in index ==> index[f] in jobs && jobs[index[f]].fingerprint == f)
  }

  /** Updating a job in place keeps the files; `job` is the update. */
  lemma FiledAgain(jobs: map<string, Job>, index: map<string, string>, id: string)
    requires Filed(jobs, index) && id in jobs
    ensures jobs[id].id == id
    ensures forall job: Job :: job.id == id && job.fingerprint == jobs[id].fingerprint ==>
      Filed(jobs[id := job], index)
  {}

  class KernelRuntimeStore {
    var jobs: map<string, Job>
    var requestIndex: map<string, string>

    ghost predicate Valid()
      reads this
    {
      Filed(jobs, requestIndex)
    }

    constructor ()
      ensures Valid() && jobs == map[] && requestIndex == map[]
    {
      jobs, requestIndex := map[], map[];
    }

    /** The same id with another fingerprint is a collision; the same id and fingerprint is the same job. */
    method CreateOrGetJob(id: string, fingerprint: string, deadline: Option<int>, leaseMs: nat, now: int)
      returns (status: Status, created: bool)
      requires Valid()
      modifies this
      ensures Valid()
      ensures created <==> id !in old(jobs)
      ensures jobs == if created then old(jobs)[id := NewJob(id, fingerprint, deadline, leaseMs, now)] else old(jobs)
      ensures requestIndex == if created then old(requestIndex)[fingerprint := id] else old(requestIndex)
      ensures status == if created || jobs[id].fingerprint == fingerprint then Ok else Collision
    {
      if id in jobs {
        created := false;
        status := if jobs[id].fingerprint != fingerprint then Collision else Ok;
        return;
      }
      var record := Job(id, fingerprint, Pending, ValidateEnqueue, [], None, None, deadline, false, Held, leaseMs, now,
        None, None, [], None, 0);
      jobs := jobs[id := record];
      requestIndex := requestIndex[fingerprint := id];
      status, created := Ok, true;
    }

    method BeginStage(id: string, s: Stage, before: TaskState, input: Input, now: int) returns (status: Status)
      requires Valid()
      modifies this`jobs
      ensures Valid()
      ensures id !in old(jobs) ==> status == NotFound && jobs == old(jobs)
      ensures id in old(jobs) ==>
        var w := M.BeginStage(old(jobs)[id], s, before, input, now);
        jobs == old(jobs)[id := w.job] && status == if w.ok then Ok else FailedPrecondition
    {
      hide Filed, Opened, Orphan, RequiredFields, Find, PreviousOutput, FailureRef;
      if id !in jobs { return NotFound; }
      var job := jobs[id];
      FiledAgain(jobs, requestIndex, id);
      if Terminal(job.state) {
        assert jobs == jobs[id := job];
        return FailedPrecondition;
      }
      var i := FindStage(job.records, s);
      if i < |job.records| {
        jobs := jobs[id := job.(currentStage := s)];
        return Ok;
      }
      job := job.(currentStage := s, updatedAt := now);
      if !(RequiredFields(s) <= input.keys) {
        job := job.(completedAt := Some(now), state := Error, errorCode := Some("WORKFLOW_HANDOFF_CORRUPTION"),
          reservation := Released, failureRef := Some(FailureRef(id)));
        job := job.(records := job.records + [Orphan(id, s, before, input)]);
        jobs := jobs[id := job];
        return FailedPrecondition;
      }
      var upstream := LatestOutput(job.records);
      job := job.(records := job.records + [Opened(id, s, before, input, upstream)]);
      jobs := jobs[id := job];
      status := Ok;
    }

    method FinishStageSuccess(id: string, s: Stage, after: TaskState, now: int) returns (status: Status)
      requires Valid()
      modifies this`jobs
      ensures Valid()
      ensures id !in old(jobs) ==> status == NotFound && jobs == old(jobs)
      ensures id in old(jobs) ==>
        var w := M.FinishStageSuccess(old(jobs)[id], s, after, now);
        jobs == old(jobs)[id := w.job] && status == if w.ok then Ok else FailedPrecondition
    {
      hide Filed, SucceededRecord, Find, CompletionRef;
      if id !in jobs { return NotFound; }
      var job := jobs[id];
      FiledAgain(jobs, requestIndex, id);
      var i := FindStage(job.records, s);
      if i == |job.records| {
        assert jobs == jobs[id := job];
        return FailedPrecondition;
      }
      job := job.(records := job.records[i := SucceededRecord(id, job.records[i], after)]);
      if after == Done { job := job.(completionRef := Some(CompletionRef(id))); }
      job := job.(state := after, updatedAt := now);
      if Terminal(after) { job := job.(completedAt := Some(now)); }
      jobs := jobs[id := job];
      status := Ok;
    }

    method FinishStageFailure(id: string, s: Stage, t: TaskState, code: string, now: int) returns (status: Status)
      requires Valid()
      modifies this`jobs
      ensures Valid()
      ensures id !in old(jobs) ==> status == NotFound && jobs == old(jobs)
      ensures id in old(jobs) ==>
        var w := M.FinishStageFailure(old(jobs)[id], s, t, code, now);
        jobs == old(jobs)[id := w.job] && status == if w.ok then Ok else FailedPrecondition
    {
      hide Filed, FailedRecord, Find, FailureRef;
      if id !in jobs { return NotFound; }
      var job := jobs[id];
      FiledAgain(jobs, requestIndex, id);
      var i := FindStage(job.records, s);
      if i == |job.records| {
        assert jobs == jobs[id := job];
        return FailedPrecondition;
      }
      job := job.(records := job.records[i := FailedRecord(id, job.records[i], t, code)]);
      job := job.(failureRef := Some(FailureRef(id)), state := t, updatedAt := now, completedAt := Some(now));
      job := job.(errorCode := Some(code), reservation := Released);
      jobs := jobs[id := job];
      status := Ok;
    }

    method RequestCancel(id: string, now: int) returns (status: Status)
      requires Valid()
      modifies this`jobs
      ensures Valid()
      ensures id !in old(jobs) ==> status == NotFound && jobs == old(jobs)
      ensures id in old(jobs) ==> jobs == old(jobs)[id := M.RequestCancel(old(jobs)[id], now)]
      ensures id in old(jobs) ==> status == if Terminal(old(jobs)[id].state) then FailedPrecondition else Ok
    {
      hide Filed;
      if id !in jobs { return NotFound; }
      var job := jobs[id];
      FiledAgain(jobs, requestIndex, id);
      if Terminal(job.state) {
        assert jobs == jobs[id := job];
        return FailedPrecondition;
      }
      jobs := jobs[id := job.(cancelRequested := true, reservation := ReleasePending, updatedAt := now)];
      status := Ok;
    }

    method RequestErrorTerminalization(id: string, code: string, now: int) returns (status: Status)
      requires Valid()
      modifies this`jobs
      ensures Valid()
      ensures id !in old(jobs) ==> status == NotFound && jobs == old(jobs)
      ensures id in old(jobs) ==>
        status == Ok && jobs == old(jobs)[id := M.RequestErrorTerminalization(old(jobs)[id], code, now)]
    {
      hide Filed, TerminalizedRecord, Find, FailureRef, Stranded;
      if id !in jobs { return NotFound; }
      var job := jobs[id];
      FiledAgain(jobs, requestIndex, id);
      if Terminal(job.state) {
        assert jobs == jobs[id := job];
        return Ok;
      }
      var i := FindStage(job.records, job.currentStage);
      var records := job.records + [Stranded(job, Error, code, None)];
      if i < |job.records| { records := job.records[i := TerminalizedRecord(id, job.records[i], Error, code)]; }
      job := job.(records := records, state := Error, reservation := Released, updatedAt := now);
      job := job.(completedAt := Some(now), errorCode := Some(code), failureRef := Some(FailureRef(id)));
      jobs := jobs[id := job];
      status := Ok;
    }

    method RequestDeadlineTerminalization(id: string, now: int) returns (status: Status)
      requires Valid()
      modifies this`jobs
      ensures Valid()
      ensures id !in old(jobs) ==> status == NotFound && jobs == old(jobs)
      ensures id in old(jobs) ==>
        status == Ok && jobs == old(jobs)[id := M.RequestDeadlineTerminalization(old(jobs)[id], now)]
    {
      hide Filed, TerminalizedRecord, Find, FailureRef, Stranded, InputRef;
      if id !in jobs { return NotFound; }
      var job := jobs[id];
      FiledAgain(jobs, requestIndex, id);
      if Terminal(job.state) {
        assert jobs == jobs[id := job];
        return Ok;
      }
      var i := FindStage(job.records, job.currentStage);
      var records := job.records + [Stranded(job, Timeout, "DEADLINE_EXCEEDED", Some(InputRef(id, job.currentStage)))];
      if i < |job.records| {
        records := job.records[i := TerminalizedRecord(id, job.records[i], Timeout, "DEADLINE_EXCEEDED")];
      }
      job := job.(records := records, state := Timeout, cancelRequested := true, reservation := Released);
      job := job.(errorCode := Some("DEADLINE_EXCEEDED"), failureRef := Some(FailureRef(id)), completedAt := Some(now),
        updatedAt := now);
      jobs := jobs[id := job];
      status := Ok;
    }

    /** Releases the stale reservations of all jobs and touches no other job. */
    method SweepStaleReservations(now: int) returns (released: set<string>)
      requires Valid()
      modifies this`jobs
      ensures Valid() && jobs.Keys == old(jobs).Keys
      ensures forall id :: id in jobs ==> jobs[id] == Sweep(old(jobs)[id], now)
      ensures forall id :: id in released <==>
        id in old(jobs) && LeaseExpired(old(jobs)[id], now) && !Terminal(old(jobs)[id].state)
    {
      hide Filed;
      released := {};
      var todo := jobs.Keys;
      while todo != {}
        invariant Valid() && todo <= jobs.Keys == old(jobs).Keys
        invariant forall id :: id in todo ==> jobs[id] == old(jobs)[id] && id !in released
        invariant forall id :: id in jobs && id !in todo ==> jobs[id] == Sweep(old(jobs)[id], now)
        invariant forall id :: id in released ==> id in jobs
        invariant forall id :: id in jobs && id !in todo ==>
          (id in released <==> LeaseExpired(old(jobs)[id], now) && !Terminal(old(jobs)[id].state))
        decreases todo
      {
        var id :| id in todo;
        var job := jobs[id];
        FiledAgain(jobs, requestIndex, id);
        if job.reservation == Held && !Terminal(job.state) && LeaseExpired(job, now) {
          jobs := jobs[id := job.(reservation := Released, updatedAt := now)];
          released := released + {id};
        }
        todo := todo - {id};
      }
    }
  }
}
