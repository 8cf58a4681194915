/** The queue's rules in terms of the fields they read: how long a lease lasts, in which order expired ones come back,
    which tasks are accepted and which are dead. */
module LeaseRules {
  import opened Text
  import opened LeaseModel
  import opened LeaseSafety
  import opened LeaseDelivery

  /** How lease ids read. */
  lemma LeaseIdReads(n: nat)
    ensures LeaseId(n) == "lease-" + ZeroPad(n, 8)
  {
    hide ZeroPad;
  }

  // ---- how long a lease lasts ------------------------------------------------------------------------------

  /** When a task leased now can no longer be settled: after its seconds, or at the end of 64-bit time. */
  function EndOf(t: Task, now: nat): nat {
    if now + 1000 * t.visibilitySeconds <= 0xFFFF_FFFF_FFFF_FFFF then now + 1000 * t.visibilitySeconds
    else 0xFFFF_FFFF_FFFF_FFFF
  }

  lemma GrantedLease(s: State, op: Op)
    requires Safe(s) && Granted(s, op) != []
    ensures var t, id := Step(s, op), LeaseId(s.sequence + 1);
      && id in t.inFlight && t.inFlight[id].leasedAt == op.now && t.inFlight[id].worker == Trim(op.worker)
      && t.inFlight[id].expires == EndOf(t.inFlight[id].task, op.now)
  {
    hide Safe, Sweep, Trim;
    SweepSafe(s, op.now);
  }

  /** Whether a call makes the adapter look for expired leases. */
  predicate Sweeps(op: Op) { !op.DoEnqueue? && Trim(op.worker) != [] && (op.DoLease? ==> Trim(op.queue) != []) }

  /** A call ends a lease when its worker settles it, or when any call looks at or after its end. */
  predicate Ends(op: Op, id: string, lease: Lease) {
    Sweeps(op) && (op.now >= lease.expires || (!op.DoLease? && op.id == id && Trim(op.worker) == lease.worker))
  }

  lemma StepEnds(s: State, op: Op, id: string)
    requires Safe(s) && id in s.inFlight
    ensures var t := Step(s, op);
      (id in t.inFlight <==> !Ends(op, id, s.inFlight[id])) && (id in t.inFlight ==> t.inFlight[id] == s.inFlight[id])
  {
    hide Sweep, Trim, LeaseId, Safe, QueueOf, LeaseOf, Exhausted, EnqueueResult;
    if !op.DoEnqueue? {
      SweepSafe(s, op.now);
      IdIsOld(s, id);
    }
  }

  lemma IdIsOld(s: State, id: string)
    requires Safe(s) && id in s.inFlight
    ensures id != LeaseId(s.sequence + 1)
  {
    NextIdIsNew(s);
  }

  ghost predicate NoneEnds(ops: seq<Op>, id: string, lease: Lease) {
    forall i :: 0 <= i < |ops| ==> !Ends(ops[i], id, lease)
  }

  lemma {:induction false} OpenExactly(s: State, ops: seq<Op>, id: string)
    requires Safe(s) && id in s.inFlight
    ensures var u := Run(s, ops);
      && Safe(u) && (id in u.inFlight <==> NoneEnds(ops, id, s.inFlight[id]))
      && (id in u.inFlight ==> u.inFlight[id] == s.inFlight[id])
    decreases ops
  {
    EveryRunSafe(s, ops);
    if ops != [] {
      var lease, t, rest := s.inFlight[id], Step(s, ops[0]), ops[1..];
      assert ops == [ops[0]] + rest;
      StepEnds(s, ops[0], id);
      StepSafe(s, ops[0]);
      StepLeases(s, ops[0]);
      assert IsLeaseId(id, s.sequence) by { hide Counted, Unique; }
      hide Safe, Step, Ends;
      if Ends(ops[0], id, lease) {
        assert Closed(t, id) by { IssuedStays(id, s.sequence, t.sequence); }
        ClosedForGood(t, rest, id);
        assert !NoneEnds(ops, id, lease);
      } else {
        OpenExactly(t, rest, id);
        assert NoneEnds(rest, id, lease) ==> NoneEnds(ops, id, lease);
        if NoneEnds(ops, id, lease) {
          forall i | 0 <= i < |rest| ensures !Ends(rest[i], id, lease) { assert rest[i] == ops[i + 1]; }
        }
      }
    }
  }

  lemma IssuedStays(id: string, m: nat, n: nat)
    requires IsLeaseId(id, m) && m <= n
    ensures IsLeaseId(id, n)
  {
    var k :| 1 <= k <= m && id == LeaseId(k);
    assert 1 <= k <= n;
  }

  lemma {:induction false} ClosedForGood(s: State, ops: seq<Op>, id: string)
    requires Safe(s) && Closed(s, id)
    ensures Closed(Run(s, ops), id)
    decreases ops
  {
    hide Safe, Step, Closed;
    if ops != [] {
      StepSafe(s, ops[0]);
      ClosedStays(s, ops[0], id);
      ClosedForGood(Step(s, ops[0]), ops[1..], id);
    }
  }

  /** After a grant and any calls, a worker that names itself is told `true` exactly when it is the lease's worker, no
      call in between ended the lease and the lease's time is not over; it is told `false` exactly when the lease
      has ended or its time is over, and that it is not the owner otherwise. */
  lemma LeaseLasts(s: State, op: Op, ops: seq<Op>, worker: string, now: nat)
    requires Safe(s) && Granted(s, op) != [] && Trim(worker) != []
    ensures var id, t := LeaseId(s.sequence + 1), Step(s, op);
      && id in t.inFlight
      && var over := !NoneEnds(ops, id, t.inFlight[id]) || now >= EndOf(t.inFlight[id].task, op.now);
         Settlement(Run(t, ops), id, worker, now) ==
           if over then Ok(false)
           else if Trim(worker) == Trim(op.worker) then Ok(true) else Err(LeaseNotOwnedByWorker)
  {
    var id, t := LeaseId(s.sequence + 1), Step(s, op);
    GrantedLease(s, op);
    StepSafe(s, op);
    OpenExactly(t, ops, id);
    hide Safe, Step, Granted, Run, NoneEnds, Trim, LeaseId, Sweep;
    SweepSafe(Run(t, ops), now);
  }

  // ---- the order of the sweep --------------------------------------------------------------------------------

  /** The leases `order`, earlier expiry first and smaller id first among equals. */
  ghost predicate ByExpiry(s: State, order: seq<string>) {
    && (forall i :: 0 <= i < |order| ==> order[i] in s.inFlight)
    && (forall i, k :: 0 <= i < k < |order| ==>
          var a, b := s.inFlight[order[i]].expires, s.inFlight[order[k]].expires;
          a < b || (a == b && Less(order[i], order[k])))
  }

  /** What the leases put back into one queue. */
  ghost function Redelivered(s: State, order: seq<string>, name: string): seq<Task>
    requires forall i :: 0 <= i < |order| ==> order[i] in s.inFlight
  {
    if order == [] then []
    else
      var t := s.inFlight[order[0]].task;
      (if t.queue == name && t.attempt < t.maxAttempts then [t.(attempt := t.attempt + 1)] else [])
      + Redelivered(s, order[1..], name)
  }

  lemma {:induction false} RedeliveredSame(s: State, t: State, order: seq<string>, name: string)
    requires forall i :: 0 <= i < |order| ==>
      order[i] in s.inFlight && order[i] in t.inFlight && s.inFlight[order[i]] == t.inFlight[order[i]]
    ensures Redelivered(s, order, name) == Redelivered(t, order, name)
  {
    if order != [] { RedeliveredSame(s, t, order[1..], name); }
  }

  lemma ExpireQueue(s: State, id: string, now: nat, name: string)
    requires id in s.inFlight
    ensures QueueOf(Expire(s, id, now), name) == QueueOf(s, name) + Redelivered(s, [id], name)
  {
    assert Redelivered(s, [id][1..], name) == [];
  }

  /** `order` is `ids` by expiry, and what a sweep of `ids` does to the queues. */
  ghost predicate SweptInOrder(s: State, ids: set<string>, now: nat, order: seq<string>)
    requires ids <= s.inFlight.Keys
  {
    && (forall id :: id in order <==> id in ids) && ByExpiry(s, order)
    && forall name :: QueueOf(ExpireAll(s, ids, now), name) == QueueOf(s, name) + Redelivered(s, order, name)
  }

  lemma {:induction false} ExpireAllInOrder(s: State, ids: set<string>, now: nat) returns (order: seq<string>)
    requires ids <= s.inFlight.Keys
    ensures SweptInOrder(s, ids, now, order)
    decreases ids
  {
    order := [];
    if ids != {} {
      var id := First(s, ids);
      var t, rest := Expire(s, id, now), ids - {id};
      ExpireDrops(s, id, now);
      assert ExpireAll(s, ids, now) == ExpireAll(t, rest, now);
      hide First, Expire, ExpireAll, SweptInOrder;
      var later := ExpireAllInOrder(t, rest, now);
      order := [id] + later;
      OneMoreSwept(s, ids, now, id, later);
    }
  }

  lemma OneMoreSwept(s: State, ids: set<string>, now: nat, id: string, later: seq<string>)
    requires ids <= s.inFlight.Keys && IsFirst(s, id, ids) && ids - {id} <= Expire(s, id, now).inFlight.Keys
    requires SweptInOrder(Expire(s, id, now), ids - {id}, now, later)
    requires ExpireAll(s, ids, now) == ExpireAll(Expire(s, id, now), ids - {id}, now)
    ensures SweptInOrder(s, ids, now, [id] + later)
  {
    var t, order, all := Expire(s, id, now), [id] + later, ExpireAll(s, ids, now);
    ExpireDrops(s, id, now);
    hide Expire, ExpireAll, QueueOf, ExpiresBefore, ByExpiry, Redelivered;
    FirstThenLater(s, t, id, later);
    forall name ensures QueueOf(all, name) == QueueOf(s, name) + Redelivered(s, order, name) {
      OneMoreQueue(s, id, now, later, name, QueueOf(all, name));
    }
    hide IsFirst;
  }

  lemma OneMoreQueue(s: State, id: string, now: nat, later: seq<string>, name: string, q: seq<Task>)
    requires id in s.inFlight
    requires forall i :: 0 <= i < |later| ==> later[i] in s.inFlight && later[i] in Expire(s, id, now).inFlight
    requires q == QueueOf(Expire(s, id, now), name) + Redelivered(Expire(s, id, now), later, name)
    ensures q == QueueOf(s, name) + Redelivered(s, [id] + later, name)
  {
    var t := Expire(s, id, now);
    ExpireDrops(s, id, now);
    ExpireQueue(s, id, now, name);
    hide Expire, QueueOf, Redelivered;
    RedeliveredSame(s, t, later, name);
    RedeliveredFirst(s, id, later, name);
    Reassociate(QueueOf(s, name), Redelivered(s, [id], name), Redelivered(s, later, name));
  }

  lemma Reassociate(a: seq<Task>, b: seq<Task>, c: seq<Task>)
    ensures (a + b) + c == a + (b + c)
  {}

  lemma FirstThenLater(s: State, t: State, id: string, later: seq<string>)
    requires id in s.inFlight && t.inFlight == s.inFlight - {id} && ByExpiry(t, later)
    requires forall x :: x in later ==> x in s.inFlight && ExpiresBefore(s, id, x)
    ensures ByExpiry(s, [id] + later)
    ensures forall i :: 0 <= i < |later| ==> later[i] in s.inFlight && later[i] in t.inFlight
  {
    hide Less;
  }

  lemma RedeliveredFirst(s: State, id: string, later: seq<string>, name: string)
    requires id in s.inFlight && forall i :: 0 <= i < |later| ==> later[i] in s.inFlight
    ensures Redelivered(s, [id] + later, name) == Redelivered(s, [id], name) + Redelivered(s, later, name)
  {
    assert ([id] + later)[1..] == later && [id][1..] == [];
  }

  /** A sweep appends to each queue the tasks of its expired leases that have attempts left, in the order in which the
      leases expired. */
  lemma SweepInOrder(s: State, now: nat) returns (order: seq<string>)
    ensures ByExpiry(s, order) && forall id :: id in order <==> id in s.inFlight && s.inFlight[id].expires <= now
    ensures forall name :: QueueOf(Sweep(s, now), name) == QueueOf(s, name) + Redelivered(s, order, name)
  {
    order := ExpireAllInOrder(s, Expired(s, now), now);
  }

  // ---- acceptance and death ------------------------------------------------------------------------------------

  predicate Missing(s: string) { Trim(s) == [] }

  /** What makes a task acceptable, and the first thing that is wrong with one that is not. */
  lemma ValidExactly(t: Task)
    ensures Validate(t).Ok? <==>
      && !Missing(t.queue) && !Missing(t.id) && !Missing(t.job) && !Missing(t.assignment) && !Missing(t.key)
      && 1 <= t.attempt <= t.maxAttempts && t.visibilitySeconds >= 1
    ensures Validate(t) == Err(EmptyQueueName) <==> Missing(t.queue)
    ensures Validate(t) == Err(EmptyTaskId) <==> Missing(t.id) && !Missing(t.queue)
    ensures Validate(t) == Err(EmptyJobId) <==> Missing(t.job) && !Missing(t.queue) && !Missing(t.id)
    ensures Validate(t) == Err(EmptyAssignmentId) ==> Missing(t.assignment)
    ensures Validate(t) == Err(EmptyIdempotencyKey) ==> Missing(t.key) && !Missing(t.assignment)
    ensures Validate(t) == Err(InvalidVisibilityTimeout) ==> t.visibilitySeconds == 0 && 1 <= t.attempt <= t.maxAttempts
    ensures Validate(t) == Err(InvalidAttempts) ==> !Missing(t.key) && !(1 <= t.attempt <= t.maxAttempts)
  {
    hide Trim;
  }

  /** A lease call is refused for a blank queue name, then for a blank worker, and for nothing else; a call on a lease
      is refused for a blank worker or for another than the lease's. */
  lemma RefusedExactly(s: State, queue: string, worker: string, now: nat, id: string)
    ensures LeaseAnswer(s, queue, worker, now) == Err(EmptyQueueName) <==> Missing(queue)
    ensures LeaseAnswer(s, queue, worker, now) == Err(EmptyWorkerId) <==> !Missing(queue) && Missing(worker)
    ensures LeaseAnswer(s, queue, worker, now).Ok? <==> !Missing(queue) && !Missing(worker)
    ensures Settlement(s, id, worker, now) == Err(EmptyWorkerId) <==> Missing(worker)
  {
    hide Sweep, Trim, LeaseOf;
  }

  /** Only tasks that have used their last attempt are dead. */
  ghost predicate DeadAreSpent(s: State) {
    forall i :: 0 <= i < |s.dead| ==> s.dead[i].task.attempt == s.dead[i].task.maxAttempts
  }

  lemma ReturnSpent(s: State, t: Task, reason: string, now: nat)
    requires DeadAreSpent(s) && TaskOk(t)
    ensures DeadAreSpent(Return(s, t, reason, now))
  {
    hide Trim;
  }

  lemma {:induction false} ExpireAllSpent(s: State, ids: set<string>, now: nat)
    requires DeadAreSpent(s) && ids <= s.inFlight.Keys && forall l :: l in s.inFlight ==> TaskOk(s.inFlight[l].task)
    ensures DeadAreSpent(ExpireAll(s, ids, now))
    decreases ids
  {
    if ids != {} {
      var id := First(s, ids);
      ReturnSpent(Drop(s, id), s.inFlight[id].task, "lease-expired", now);
      ExpireDrops(s, id, now);
      hide First, IsFirst, DeadAreSpent, Return;
      ExpireAllSpent(Expire(s, id, now), ids - {id}, now);
    }
  }

  lemma StepSpent(s: State, op: Op)
    requires Safe(s) && DeadAreSpent(s)
    ensures DeadAreSpent(Step(s, op))
  {
    hide Safe, Sweep, Return, Trim, Grant, DeadAreSpent;
    if op.DoEnqueue? {
      SameDead(s, Step(s, op));
    } else {
      SweepSafe(s, op.now);
      SweepSpent(s, op.now);
      var t := Sweep(s, op.now);
      if op.DoRequeue? && op.id in t.inFlight {
        LeasedOk(t, op.id);
        SameDead(t, Drop(t, op.id));
        ReturnSpent(Drop(t, op.id), t.inFlight[op.id].task, op.reason, op.now);
      } else {
        if op.DoLease? && QueueOf(t, Trim(op.queue)) != [] { GrantBuriesNothing(t, Trim(op.queue), op.worker, op.now); }
        if Step(s, op).dead == s.dead { SameDead(s, Step(s, op)); } else { SameDead(t, Step(s, op)); }
      }
    }
  }

  lemma SameDead(s: State, t: State)
    requires DeadAreSpent(s) && t.dead == s.dead
    ensures DeadAreSpent(t)
  {}

  lemma LeasedOk(s: State, id: string)
    requires Safe(s) && id in s.inFlight
    ensures TaskOk(s.inFlight[id].task)
  {
    hide Counted, Unique;
  }

  lemma GrantBuriesNothing(s: State, key: string, worker: string, now: nat)
    requires QueueOf(s, key) != []
    ensures Grant(s, key, worker, now).dead == s.dead
  {}

  lemma SweepSpent(s: State, now: nat)
    requires Safe(s) && DeadAreSpent(s)
    ensures DeadAreSpent(Sweep(s, now))
  {
    forall l | l in s.inFlight ensures TaskOk(s.inFlight[l].task) { LeasedOk(s, l); }
    hide Safe, DeadAreSpent;
    ExpireAllSpent(s, Expired(s, now), now);
  }

  lemma {:induction false} DeadOnlyWhenSpent(s: State, ops: seq<Op>)
    requires Safe(s) && DeadAreSpent(s)
    ensures DeadAreSpent(Run(s, ops))
    decreases ops
  {
    hide Safe, Step, DeadAreSpent;
    if ops != [] {
      StepSafe(s, ops[0]);
      StepSpent(s, ops[0]);
      DeadOnlyWhenSpent(Step(s, ops[0]), ops[1..]);
    }
  }
}
