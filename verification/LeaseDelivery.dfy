/** Delivery: which waiting tasks are handed to a worker, and after how many lease calls. */
module LeaseDelivery {
  import opened Text
  import opened LeaseModel
  import opened LeaseSafety

  // ---- queues only grow at the end ----------------------------------------------------------------------

  lemma {:induction false} ExpireAllAppends(s: State, ids: set<string>, now: nat, name: string)
    requires ids <= s.inFlight.Keys
    ensures QueueOf(s, name) <= QueueOf(ExpireAll(s, ids, now), name) && s.dead <= ExpireAll(s, ids, now).dead
    decreases ids
  {
    if ids != {} {
      var id := First(s, ids);
      var t := Expire(s, id, now);
      assert QueueOf(s, name) <= QueueOf(t, name) && s.dead <= t.dead;
      hide First, IsFirst, Expire, QueueOf;
      assert ids - {id} <= t.inFlight.Keys by { ExpireDrops(s, id, now); }
      ExpireAllAppends(t, ids - {id}, now, name);
      PrefixTransitive(QueueOf(s, name), QueueOf(t, name), QueueOf(ExpireAll(s, ids, now), name));
    }
  }

  lemma ExpireDrops(s: State, id: string, now: nat)
    requires id in s.inFlight
    ensures Expire(s, id, now).inFlight == s.inFlight - {id}
  {}

  lemma PrefixTransitive(a: seq<Task>, b: seq<Task>, c: seq<Task>)
    requires a <= b && b <= c
    ensures a <= c
  {}

  lemma SweepAppends(s: State, now: nat, name: string)
    ensures QueueOf(s, name) <= QueueOf(Sweep(s, now), name)
  {
    ExpireAllAppends(s, Expired(s, now), now, name);
  }

  /** Back in its queue with the next attempt, or dead-lettered because that was the last one. */
  ghost predicate CameBack(s: State, t: Task, reason: string, now: nat) {
    if Exhausted(t) then DeadLetter(t, Trim(reason), now) in s.dead else Retry(t) in QueueOf(s, t.queue)
  }

  lemma {:induction false} ExpireAllReturns(s: State, ids: set<string>, now: nat, id: string)
    requires ids <= s.inFlight.Keys && id in ids
    ensures CameBack(ExpireAll(s, ids, now), s.inFlight[id].task, "lease-expired", now)
    decreases ids
  {
    var first, t := First(s, ids), s.inFlight[id].task;
    var v := Expire(s, first, now);
    ExpireDrops(s, first, now);
    if first == id {
      assert CameBack(v, t, "lease-expired", now) by { ReturnComesBack(Drop(s, id), t, "lease-expired", now); }
      hide First, IsFirst, Expire;
      ExpireAllAppends(v, ids - {id}, now, t.queue);
    } else {
      hide First, IsFirst, Expire, CameBack;
      ExpireAllReturns(v, ids - {first}, now, id);
    }
  }

  lemma ReturnComesBack(s: State, t: Task, reason: string, now: nat)
    ensures CameBack(Return(s, t, reason, now), t, reason, now)
  {
    hide Trim;
    var r := Return(s, t, reason, now);
    if Exhausted(t) {
      assert r.dead[|s.dead|] == DeadLetter(t, Trim(reason), now);
    } else {
      assert QueueOf(r, t.queue)[|QueueOf(s, t.queue)|] == Retry(t);
    }
  }

  /** A lease that was not settled in time brings its task back at the first sweep after its expiry. */
  lemma ExpiredComesBack(s: State, id: string, now: nat)
    requires id in s.inFlight && now >= s.inFlight[id].expires
    ensures CameBack(Sweep(s, now), s.inFlight[id].task, "lease-expired", now)
  {
    hide CameBack;
    ExpireAllReturns(s, Expired(s, now), now, id);
  }

  // ---- a task's turn --------------------------------------------------------------------------------------

  /** A lease call that serves the queue: it names it, up to blank space, and a worker. */
  predicate Serves(op: Op, name: string) {
    op.DoLease? && Trim(op.queue) == name && name != [] && Trim(op.worker) != []
  }

  function Served(ops: seq<Op>, name: string): nat
    decreases ops
  {
    if ops == [] then 0 else (if Serves(ops[0], name) then 1 else 0) + Served(ops[1..], name)
  }

  /** The call hands this task to a worker. */
  ghost predicate Delivers(s: State, op: Op, t: Task) {
    op.DoLease? &&
    var r := LeaseAnswer(s, op.queue, op.worker, op.now);
    r.Ok? && r.value != [] && r.value[0].task == t
  }

  ghost predicate Delivered(s: State, ops: seq<Op>, t: Task)
    decreases ops
  {
    ops != [] && (Delivers(s, ops[0], t) || Delivered(Step(s, ops[0]), ops[1..], t))
  }

  lemma GrantPops(s: State, key: string, worker: string, now: nat, name: string)
    requires QueueOf(s, key) != []
    ensures QueueOf(Grant(s, key, worker, now), name)
         == if name == key then QueueOf(s, key)[1..] else QueueOf(s, name)
  {
    hide LeaseOf, LeaseId;
  }

  /** A lease call that serves the queue delivers its head and moves the others up; no other call moves them. */
  lemma StepAdvances(s: State, op: Op, name: string)
    ensures var q, r := QueueOf(s, name), QueueOf(Step(s, op), name);
      if Serves(op, name) && q != [] then Delivers(s, op, q[0]) && q[1..] <= r else q <= r
  {
    hide Sweep, Grant, Trim, SatAdd;
    var q := QueueOf(s, name);
    if !op.DoEnqueue? {
      SweepAppends(s, op.now, name);
      var t := Sweep(s, op.now);
      if op.DoLease? && Trim(op.queue) != [] && Trim(op.worker) != [] && QueueOf(t, Trim(op.queue)) != [] {
        GrantPops(t, Trim(op.queue), op.worker, op.now, name);
      }
    }
  }

  /** In any run, whatever else is called: the task at position `i` of a queue is delivered by the time the queue has
      been served more than `i` times. */
  lemma {:induction false} DeliveredInTurn(s: State, ops: seq<Op>, name: string, i: nat)
    requires i < |QueueOf(s, name)| && i < Served(ops, name)
    ensures Delivered(s, ops, QueueOf(s, name)[i])
    decreases ops
  {
    var q, r := QueueOf(s, name), QueueOf(Step(s, ops[0]), name);
    StepAdvances(s, ops[0], name);
    hide Step, Serves, QueueOf, Delivers;
    if !Serves(ops[0], name) {
      assert r[i] == q[i];
      DeliveredInTurn(Step(s, ops[0]), ops[1..], name, i);
    } else if i > 0 {
      assert q[1..][i - 1] == q[i] && r[i - 1] == q[i];
      DeliveredInTurn(Step(s, ops[0]), ops[1..], name, i - 1);
    }
  }

  // ---- exactly when ----------------------------------------------------------------------------------------

  lemma DeliveredQueue(s: State, op: Op, t: Task)
    requires Safe(s) && Delivers(s, op, t)
    ensures t.queue == Trim(op.queue) && t.queue != []
  {
    hide Sweep, Trim;
    SweepSafe(s, op.now);
    var r := Sweep(s, op.now);
    assert t in r.queues[Trim(op.queue)];
    hide Counted, Unique;
  }

  lemma {:induction false} DeliveredIsTrimmed(s: State, ops: seq<Op>, t: Task)
    requires Safe(s) && Delivered(s, ops, t)
    ensures Trimmed(t.queue) && t.queue != []
    decreases ops
  {
    if Delivers(s, ops[0], t) {
      DeliveredQueue(s, ops[0], t);
      TrimLaws(ops[0].queue);
    } else {
      StepSafe(s, ops[0]);
      hide Safe, Step;
      DeliveredIsTrimmed(Step(s, ops[0]), ops[1..], t);
    }
  }

  function LeaseCalls(name: string, n: nat): seq<Op> {
    if n == 0 then [] else [DoLease(name, "worker", 0)] + LeaseCalls(name, n - 1)
  }

  lemma {:induction false} LeaseCallsServe(name: string, n: nat)
    requires Trimmed(name) && name != []
    ensures Served(LeaseCalls(name, n), name) == n
  {
    if n > 0 {
      TrimLaws(name);
      TrimLaws("worker");
      LeaseCallsServe(name, n - 1);
      hide Trim;
      assert LeaseCalls(name, n)[1..] == LeaseCalls(name, n - 1);
    }
  }

  /** A waiting task can still be delivered exactly when its queue's name is trimmed: tasks are filed under the name as
      given, and lease calls look under the trimmed one. */
  lemma DeliverableExactly(s: State, name: string, i: nat)
    requires Safe(s) && i < |QueueOf(s, name)|
    ensures (exists ops :: Delivered(s, ops, QueueOf(s, name)[i])) <==> Trimmed(name) && name != []
  {
    var t := QueueOf(s, name)[i];
    assert t.queue == name by { assert t in s.queues[name]; }
    hide Safe, Trimmed, QueueOf;
    if Trimmed(name) && name != [] {
      var ops := LeaseCalls(name, i + 1);
      LeaseCallsServe(name, i + 1);
      DeliveredInTurn(s, ops, name, i);
      assert Delivered(s, ops, t);
    }
    if ops :| Delivered(s, ops, t) { DeliveredIsTrimmed(s, ops, t); }
  }

  /** An accepted task is delivered on some continuation exactly when it was enqueued under a trimmed queue name. */
  lemma AcceptedDeliverableExactly(s: State, t: Task)
    requires Safe(s) && EnqueueResult(s, t).Ok?
    ensures (exists ops :: Delivered(Enqueue(s, t), ops, t)) <==> Trimmed(t.queue)
  {
    var r, i := Enqueue(s, t), |QueueOf(s, t.queue)|;
    EnqueueSafe(s, t);
    assert QueueOf(r, t.queue) == QueueOf(s, t.queue) + [t];
    assert QueueOf(r, t.queue)[i] == t;
    assert Trim(t.queue) != [];
    TrimLaws(t.queue);
    hide Safe, Trimmed, Trim, QueueOf, Enqueue, Delivered;
    DeliverableExactly(r, t.queue, i);
  }
}
