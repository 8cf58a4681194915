/** Safety and the retry budget of the task queue, over every run of its calls. */
module LeaseSafety {
  import opened Text
  import opened Sums
  import opened LeaseModel

  // ---- measures ----------------------------------------------------------------------------

  /** A measure charges `queued(t)` for a waiting task and `flying(t)` for a leased one. */
  datatype Measure = Measure(queued: Task -> nat, flying: Task -> nat)

  ghost function SeqTotal(q: seq<Task>, f: Task -> nat): nat {
    if q == [] then 0 else f(q[0]) + SeqTotal(q[1..], f)
  }

  ghost function QueueTotals(s: State, f: Task -> nat): map<string, nat> {
    map n | n in s.queues :: SeqTotal(s.queues[n], f)
  }

  ghost function FlightTotals(s: State, f: Task -> nat): map<string, nat> {
    map id | id in s.inFlight :: f(s.inFlight[id].task)
  }

  ghost function Amount(s: State, m: Measure): nat {
    Total(QueueTotals(s, m.queued)) + Total(FlightTotals(s, m.flying))
  }

  lemma {:induction false} SeqTotalAppend(q: seq<Task>, t: Task, f: Task -> nat)
    ensures SeqTotal(q + [t], f) == SeqTotal(q, f) + f(t)
  {
    if q == [] {
      assert (q + [t])[1..] == [];
    } else {
      SeqTotalAppend(q[1..], t, f);
      assert (q + [t])[1..] == q[1..] + [t];
    }
  }

  lemma AmountQueue(s: State, m: Measure, name: string, q: seq<Task>)
    ensures Amount(s.(queues := s.queues[name := q]), m)
            == Amount(s, m) - SeqTotal(QueueOf(s, name), m.queued) + SeqTotal(q, m.queued)
  {
    var r := s.(queues := s.queues[name := q]);
    assert QueueTotals(r, m.queued) == QueueTotals(s, m.queued)[name := SeqTotal(q, m.queued)];
    assert FlightTotals(r, m.flying) == FlightTotals(s, m.flying);
    TotalPut(QueueTotals(s, m.queued), name, SeqTotal(q, m.queued));
  }

  lemma AmountUnqueue(s: State, m: Measure, name: string)
    ensures Amount(s.(queues := s.queues - {name}), m) == Amount(s, m) - SeqTotal(QueueOf(s, name), m.queued)
  {
    var r := s.(queues := s.queues - {name});
    assert QueueTotals(r, m.queued) == QueueTotals(s, m.queued) - {name};
    assert FlightTotals(r, m.flying) == FlightTotals(s, m.flying);
    TotalDrop(QueueTotals(s, m.queued), name);
  }

  lemma AmountDrop(s: State, m: Measure, id: string)
    requires id in s.inFlight
    ensures Amount(Drop(s, id), m) == Amount(s, m) - m.flying(s.inFlight[id].task)
  {
    var r := Drop(s, id);
    assert QueueTotals(r, m.queued) == QueueTotals(s, m.queued);
    assert FlightTotals(r, m.flying) == FlightTotals(s, m.flying) - {id};
    TotalDrop(FlightTotals(s, m.flying), id);
  }

  lemma AmountFly(s: State, m: Measure, id: string, l: Lease)
    requires id !in s.inFlight
    ensures Amount(s.(inFlight := s.inFlight[id := l]), m) == Amount(s, m) + m.flying(l.task)
  {
    var r := s.(inFlight := s.inFlight[id := l]);
    assert QueueTotals(r, m.queued) == QueueTotals(s, m.queued);
    assert FlightTotals(r, m.flying) == FlightTotals(s, m.flying)[id := m.flying(l.task)];
    TotalPut(FlightTotals(s, m.flying), id, m.flying(l.task));
  }

  lemma AmountSame(s: State, t: State, m: Measure)
    requires s.queues == t.queues && s.inFlight == t.inFlight
    ensures Amount(s, m) == Amount(t, m)
  {
    assert QueueTotals(t, m.queued) == QueueTotals(s, m.queued);
    assert FlightTotals(t, m.flying) == FlightTotals(s, m.flying);
  }

  lemma AmountPush(s: State, m: Measure, t: Task)
    ensures Amount(s.(queues := s.queues[t.queue := QueueOf(s, t.queue) + [t]]), m) == Amount(s, m) + m.queued(t)
  {
    SeqTotalAppend(QueueOf(s, t.queue), t, m.queued);
    AmountQueue(s, m, t.queue, QueueOf(s, t.queue) + [t]);
  }

  lemma AmountReturn(s: State, m: Measure, t: Task, reason: string, now: nat)
    ensures Amount(Return(s, t, reason, now), m) == Amount(s, m) + if Exhausted(t) then 0 else m.queued(Retry(t))
  {
    var r := Return(s, t, reason, now);
    if Exhausted(t) {
      AmountSame(s, r, m);
    } else {
      AmountPush(s, m, Retry(t));
      AmountSame(s.(queues := s.queues[t.queue := QueueOf(s, t.queue) + [Retry(t)]]), r, m);
    }
  }

  lemma AmountGrant(s: State, m: Measure, key: string, worker: string, now: nat)
    requires QueueOf(s, key) != [] && LeaseId(s.sequence + 1) !in s.inFlight
    ensures var t := QueueOf(s, key)[0];
      Amount(Grant(s, key, worker, now), m) == Amount(s, m) - m.queued(t) + m.flying(t)
  {
    var q := QueueOf(s, key);
    var r := Grant(s, key, worker, now);
    var popped := s.(queues := r.queues);
    if |q| == 1 {
      AmountUnqueue(s, m, key);
      assert SeqTotal(q[1..], m.queued) == 0;
    } else {
      AmountQueue(s, m, key, q[1..]);
    }
    var id := LeaseId(s.sequence + 1);
    AmountFly(popped, m, id, r.inFlight[id]);
    AmountSame(popped.(inFlight := popped.inFlight[id := r.inFlight[id]]), r, m);
  }

  // ---- the invariant -----------------------------------------------------------------------

  predicate TaskOk(t: Task) { 1 <= t.attempt <= t.maxAttempts }

  ghost predicate IsLeaseId(id: string, upTo: nat) { exists n :: 1 <= n <= upTo && id == LeaseId(n) }

  ghost function Copies(queue: string, id: string): Measure {
    var f := (t: Task) => if t.queue == queue && t.id == id then 1 else 0;
    Measure(f, f)
  }

  ghost const EVERY: Measure := Measure((t: Task) => 1, (t: Task) => 1)

  ghost const FLYING: Measure := Measure((t: Task) => 0, (t: Task) => 1)

  ghost predicate Shape(s: State) {
    && (forall n, t :: n in s.queues && t in s.queues[n] ==> t.queue == n && TaskOk(t))
    && (forall l :: l in s.inFlight ==> TaskOk(s.inFlight[l].task) && IsLeaseId(l, s.sequence))
  }

  /** Every accepted task is waiting, leased, acknowledged or dead; every lease is open, acknowledged, redelivered
      or dead. */
  ghost predicate Counted(s: State) {
    && s.enqueued == Amount(s, EVERY) + s.acked + |s.dead|
    && s.leased == s.sequence == Amount(s, FLYING) + s.acked + s.redelivered + |s.dead|
  }

  ghost predicate Unique(s: State) {
    forall queue, id :: Amount(s, Copies(queue, id)) <= 1
  }

  ghost predicate Safe(s: State) { Shape(s) && Counted(s) && Unique(s) }

  lemma LeaseIdsDiffer(m: nat, n: nat)
    requires LeaseId(m) == LeaseId(n)
    ensures m == n
  {
    NumberedIdsInjective("lease", m, "lease", n, 8);
  }

  lemma NextIdIsNew(s: State)
    requires Shape(s)
    ensures LeaseId(s.sequence + 1) !in s.inFlight
  {
    if LeaseId(s.sequence + 1) in s.inFlight {
      var n :| 1 <= n <= s.sequence && LeaseId(s.sequence + 1) == LeaseId(n);
      LeaseIdsDiffer(s.sequence + 1, n);
    }
  }

  lemma AmountSettle(s: State, m: Measure, id: string, reason: string, now: nat)
    requires id in s.inFlight
    ensures var t := s.inFlight[id].task;
      Amount(Return(Drop(s, id), t, reason, now), m)
      == Amount(s, m) - m.flying(t) + if Exhausted(t) then 0 else m.queued(Retry(t))
  {
    AmountDrop(s, m, id);
    AmountReturn(Drop(s, id), m, s.inFlight[id].task, reason, now);
  }

  lemma ReturnShape(s: State, t: Task, reason: string, now: nat)
    requires Shape(s) && TaskOk(t)
    ensures Shape(Return(s, t, reason, now))
  {
    var r := Return(s, t, reason, now);
    forall n, x | n in r.queues && x in r.queues[n] ensures x.queue == n && TaskOk(x) {
      assert x in QueueOf(s, n) || (x == Retry(t) && n == t.queue);
    }
  }

  /** Returning a leased task keeps every part of the invariant. */
  lemma ReturnSafe(s: State, id: string, reason: string, now: nat)
    requires Safe(s) && id in s.inFlight
    ensures Safe(Return(Drop(s, id), s.inFlight[id].task, reason, now))
  {
    hide Amount, Shape;
    var t := s.inFlight[id].task;
    var r := Return(Drop(s, id), t, reason, now);
    assert Shape(r) by { DropShape(s, id); ReturnShape(Drop(s, id), t, reason, now); }
    AmountSettle(s, EVERY, id, reason, now);
    AmountSettle(s, FLYING, id, reason, now);
    forall queue, tid ensures Amount(r, Copies(queue, tid)) <= 1 {
      AmountSettle(s, Copies(queue, tid), id, reason, now);
    }
  }

  lemma DropShape(s: State, id: string)
    requires Shape(s)
    ensures Shape(Drop(s, id)) && (id in s.inFlight ==> TaskOk(s.inFlight[id].task))
  {}

  lemma {:induction false} ExpireAllSafe(s: State, ids: set<string>, now: nat)
    requires Safe(s) && ids <= s.inFlight.Keys
    ensures Safe(ExpireAll(s, ids, now))
    ensures ExpireAll(s, ids, now).inFlight == s.inFlight - ids
    ensures ExpireAll(s, ids, now).sequence == s.sequence && ExpireAll(s, ids, now).leased == s.leased
    decreases ids
  {
    hide Safe;
    if ids == {} {
      assert s.inFlight - ids == s.inFlight;
    } else {
      var id := First(s, ids);
      ReturnSafe(s, id, "lease-expired", now);
      ExpireAllSafe(Expire(s, id, now), ids - {id}, now);
      assert s.inFlight - {id} - (ids - {id}) == s.inFlight - ids;
    }
  }

  lemma SweepSafe(s: State, now: nat)
    requires Safe(s)
    ensures Safe(Sweep(s, now)) && Sweep(s, now).sequence == s.sequence && Sweep(s, now).leased == s.leased
    ensures Sweep(s, now).inFlight == s.inFlight - Expired(s, now)
  {
    ExpireAllSafe(s, Expired(s, now), now);
  }

  lemma GrantShape(s: State, key: string, worker: string, now: nat)
    requires Shape(s) && QueueOf(s, key) != []
    ensures Shape(Grant(s, key, worker, now))
  {
    var q, r := QueueOf(s, key), Grant(s, key, worker, now);
    assert IsLeaseId(LeaseId(s.sequence + 1), s.sequence + 1);
    assert q[0] in s.queues[key];
    forall n, x | n in r.queues && x in r.queues[n] ensures x.queue == n && TaskOk(x) {
      assert x in s.queues[n];
    }
    forall l | l in r.inFlight ensures TaskOk(r.inFlight[l].task) && IsLeaseId(l, r.sequence) {
      if l in s.inFlight {
        var n :| 1 <= n <= s.sequence && l == LeaseId(n);
        assert n <= r.sequence;
      }
    }
  }

  lemma GrantSafe(s: State, key: string, worker: string, now: nat)
    requires Safe(s) && QueueOf(s, key) != []
    ensures Safe(Grant(s, key, worker, now))
  {
    hide Amount;
    NextIdIsNew(s);
    GrantShape(s, key, worker, now);
    var r := Grant(s, key, worker, now);
    hide Shape;
    AmountGrant(s, EVERY, key, worker, now);
    AmountGrant(s, FLYING, key, worker, now);
    forall queue, tid ensures Amount(r, Copies(queue, tid)) <= 1 {
      AmountGrant(s, Copies(queue, tid), key, worker, now);
    }
  }

  lemma EmptyQueueSafe(s: State, key: string)
    requires Safe(s) && QueueOf(s, key) == []
    ensures Safe(s.(queues := s.queues[key := []]))
  {
    hide Amount;
    var r := s.(queues := s.queues[key := []]);
    AmountQueue(s, EVERY, key, []);
    AmountQueue(s, FLYING, key, []);
    forall queue, tid ensures Amount(r, Copies(queue, tid)) <= 1 { AmountQueue(s, Copies(queue, tid), key, []); }
  }

  lemma {:induction false} SeqTotalZero(q: seq<Task>, f: Task -> nat)
    requires forall t :: t in q ==> f(t) == 0
    ensures SeqTotal(q, f) == 0
  {
    if q != [] { SeqTotalZero(q[1..], f); }
  }

  /** A task that is nowhere has no copies. */
  lemma AbsentHasNoCopies(s: State, queue: string, id: string)
    requires Shape(s) && !Present(s, queue, id)
    ensures Amount(s, Copies(queue, id)) == 0
  {
    var f := Copies(queue, id).queued;
    forall n | n in s.queues ensures SeqTotal(s.queues[n], f) == 0 {
      assert forall t :: t in s.queues[n] && t.queue == queue ==> t in QueueOf(s, queue);
      SeqTotalZero(s.queues[n], f);
    }
    SumZero(QueueTotals(s, f), s.queues.Keys);
    SumZero(FlightTotals(s, f), s.inFlight.Keys);
    assert QueueTotals(s, f).Keys == s.queues.Keys && FlightTotals(s, f).Keys == s.inFlight.Keys;
  }

  lemma EnqueueSafe(s: State, t: Task)
    requires Safe(s)
    ensures Safe(Enqueue(s, t))
  {
    var r := Enqueue(s, t);
    if EnqueueResult(s, t).Ok? {
      PushSafe(s, t, r);
    } else {
      assert r == s;
    }
  }

  lemma PushShape(s: State, t: Task, r: State)
    requires Shape(s) && TaskOk(t)
    requires r == s.(queues := s.queues[t.queue := QueueOf(s, t.queue) + [t]], enqueued := s.enqueued + 1)
    ensures Shape(r)
  {
    forall n, x | n in r.queues && x in r.queues[n] ensures x.queue == n && TaskOk(x) {
      assert x in QueueOf(s, n) || (x == t && n == t.queue);
    }
  }

  lemma PushSafe(s: State, t: Task, r: State)
    requires Safe(s) && TaskOk(t) && !Present(s, t.queue, t.id)
    requires r == s.(queues := s.queues[t.queue := QueueOf(s, t.queue) + [t]], enqueued := s.enqueued + 1)
    ensures Safe(r)
  {
    PushShape(s, t, r);
    AbsentHasNoCopies(s, t.queue, t.id);
    hide Amount, Present, Shape;
    PushAmount(s, t, r, EVERY);
    PushAmount(s, t, r, FLYING);
    forall queue, tid ensures Amount(r, Copies(queue, tid)) <= 1 { PushAmount(s, t, r, Copies(queue, tid)); }
  }

  lemma PushAmount(s: State, t: Task, r: State, m: Measure)
    requires r == s.(queues := s.queues[t.queue := QueueOf(s, t.queue) + [t]], enqueued := s.enqueued + 1)
    ensures Amount(r, m) == Amount(s, m) + m.queued(t)
  {
    AmountPush(s, m, t);
    AmountSame(s.(queues := r.queues), r, m);
  }

  lemma AckAmount(s: State, id: string, m: Measure)
    requires id in s.inFlight
    ensures Amount(Drop(s, id).(acked := s.acked + 1), m) == Amount(s, m) - m.flying(s.inFlight[id].task)
  {
    AmountDrop(s, m, id);
    AmountSame(Drop(s, id), Drop(s, id).(acked := s.acked + 1), m);
  }

  lemma ShapeSame(s: State, t: State)
    requires Shape(s) && t.queues == s.queues && t.inFlight == s.inFlight && t.sequence == s.sequence
    ensures Shape(t)
  {}

  lemma AckUnique(s: State, id: string)
    requires Unique(s) && id in s.inFlight
    ensures Unique(Drop(s, id).(acked := s.acked + 1))
  {
    hide Amount;
    var r := Drop(s, id).(acked := s.acked + 1);
    forall queue, tid ensures Amount(r, Copies(queue, tid)) <= 1 {
      AckAmount(s, id, Copies(queue, tid));
      assert Amount(s, Copies(queue, tid)) <= 1;
    }
  }

  lemma AckCounted(s: State, id: string)
    requires Counted(s) && id in s.inFlight
    ensures Counted(Drop(s, id).(acked := s.acked + 1))
  {
    hide Amount;
    AckAmount(s, id, EVERY);
    AckAmount(s, id, FLYING);
  }

  lemma AckSafe(s: State, id: string)
    requires Safe(s) && id in s.inFlight
    ensures Safe(Drop(s, id).(acked := s.acked + 1))
  {
    hide Shape, Counted, Unique;
    DropShape(s, id);
    ShapeSame(Drop(s, id), Drop(s, id).(acked := s.acked + 1));
    AckCounted(s, id);
    AckUnique(s, id);
  }

  lemma StepSafe(s: State, op: Op)
    requires Safe(s)
    ensures Safe(Step(s, op))
  {
    hide Safe, Sweep, Enqueue, Grant, Return;
    match op
    case DoEnqueue(t) => EnqueueSafe(s, t);
    case DoLease(q, w, now) =>
      SweepSafe(s, now);
      var t, key := Sweep(s, now), Trim(q);
      if QueueOf(t, key) == [] { EmptyQueueSafe(t, key); } else { GrantSafe(t, key, w, now); }
    case DoAck(id, w, now) =>
      SweepSafe(s, now);
      if id in Sweep(s, now).inFlight { AckSafe(Sweep(s, now), id); }
    case DoRequeue(id, w, r, now) =>
      SweepSafe(s, now);
      if id in Sweep(s, now).inFlight { ReturnSafe(Sweep(s, now), id, r, now); }
  }

  lemma EmptyAmount(m: Measure)
    ensures Amount(EMPTY, m) == 0
  {
    assert QueueTotals(EMPTY, m.queued) == map[] && FlightTotals(EMPTY, m.flying) == map[];
  }

  lemma EmptySafe()
    ensures Safe(EMPTY)
  {
    hide Amount;
    EmptyAmount(EVERY);
    EmptyAmount(FLYING);
    forall queue, tid ensures Amount(EMPTY, Copies(queue, tid)) <= 1 { EmptyAmount(Copies(queue, tid)); }
  }

  /** Lease safety: in every state any run can reach, a task of a queue exists at most once, attempts stay within
      their budget, and the task and lease books balance. */
  lemma {:induction false} EveryRunSafe(s: State, ops: seq<Op>)
    requires Safe(s)
    ensures Safe(Run(s, ops))
    decreases ops
  {
    hide Safe, Step;
    if ops != [] {
      StepSafe(s, ops[0]);
      EveryRunSafe(Step(s, ops[0]), ops[1..]);
    }
  }

  // ---- what uniqueness says about the queues -------------------------------------------------

  /** Nothing is waiting twice, leased twice, or waiting while leased. */
  ghost predicate OnceEach(s: State) {
    && (forall n, i, j :: n in s.queues && 0 <= i < j < |s.queues[n]| ==> s.queues[n][i].id != s.queues[n][j].id)
    && (forall a, b :: a in s.inFlight && b in s.inFlight && a != b ==>
      !SameTask(s.inFlight[a].task, s.inFlight[b].task))
    && (forall n, t, l :: n in s.queues && t in s.queues[n] && l in s.inFlight ==> !SameTask(t, s.inFlight[l].task))
  }

  predicate SameTask(a: Task, b: Task) { a.queue == b.queue && a.id == b.id }

  lemma {:induction false} OneOf(q: seq<Task>, i: nat, f: Task -> nat)
    requires i < |q|
    ensures f(q[i]) <= SeqTotal(q, f)
  {
    if i > 0 { OneOf(q[1..], i - 1, f); }
  }

  lemma {:induction false} TwoOf(q: seq<Task>, i: nat, j: nat, f: Task -> nat)
    requires i < j < |q|
    ensures f(q[i]) + f(q[j]) <= SeqTotal(q, f)
  {
    if i == 0 { OneOf(q[1..], j - 1, f); } else { TwoOf(q[1..], i - 1, j - 1, f); }
  }

  lemma PartOfTotal(m: map<string, nat>, k: string)
    ensures Get(m, k) <= Total(m)
  {
    TotalDrop(m, k);
  }

  lemma TwoParts(m: map<string, nat>, a: string, b: string)
    requires a != b
    ensures Get(m, a) + Get(m, b) <= Total(m)
  {
    TotalDrop(m, a);
    PartOfTotal(m - {a}, b);
  }

  lemma WaitingOnce(s: State, n: string, i: nat, j: nat)
    requires Safe(s) && n in s.queues && i < j < |s.queues[n]|
    ensures s.queues[n][i].id != s.queues[n][j].id
  {
    var t := s.queues[n][i];
    assert t in s.queues[n] && s.queues[n][j] in s.queues[n];
    var m := Copies(n, t.id);
    TwoOf(s.queues[n], i, j, m.queued);
    PartOfTotal(QueueTotals(s, m.queued), n);
    assert Amount(s, m) <= 1;
  }

  lemma LeasedOnce(s: State, a: string, b: string)
    requires Safe(s) && a in s.inFlight && b in s.inFlight && a != b
    ensures !SameTask(s.inFlight[a].task, s.inFlight[b].task)
  {
    var t := s.inFlight[a].task;
    var m := Copies(t.queue, t.id);
    TwoParts(FlightTotals(s, m.flying), a, b);
    assert Amount(s, m) <= 1;
  }

  lemma WaitingOrLeased(s: State, n: string, t: Task, l: string)
    requires Safe(s) && n in s.queues && t in s.queues[n] && l in s.inFlight
    ensures !SameTask(t, s.inFlight[l].task)
  {
    var m := Copies(t.queue, t.id);
    var i :| 0 <= i < |s.queues[n]| && s.queues[n][i] == t;
    OneOf(s.queues[n], i, m.queued);
    PartOfTotal(QueueTotals(s, m.queued), n);
    PartOfTotal(FlightTotals(s, m.flying), l);
    assert Amount(s, m) <= 1;
  }

  lemma SafeMeansOnce(s: State)
    requires Safe(s)
    ensures OnceEach(s)
  {
    hide Safe, SameTask;
    forall n, i, j | n in s.queues && 0 <= i < j < |s.queues[n]| ensures s.queues[n][i].id != s.queues[n][j].id {
      WaitingOnce(s, n, i, j);
    }
    forall a, b | a in s.inFlight && b in s.inFlight && a != b
      ensures !SameTask(s.inFlight[a].task, s.inFlight[b].task)
    {
      LeasedOnce(s, a, b);
    }
    forall n, t, l | n in s.queues && t in s.queues[n] && l in s.inFlight ensures !SameTask(t, s.inFlight[l].task) {
      WaitingOrLeased(s, n, t, l);
    }
  }

  // ---- the life of a lease id ----------------------------------------------------------------

  ghost function Granted(s: State, op: Op): (id: seq<string>) {
    if op.DoLease? && Step(s, op).leased > s.leased then [LeaseId(s.sequence + 1)] else []
  }

  /** The lease a call closed on behalf of its worker: a successful acknowledgement or requeue. */
  ghost function Settled(s: State, op: Op): seq<string> {
    if (op.DoAck? || op.DoRequeue?) && Settlement(s, op.id, op.worker, op.now) == Ok(true) then [op.id] else []
  }

  ghost function GrantedIn(s: State, ops: seq<Op>): seq<string>
    decreases ops
  {
    if ops == [] then [] else Granted(s, ops[0]) + GrantedIn(Step(s, ops[0]), ops[1..])
  }

  ghost function SettledIn(s: State, ops: seq<Op>): seq<string>
    decreases ops
  {
    if ops == [] then [] else Settled(s, ops[0]) + SettledIn(Step(s, ops[0]), ops[1..])
  }

  ghost predicate Distinct(ids: seq<string>) {
    forall i, j :: 0 <= i < j < |ids| ==> ids[i] != ids[j]
  }

  /** A step opens at most the next lease id, whose lease is the one the worker is handed, and otherwise only closes
      leases. */
  lemma StepLeases(s: State, op: Op)
    requires Safe(s)
    ensures var t := Step(s, op);
      && (if Granted(s, op) != [] then t.sequence == s.sequence + 1 else t.sequence == s.sequence)
      && (Granted(s, op) != [] ==>
            var id := LeaseId(s.sequence + 1);
            && id in t.inFlight && t.inFlight[id].id == id
            && LeaseAnswer(s, op.queue, op.worker, op.now) == Ok([t.inFlight[id]]))
      && (forall id :: id in t.inFlight ==> id in s.inFlight || (Granted(s, op) != [] && id == LeaseId(s.sequence + 1)))
      && (forall id :: id in Settled(s, op) ==>
        id in s.inFlight && op.now < s.inFlight[id].expires && id !in t.inFlight)
  {
    hide Safe, Sweep;
    StepSafe(s, op);
    if !op.DoEnqueue? { SweepSafe(s, op.now); }
  }

  /** Ids that a run from `s` can never see in flight again: issued, and closed. */
  ghost predicate Closed(s: State, id: string) { IsLeaseId(id, s.sequence) && id !in s.inFlight }

  lemma ClosedStays(s: State, op: Op, id: string)
    requires Safe(s) && Closed(s, id)
    ensures Closed(Step(s, op), id)
  {
    hide Safe, Step, Settled;
    StepLeases(s, op);
    var n :| 1 <= n <= s.sequence && id == LeaseId(n);
    assert 1 <= n <= Step(s, op).sequence;
    if id == LeaseId(s.sequence + 1) { LeaseIdsDiffer(n, s.sequence + 1); }
  }

  lemma {:induction false} ClosedNeverSettled(s: State, ops: seq<Op>, id: string)
    requires Safe(s) && Closed(s, id)
    ensures id !in SettledIn(s, ops)
    decreases ops
  {
    hide Safe, Step, Settled;
    if ops != [] {
      StepLeases(s, ops[0]);
      StepSafe(s, ops[0]);
      ClosedStays(s, ops[0], id);
      ClosedNeverSettled(Step(s, ops[0]), ops[1..], id);
    }
  }

  ghost predicate IssuedAfter(id: string, seq_: nat) { exists n: nat :: n > seq_ && id == LeaseId(n) }

  lemma IssuedAfterWeaken(id: string, a: nat, b: nat)
    requires IssuedAfter(id, a) && b <= a
    ensures IssuedAfter(id, b)
  {
    var n: nat :| n > a && id == LeaseId(n);
    assert n > b;
  }

  lemma NotIssuedAfter(n: nat)
    ensures !IssuedAfter(LeaseId(n), n)
  {
    if IssuedAfter(LeaseId(n), n) {
      var k: nat :| k > n && LeaseId(n) == LeaseId(k);
      LeaseIdsDiffer(n, k);
    }
  }

  lemma {:induction false} GrantsAreLater(s: State, ops: seq<Op>)
    requires Safe(s)
    ensures forall id :: id in GrantedIn(s, ops) ==> IssuedAfter(id, s.sequence)
    decreases ops
  {
    hide Safe, Step, Settled, LeaseId;
    if ops != [] {
      var t := Step(s, ops[0]);
      StepLeases(s, ops[0]);
      StepSafe(s, ops[0]);
      GrantsAreLater(t, ops[1..]);
      forall id | id in GrantedIn(s, ops) ensures IssuedAfter(id, s.sequence) {
        if id in GrantedIn(t, ops[1..]) {
          IssuedAfterWeaken(id, t.sequence, s.sequence);
        } else {
          assert id == LeaseId(s.sequence + 1);
        }
      }
    }
  }

  /** Lease ids are never reissued. */
  lemma {:induction false} LeaseIdsNeverReissued(s: State, ops: seq<Op>)
    requires Safe(s)
    ensures Distinct(GrantedIn(s, ops))
    decreases ops
  {
    hide Safe, Step, Settled, LeaseId, IssuedAfter;
    if ops != [] {
      var t, rest := Step(s, ops[0]), GrantedIn(Step(s, ops[0]), ops[1..]);
      StepLeases(s, ops[0]);
      StepSafe(s, ops[0]);
      LeaseIdsNeverReissued(t, ops[1..]);
      GrantsAreLater(t, ops[1..]);
      NotIssuedAfter(s.sequence + 1);
    }
  }

  /** Each lease is closed by its worker at most once over any run, and (`StepLeases`) only before it expires. */
  lemma {:induction false} LeaseSettledOnce(s: State, ops: seq<Op>)
    requires Safe(s)
    ensures Distinct(SettledIn(s, ops))
    decreases ops
  {
    hide Safe, Step, Settled;
    if ops != [] {
      var t := Step(s, ops[0]);
      StepLeases(s, ops[0]);
      StepSafe(s, ops[0]);
      LeaseSettledOnce(t, ops[1..]);
      SettledShort(s, ops[0]);
      if Settled(s, ops[0]) != [] {
        var id := Settled(s, ops[0])[0];
        assert id in Settled(s, ops[0]);
        InFlightIssued(s, id, t);
        ClosedNeverSettled(t, ops[1..], id);
      }
    }
  }

  lemma SettledShort(s: State, op: Op)
    ensures |Settled(s, op)| <= 1
  {}

  lemma InFlightIssued(s: State, id: string, t: State)
    requires Safe(s) && id in s.inFlight && id !in t.inFlight && t.sequence >= s.sequence
    ensures Closed(t, id)
  {
    var n :| 1 <= n <= s.sequence && id == LeaseId(n);
    assert n <= t.sequence;
  }

  // ---- the retry budget ----------------------------------------------------------------------

  /** Leases a task may still be given: all remaining attempts while waiting, one fewer once leased. */
  ghost const BUDGET: Measure := Measure(
    (t: Task) => if t.attempt <= t.maxAttempts then t.maxAttempts - t.attempt + 1 else 0,
    (t: Task) => if t.attempt <= t.maxAttempts then t.maxAttempts - t.attempt else 0)

  ghost function Budget(s: State): nat { Amount(s, BUDGET) }

  ghost function Added(s: State, op: Op): nat {
    if op.DoEnqueue? && EnqueueResult(s, op.task).Ok? then op.task.maxAttempts - op.task.attempt + 1 else 0
  }

  ghost function AddedIn(s: State, ops: seq<Op>): nat
    decreases ops
  {
    if ops == [] then 0 else Added(s, ops[0]) + AddedIn(Step(s, ops[0]), ops[1..])
  }

  /** Expiry moves tasks without spending budget. */
  lemma {:induction false} ExpiryKeepsBudget(s: State, ids: set<string>, now: nat)
    requires Safe(s) && ids <= s.inFlight.Keys
    ensures Budget(ExpireAll(s, ids, now)) == Budget(s)
    decreases ids
  {
    hide Amount, Unique, Counted;
    if ids != {} {
      var id := First(s, ids);
      AmountSettle(s, BUDGET, id, "lease-expired", now);
      ReturnSafe(s, id, "lease-expired", now);
      ExpiryKeepsBudget(Expire(s, id, now), ids - {id}, now);
    }
  }

  lemma SweepKeepsBudget(s: State, now: nat)
    requires Safe(s)
    ensures Budget(Sweep(s, now)) == Budget(s)
  {
    ExpiryKeepsBudget(s, Expired(s, now), now);
  }

  lemma GrantSpendsOne(s: State, key: string, worker: string, now: nat)
    requires Safe(s) && QueueOf(s, key) != []
    ensures Budget(Grant(s, key, worker, now)) == Budget(s) - 1
  {
    hide Amount;
    NextIdIsNew(s);
    AmountGrant(s, BUDGET, key, worker, now);
    assert QueueOf(s, key)[0] in s.queues[key];
  }

  /** A grant spends exactly one unit; an accepted task adds its attempts; nothing else adds any. */
  lemma StepBudget(s: State, op: Op)
    requires Safe(s)
    ensures Granted(s, op) != [] ==> Budget(Step(s, op)) == Budget(s) - 1
    ensures Granted(s, op) == [] ==> Budget(Step(s, op)) <= Budget(s) + Added(s, op)
    ensures op.DoRequeue? ==> Budget(Step(s, op)) == Budget(s)
    ensures |Granted(s, op)| <= 1
  {
    hide Safe, Sweep, Amount, Grant, Return;
    match op
    case DoEnqueue(t) =>
      if EnqueueResult(s, t).Ok? { PushAmount(s, t, Enqueue(s, t), BUDGET); }
    case DoLease(q, w, now) =>
      SweepSafe(s, now);
      SweepKeepsBudget(s, now);
      var t, key := Sweep(s, now), Trim(q);
      if QueueOf(t, key) == [] { AmountQueue(t, BUDGET, key, []); } else { GrantSpendsOne(t, key, w, now); }
    case DoAck(id, w, now) =>
      SweepKeepsBudget(s, now);
      if id in Sweep(s, now).inFlight { AckAmount(Sweep(s, now), id, BUDGET); }
    case DoRequeue(id, w, r, now) =>
      SweepSafe(s, now);
      SweepKeepsBudget(s, now);
      if id in Sweep(s, now).inFlight { RequeueKeepsBudget(Sweep(s, now), id, r, now); }
  }

  lemma RequeueKeepsBudget(s: State, id: string, reason: string, now: nat)
    requires Safe(s) && id in s.inFlight
    ensures Budget(Return(Drop(s, id), s.inFlight[id].task, reason, now)) == Budget(s)
  {
    hide Amount;
    AmountSettle(s, BUDGET, id, reason, now);
  }

  /** The number of leases any run grants is at most the budget it starts with plus the attempts it accepts. */
  lemma {:induction false} LeasesWithinBudget(s: State, ops: seq<Op>)
    requires Safe(s)
    ensures |GrantedIn(s, ops)| + Budget(Run(s, ops)) <= Budget(s) + AddedIn(s, ops)
    decreases ops
  {
    hide Safe, Step, Amount, Granted, Added;
    if ops != [] {
      StepSafe(s, ops[0]);
      StepBudget(s, ops[0]);
      LeasesWithinBudget(Step(s, ops[0]), ops[1..]);
    }
  }
}
