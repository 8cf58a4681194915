/** The distributed task queue: tasks are leased under visibility timeouts and come back unless settled in time. Each
    call is one atomic step. */
module LeaseModel {
  import opened Text

  datatype Task = Task(
    queue: string, id: string, job: string, assignment: string, key: string,
    attempt: nat, maxAttempts: nat, visibilitySeconds: nat)

  datatype Lease = Lease(id: string, task: Task, worker: string, leasedAt: nat, expires: nat)

  datatype DeadLetter = DeadLetter(task: Task, reason: string, at: nat)

  datatype Error =
    | EmptyQueueName | EmptyTaskId | EmptyJobId | EmptyAssignmentId | EmptyIdempotencyKey | EmptyWorkerId
    | DuplicateTaskId | LeaseNotOwnedByWorker | InvalidVisibilityTimeout | InvalidAttempts

  /** `acked` counts successful acknowledgements; the source keeps no such counter. */
  datatype State = State(
    sequence: nat,
    queues: map<string, seq<Task>>,
    inFlight: map<string, Lease>,
    dead: seq<DeadLetter>,
    enqueued: nat, leased: nat, redelivered: nat, acked: nat)

  const EMPTY := State(0, map[], map[], [], 0, 0, 0, 0)

  const MAX_U64: nat := 0xFFFF_FFFF_FFFF_FFFF

  function SatAdd(a: nat, b: nat): nat { if a + b > MAX_U64 then MAX_U64 else a + b }

  function LeaseId(n: nat): string { "lease" + "-" + ZeroPad(n, 8) }

  function Waiting(queues: map<string, seq<Task>>, name: string): seq<Task> {
    if name in queues then queues[name] else []
  }

  function QueueOf(s: State, name: string): seq<Task> { Waiting(s.queues, name) }

  datatype Outcome<T> = Ok(value: T) | Err(error: Error)

  // ---- enqueue -----------------------------------------------------------------------------

  function Validate(t: Task): Outcome<()> {
    if Trim(t.queue) == [] then Err(EmptyQueueName)
    else if Trim(t.id) == [] then Err(EmptyTaskId)
    else if Trim(t.job) == [] then Err(EmptyJobId)
    else if Trim(t.assignment) == [] then Err(EmptyAssignmentId)
    else if Trim(t.key) == [] then Err(EmptyIdempotencyKey)
    else if t.maxAttempts == 0 || t.attempt == 0 || t.attempt > t.maxAttempts then Err(InvalidAttempts)
    else if t.visibilitySeconds == 0 then Err(InvalidVisibilityTimeout)
    else Ok(())
  }

  ghost predicate Present(s: State, queue: string, id: string) {
    || (exists t :: t in QueueOf(s, queue) && t.id == id)
    || (exists l :: l in s.inFlight && s.inFlight[l].task.id == id && s.inFlight[l].task.queue == queue)
  }

  ghost function EnqueueResult(s: State, t: Task): Outcome<()> {
    if Validate(t).Err? then Validate(t)
    else if Present(s, t.queue, t.id) then Err(DuplicateTaskId) else Ok(())
  }

  ghost function Enqueue(s: State, t: Task): State {
    var ok := EnqueueResult(s, t).Ok?;
    s.(queues := if ok then s.queues[t.queue := QueueOf(s, t.queue) + [t]] else s.queues,
       enqueued := s.enqueued + if ok then 1 else 0)
  }

  // ---- returning a task: redelivery or dead letter -------------------------------------------

  function Exhausted(t: Task): bool { t.attempt >= t.maxAttempts }

  function Retry(t: Task): Task { t.(attempt := t.attempt + 1) }

  /** Puts the task back with one more attempt, or dead-letters it when its budget is spent. */
  function Return(s: State, t: Task, reason: string, now: nat): State {
    s.(queues := if Exhausted(t) then s.queues else s.queues[t.queue := QueueOf(s, t.queue) + [Retry(t)]],
       redelivered := s.redelivered + (if Exhausted(t) then 0 else 1),
       dead := s.dead + if Exhausted(t) then [DeadLetter(t, Trim(reason), now)] else [])
  }

  function Drop(s: State, id: string): State { s.(inFlight := s.inFlight - {id}) }

  function Expired(s: State, now: nat): set<string> {
    set id | id in s.inFlight && now >= s.inFlight[id].expires
  }

  /** Expiry order: earlier deadline first, then smaller lease id. */
  predicate ExpiresBefore(s: State, a: string, b: string)
    requires a in s.inFlight && b in s.inFlight
  {
    var x, y := s.inFlight[a].expires, s.inFlight[b].expires;
    x < y || (x == y && Less(a, b))
  }

  ghost predicate IsFirst(s: State, id: string, ids: set<string>)
    requires ids <= s.inFlight.Keys
  {
    id in ids && forall x :: x in ids && x != id ==> ExpiresBefore(s, id, x)
  }

  lemma {:induction false} FirstExists(s: State, ids: set<string>)
    requires ids <= s.inFlight.Keys && ids != {}
    ensures exists id :: IsFirst(s, id, ids)
  {
    var a :| a in ids;
    if ids == {a} {
      assert IsFirst(s, a, ids);
    } else {
      assert ids - {a} != {};
      FirstExists(s, ids - {a});
      var b :| IsFirst(s, b, ids - {a});
      LessTotal(a, b);
      if ExpiresBefore(s, b, a) {
        assert IsFirst(s, b, ids);
      } else {
        forall x | x in ids && x != a ensures ExpiresBefore(s, a, x) {
          if x != b {
            assert ExpiresBefore(s, b, x);
            if Less(a, b) && Less(b, x) { LessTransitive(a, b, x); }
          }
        }
        assert IsFirst(s, a, ids);
      }
    }
  }

  lemma FirstUnique(s: State, ids: set<string>, a: string, b: string)
    requires ids <= s.inFlight.Keys && IsFirst(s, a, ids) && IsFirst(s, b, ids)
    ensures a == b
  {
    LessTotal(a, b);
  }

  ghost function First(s: State, ids: set<string>): (id: string)
    requires ids <= s.inFlight.Keys && ids != {}
    ensures IsFirst(s, id, ids)
  {
    FirstExists(s, ids);
    var id :| IsFirst(s, id, ids); id
  }

  function Expire(s: State, id: string, now: nat): State
    requires id in s.inFlight
  {
    Return(Drop(s, id), s.inFlight[id].task, "lease-expired", now)
  }

  /** Returns the tasks of the leases `ids`, in expiry order. */
  ghost function ExpireAll(s: State, ids: set<string>, now: nat): State
    requires ids <= s.inFlight.Keys
    decreases ids
  {
    if ids == {} then s else
      var id := First(s, ids);
      ExpireAll(Expire(s, id, now), ids - {id}, now)
  }

  ghost function Sweep(s: State, now: nat): State { ExpireAll(s, Expired(s, now), now) }

  // ---- lease, ack, requeue -----------------------------------------------------------------

  function LeaseOf(id: string, t: Task, worker: string, now: nat): Lease {
    Lease(id, t, Trim(worker), now, SatAdd(now, t.visibilitySeconds * 1000))
  }

  function Grant(s: State, key: string, worker: string, now: nat): State
    requires QueueOf(s, key) != []
  {
    var q := QueueOf(s, key);
    var t := q[0];
    var id := LeaseId(s.sequence + 1);
    s.(sequence := s.sequence + 1,
       queues := if |q| == 1 then s.queues - {key} else s.queues[key := q[1..]],
       inFlight := s.inFlight[id := LeaseOf(id, t, worker, now)],
       leased := s.leased + 1)
  }

  /** The answer to a lease call: an error, nothing to do, or the lease just granted. */
  ghost function LeaseAnswer(s: State, queue: string, worker: string, now: nat): Outcome<seq<Lease>> {
    if Trim(queue) == [] then Err(EmptyQueueName)
    else if Trim(worker) == [] then Err(EmptyWorkerId)
    else
      var q := QueueOf(Sweep(s, now), Trim(queue));
      Ok(if q == [] then [] else [LeaseOf(LeaseId(s.sequence + 1), q[0], worker, now)])
  }

  ghost function LeaseNext(s: State, queue: string, worker: string, now: nat): State {
    if Trim(queue) == [] || Trim(worker) == [] then s else
      var t, key := Sweep(s, now), Trim(queue);
      if QueueOf(t, key) == [] then t.(queues := t.queues[key := []]) else Grant(t, key, worker, now)
  }

  /** What a worker call on a lease is answered: an error, `false` for an unknown or expired lease, or `true`. */
  ghost function Settlement(s: State, id: string, worker: string, now: nat): Outcome<bool> {
    if Trim(worker) == [] then Err(EmptyWorkerId)
    else
      var t := Sweep(s, now);
      if id !in t.inFlight then Ok(false)
      else if t.inFlight[id].worker != Trim(worker) then Err(LeaseNotOwnedByWorker)
      else Ok(true)
  }

  ghost function Ack(s: State, id: string, worker: string, now: nat): State {
    if Trim(worker) == [] then s else
      var t := Sweep(s, now);
      if Settlement(s, id, worker, now) == Ok(true) then Drop(t, id).(acked := t.acked + 1) else t
  }

  ghost function Requeue(s: State, id: string, worker: string, reason: string, now: nat): State {
    if Trim(worker) == [] then s else
      var t := Sweep(s, now);
      if Settlement(s, id, worker, now) == Ok(true) then Return(Drop(t, id), t.inFlight[id].task, reason, now) else t
  }

  // ---- runs --------------------------------------------------------------------------------

  datatype Op =
    | DoEnqueue(task: Task)
    | DoLease(queue: string, worker: string, now: nat)
    | DoAck(id: string, worker: string, now: nat)
    | DoRequeue(id: string, worker: string, reason: string, now: nat)

  ghost function Step(s: State, op: Op): State {
    match op
    case DoEnqueue(t) => Enqueue(s, t)
    case DoLease(q, w, now) => LeaseNext(s, q, w, now)
    case DoAck(id, w, now) => Ack(s, id, w, now)
    case DoRequeue(id, w, r, now) => Requeue(s, id, w, r, now)
  }

  ghost function Run(s: State, ops: seq<Op>): State
    decreases ops
  {
    if ops == [] then s else Run(Step(s, ops[0]), ops[1..])
  }
}
