/** The in-memory queue adapter, updated in place; each method does what its step of the model does. */
module LeaseQueue {
  import opened Text
  import opened LeaseModel

  class InMemoryQueueAdapter {
    var sequence: nat
    var queues: map<string, seq<Task>>
    var inFlight: map<string, Lease>
    var deadLetters: seq<DeadLetter>
    var enqueuedTotal: nat
    var leaseAcquiredTotal: nat
    var redeliveryTotal: nat
    ghost var ackedTotal: nat

    ghost function State(): State
      reads this
    {
      LeaseModel.State(sequence, queues, inFlight, deadLetters, enqueuedTotal, leaseAcquiredTotal, redeliveryTotal,
        ackedTotal)
    }

    constructor ()
      ensures State() == EMPTY
    {
      sequence, queues, inFlight, deadLetters := 0, map[], map[], [];
      enqueuedTotal, leaseAcquiredTotal, redeliveryTotal, ackedTotal := 0, 0, 0, 0;
    }

    method FindTask(queue: string, id: string) returns (found: bool)
      ensures found <==> Present(State(), queue, id)
    {
      found := false;
      var q := Waiting(queues, queue);
      for i := 0 to |q|
        invariant found <==> exists t :: t in q[..i] && t.id == id
      {
        assert q[..i + 1] == q[..i] + [q[i]];
        if q[i].id == id { found := true; }
      }
      assert q[..|q|] == q;
      var todo := inFlight.Keys;
      while todo != {}
        invariant todo <= inFlight.Keys
        invariant found <==>
          ((exists t :: t in q && t.id == id)
           || (exists l :: l in inFlight && l !in todo && inFlight[l].task.id == id && inFlight[l].task.queue == queue))
        decreases |todo|
      {
        var l :| l in todo;
        todo := todo - {l};
        if inFlight[l].task.id == id && inFlight[l].task.queue == queue { found := true; }
      }
    }

    method Enqueue(task: Task) returns (r: Outcome<()>)
      modifies this
      ensures State() == LeaseModel.Enqueue(old(State()), task)
      ensures r == EnqueueResult(old(State()), task)
    {
      hide Present;
      r := Validate(task);
      if r.Err? { return; }
      var duplicate := FindTask(task.queue, task.id);
      if duplicate { return Err(DuplicateTaskId); }
      enqueuedTotal := enqueuedTotal + 1;
      queues := queues[task.queue := Waiting(queues, task.queue) + [task]];
    }

    method QueueOrDeadLetter(task: Task, reason: string, now: nat)
      modifies this`queues, this`redeliveryTotal, this`deadLetters
      ensures State() == Return(old(State()), task, reason, now)
    {
      if task.attempt >= task.maxAttempts {
        deadLetters := deadLetters + [DeadLetter(task, Trim(reason), now)];
      } else {
        redeliveryTotal := redeliveryTotal + 1;
        queues := queues[task.queue := Waiting(queues, task.queue) + [task.(attempt := task.attempt + 1)]];
      }
    }

    /** The lease of `ids` that comes first in expiry order, found by scanning them in any order. */
    method FirstExpiring(ids: set<string>) returns (first: string)
      requires ids <= inFlight.Keys && ids != {}
      ensures first == First(State(), ids)
    {
      ghost var s := State();
      first :| first in ids;
      var todo := ids - {first};
      while todo != {}
        invariant todo <= ids && first in ids && first !in todo
        invariant IsFirst(s, first, ids - todo)
        decreases |todo|
      {
        var x :| x in todo;
        LessTotal(first, x);
        var a, b := inFlight[first].expires, inFlight[x].expires;
        if b < a || (b == a && Less(x, first)) {
          forall y | y in ids - (todo - {x}) && y != x ensures ExpiresBefore(s, x, y) {
            if y != first {
              assert ExpiresBefore(s, first, y);
              if Less(x, first) && Less(first, y) { LessTransitive(x, first, y); }
            }
          }
          first := x;
        }
        todo := todo - {x};
      }
      assert ids - todo == ids;
      FirstUnique(s, ids, first, First(s, ids));
    }

    /** Returns the task of every lease whose visibility timeout has passed, in expiry order. */
    method SweepExpiredLeases(now: nat)
      modifies this`queues, this`redeliveryTotal, this`deadLetters, this`inFlight
      ensures State() == Sweep(old(State()), now)
    {
      hide First, IsFirst, Return;
      var expired := set id | id in inFlight && now >= inFlight[id].expires;
      while expired != {}
        invariant expired <= inFlight.Keys
        invariant ExpireAll(State(), expired, now) == Sweep(old(State()), now)
        decreases |expired|
      {
        var id := FirstExpiring(expired);
        ghost var s := State();
        InSet(s, expired);
        var lease := inFlight[id];
        inFlight := inFlight - {id};
        QueueOrDeadLetter(lease.task, "lease-expired", now);
        assert State() == Expire(s, id, now);
        expired := expired - {id};
      }
    }

    method Lease(queue: string, worker: string, now: nat) returns (r: Outcome<seq<Lease>>)
      modifies this
      ensures State() == LeaseNext(old(State()), queue, worker, now)
      ensures r == LeaseAnswer(old(State()), queue, worker, now)
    {
      hide Sweep, Grant;
      if Trim(queue) == [] { return Err(EmptyQueueName); }
      if Trim(worker) == [] { return Err(EmptyWorkerId); }
      SweepExpiredLeases(now);
      var key := Trim(queue);
      if Waiting(queues, key) == [] {
        queues := queues[key := []];
        return Ok([]);
      }
      var lease := TakeFirst(key, worker, now);
      r := Ok([lease]);
    }

    method TakeFirst(key: string, worker: string, now: nat) returns (lease: LeaseModel.Lease)
      requires key in queues && queues[key] != []
      modifies this`queues, this`sequence, this`inFlight, this`leaseAcquiredTotal
      ensures State() == Grant(old(State()), key, worker, now)
      ensures lease == LeaseOf(LeaseId(old(sequence) + 1), old(queues)[key][0], worker, now)
    {
      var task, rest := queues[key][0], queues[key][1..];
      queues := if rest == [] then queues - {key} else queues[key := rest];
      sequence := sequence + 1;
      var id := LeaseId(sequence);
      lease := LeaseModel.Lease(id, task, Trim(worker), now, SatAdd(now, task.visibilitySeconds * 1000));
      inFlight := inFlight[id := lease];
      leaseAcquiredTotal := leaseAcquiredTotal + 1;
    }

    method Ack(id: string, worker: string, now: nat) returns (r: Outcome<bool>)
      modifies this
      ensures State() == LeaseModel.Ack(old(State()), id, worker, now)
      ensures r == Settlement(old(State()), id, worker, now)
    {
      hide Sweep;
      if Trim(worker) == [] { return Err(EmptyWorkerId); }
      SweepExpiredLeases(now);
      if id !in inFlight { return Ok(false); }
      if inFlight[id].worker != Trim(worker) { return Err(LeaseNotOwnedByWorker); }
      inFlight := inFlight - {id};
      ackedTotal := ackedTotal + 1;
      r := Ok(true);
    }

    method Requeue(id: string, worker: string, reason: string, now: nat) returns (r: Outcome<bool>)
      modifies this
      ensures State() == LeaseModel.Requeue(old(State()), id, worker, reason, now)
      ensures r == Settlement(old(State()), id, worker, now)
    {
      hide Sweep, Return;
      if Trim(worker) == [] { return Err(EmptyWorkerId); }
      SweepExpiredLeases(now);
      if id !in inFlight { return Ok(false); }
      var lease := inFlight[id];
      inFlight := inFlight - {id};
      if lease.worker != Trim(worker) {
        inFlight := inFlight[id := lease];
        return Err(LeaseNotOwnedByWorker);
      }
      QueueOrDeadLetter(lease.task, reason, now);
      r := Ok(true);
    }
  }

  lemma InSet(s: State, ids: set<string>)
    requires ids <= s.inFlight.Keys && ids != {}
    ensures First(s, ids) in ids
  {}
}
