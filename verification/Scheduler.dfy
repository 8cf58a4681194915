/** The scheduler as it runs: deques per entity and priority, and redundant depth counters, updated in place.
    Every method is proved to do what the bag-of-jobs model does, for every hash-map iteration order. */
module Scheduler {
  import opened Text
  import opened Bags
  import opened SchedulerModel
  import opened Options
  import opened Sums

  type Buckets = map<Priority, seq<Job>>
  type Queues = map<Entity, Buckets>

  // ---- representation ----------------------------------------------------------------------

  function BucketsOf(q: Queues, e: Entity): Buckets { if e in q then q[e] else map[] }

  function Bucket(b: Buckets, p: Priority): seq<Job> { if p in b then b[p] else [] }

  /** No empty deque and no empty entity is kept, and every job is filed under its own entity and priority. */
  ghost predicate Filed(q: Queues) {
    forall e :: e in q ==> q[e] != map[] && FiledUnder(q[e], e)
  }

  ghost predicate FiledUnder(b: Buckets, e: Entity) {
    forall p :: p in b ==> b[p] != [] && forall j :: j in b[p] ==> EntityOf(j) == e && j.priority == p
  }

  /** The deques hold exactly the bag. */
  ghost predicate Holds(q: Queues, pending: multiset<Job>) {
    forall j :: pending[j] == multiset(Bucket(BucketsOf(q, EntityOf(j)), j.priority))[j]
  }

  /** A counter map agrees with the bag and keeps no zero entries. */
  ghost predicate Tallies<K(!new)>(m: map<K, nat>, pending: multiset<Job>, of: K -> Job -> bool) {
    forall k :: Get(m, k) == Count(pending, of(k)) && (k in m ==> m[k] > 0)
  }

  ghost const ByPriority: Priority -> Job -> bool := p => OfPriority(p)
  ghost const ByTenant: string -> Job -> bool := t => OfTenant(t)
  ghost const ByProject: string -> Job -> bool := p => OfProject(p)

  function Increment<K>(m: map<K, nat>, k: K): map<K, nat> { m[k := Get(m, k) + 1] }

  function Decrement<K>(m: map<K, nat>, k: K): map<K, nat> {
    if k !in m then m
    else if SatSub(m[k], 1) == 0 then m - {k}
    else m[k := SatSub(m[k], 1)]
  }

  lemma TallyAdd<K(!new)>(m: map<K, nat>, pending: multiset<Job>, of: K -> Job -> bool, key: K, j: Job)
    requires Tallies(m, pending, of) && forall k :: of(k)(j) <==> k == key
    ensures Tallies(Increment(m, key), pending + multiset{j}, of)
  {
    forall k ensures Get(Increment(m, key), k) == Count(pending + multiset{j}, of(k)) {
      CountAdd(pending, of(k), j);
    }
  }

  lemma TallyRemove<K(!new)>(m: map<K, nat>, pending: multiset<Job>, of: K -> Job -> bool, key: K, j: Job)
    requires Tallies(m, pending, of) && j in pending && forall k :: of(k)(j) <==> k == key
    ensures Tallies(Decrement(m, key), pending - multiset{j}, of)
  {
    forall k ensures Get(Decrement(m, key), k) == Count(pending - multiset{j}, of(k)) {
      CountRemove(pending, of(k), j);
    }
  }

  lemma TalliesRemove(priorities: map<Priority, nat>, tenants: map<string, nat>, projects: map<string, nat>,
                      pending: multiset<Job>, j: Job)
    requires Tallies(priorities, pending, ByPriority) && Tallies(tenants, pending, ByTenant)
    requires Tallies(projects, pending, ByProject) && j in pending
    ensures Tallies(Decrement(priorities, j.priority), pending - multiset{j}, ByPriority)
    ensures Tallies(Decrement(tenants, j.tenant), pending - multiset{j}, ByTenant)
    ensures Tallies(Decrement(projects, j.project), pending - multiset{j}, ByProject)
  {
    hide Tallies, Decrement;
    TallyRemove(priorities, pending, ByPriority, j.priority, j);
    TallyRemove(tenants, pending, ByTenant, j.tenant, j);
    TallyRemove(projects, pending, ByProject, j.project, j);
  }

  lemma FiledKeys(q: Queues, pending: multiset<Job>)
    requires Filed(q) && Holds(q, pending)
    ensures q.Keys == Entities(pending)
  {
    forall e | e in q ensures e in Entities(pending) {
      var p :| p in q[e];
      var j := q[e][p][0];
      assert j in q[e][p] && j in pending;
    }
    forall j | j in pending ensures EntityOf(j) in q {
      assert j in Bucket(BucketsOf(q, EntityOf(j)), j.priority);
    }
  }

  /** Filing one more job, at either end of its deque, adds it to the bag: the end does not matter. */
  lemma PushHolds(q: Queues, pending: multiset<Job>, j: Job, longer: seq<Job>)
    requires Filed(q) && Holds(q, pending)
    requires var old_ := Bucket(BucketsOf(q, EntityOf(j)), j.priority); longer == old_ + [j] || longer == [j] + old_
    ensures var r := q[EntityOf(j) := BucketsOf(q, EntityOf(j))[j.priority := longer]];
      Filed(r) && Holds(r, pending + multiset{j})
  {
    var e := EntityOf(j);
    var buckets := BucketsOf(q, e);
    PushFiled(buckets, e, j, longer);
    var r := q[e := buckets[j.priority := longer]];
    PushCounts(q, pending, j, longer, r);
  }

  lemma PushFiled(b: Buckets, e: Entity, j: Job, longer: seq<Job>)
    requires FiledUnder(b, e) && EntityOf(j) == e
    requires longer == Bucket(b, j.priority) + [j] || longer == [j] + Bucket(b, j.priority)
    ensures FiledUnder(b[j.priority := longer], e) && b[j.priority := longer] != map[]
  {
    assert j.priority in b[j.priority := longer];
    assert forall k :: k in longer ==> k in Bucket(b, j.priority) || k == j;
  }

  lemma PushCounts(q: Queues, pending: multiset<Job>, j: Job, longer: seq<Job>, r: Queues)
    requires Holds(q, pending)
    requires r == q[EntityOf(j) := BucketsOf(q, EntityOf(j))[j.priority := longer]]
    requires var before := Bucket(BucketsOf(q, EntityOf(j)), j.priority);
      longer == before + [j] || longer == [j] + before
    ensures Holds(r, pending + multiset{j})
  {
    var before := Bucket(BucketsOf(q, EntityOf(j)), j.priority);
    assert multiset(longer) == multiset(before) + multiset{j};
    forall k ensures (pending + multiset{j})[k] == multiset(Bucket(BucketsOf(r, EntityOf(k)), k.priority))[k] {
      if EntityOf(k) == EntityOf(j) && k.priority == j.priority {
        assert Bucket(BucketsOf(r, EntityOf(k)), k.priority) == longer;
        assert Bucket(BucketsOf(q, EntityOf(k)), k.priority) == before;
      } else {
        assert k != j;
        assert Bucket(BucketsOf(r, EntityOf(k)), k.priority) == Bucket(BucketsOf(q, EntityOf(k)), k.priority);
      }
    }
  }

  // ---- one entity's queue ------------------------------------------------------------------

  lemma RemoveAt(s: seq<Job>, i: nat)
    requires i < |s|
    ensures multiset(s[..i] + s[i + 1..]) == multiset(s) - multiset{s[i]}
    ensures forall k :: k in s[..i] + s[i + 1..] ==> k in s
  {
    assert s == s[..i] + [s[i]] + s[i + 1..];
  }

  method TopPriority(b: Buckets) returns (top: Priority)
    requires b != map[]
    ensures top in b && forall p :: p in b ==> p <= top
  {
    var todo := b.Keys;
    top :| top in todo;
    todo := todo - {top};
    while todo != {}
      invariant todo <= b.Keys && top in b
      invariant forall p :: p in b && p !in todo ==> p <= top
      decreases |todo|
    {
      var p :| p in todo;
      todo := todo - {p};
      if p > top { top := p; }
    }
  }

  method EarliestIndex(queue: seq<Job>, ghost e: Entity, ghost top: Priority) returns (best: nat)
    requires queue != [] && forall j :: j in queue ==> EntityOf(j) == e && j.priority == top
    ensures best < |queue|
    ensures forall k :: k in queue && k != queue[best] ==> Urgent(queue[best], k)
  {
    best := 0;
    for i := 1 to |queue|
      invariant best < |queue|
      invariant forall k :: k in queue[..i] && k != queue[best] ==> Urgent(queue[best], k)
    {
      var b, q := queue[best], queue[i];
      assert b in queue && q in queue && queue[..i + 1] == queue[..i] + [q];
      UrgentTotal(b, q);
      if DeadlineBefore(q.deadline, b.deadline) || (q.deadline == b.deadline && Less(q.id, b.id)) {
        forall k | k in queue[..i + 1] && k != q ensures Urgent(q, k) {
          if k != b { UrgentTransitive(q, b, k); }
        }
        best := i;
      }
    }
    assert queue[..|queue|] == queue;
  }

  /** Takes the first job in (deadline, id) order from the highest non-empty priority. */
  method PopNext(b: Buckets, ghost e: Entity) returns (job: Job, rest: Buckets)
    requires b != map[] && FiledUnder(b, e)
    ensures job.priority in b && job in b[job.priority]
    ensures forall p, k :: p in b && k in b[p] && k != job ==> Urgent(job, k)
    ensures forall p, k :: p in b && k in b[p] ==> GoesFirst(job, k)
    ensures FiledUnder(rest, e)
    ensures forall p :: p != job.priority ==> Bucket(rest, p) == Bucket(b, p)
    ensures multiset(Bucket(rest, job.priority)) == multiset(b[job.priority]) - multiset{job}
  {
    var top := TopPriority(b);
    var queue := b[top];
    var best := EarliestIndex(queue, e, top);
    job := queue[best];
    var shorter := queue[..best] + queue[best + 1..];
    RemoveAt(queue, best);
    assert job in queue;
    forall p, k | p in b && k in b[p] ensures GoesFirst(job, k) { LessTotal(job.id, k.id); }
    rest := if shorter == [] then b - {top} else b[top := shorter];
  }

  method Depth(b: Buckets, ghost e: Entity, ghost pending: multiset<Job>) returns (n: nat)
    requires FiledUnder(b, e)
    requires forall j :: EntityOf(j) == e ==> pending[j] == multiset(Bucket(b, j.priority))[j]
    ensures n == Count(pending, OfEntity(e))
  {
    n := 0;
    var todo := b.Keys;
    ghost var done: set<Priority> := {};
    CountPositive(pending, InPriorities(e, done));
    hide Count, FiledUnder, Bucket, EntityOf, InPriorities;
    while todo != {}
      invariant todo + done == b.Keys && todo !! done
      invariant n == Count(pending, InPriorities(e, done))
      decreases |todo|
    {
      var p :| p in todo;
      n := n + |b[p]|;
      OneMorePriority(b, e, pending, done, p);
      todo := todo - {p};
      done := done + {p};
    }
    AllPriorities(b, e, pending);
  }

  lemma AllPriorities(b: Buckets, e: Entity, pending: multiset<Job>)
    requires forall j :: EntityOf(j) == e ==> pending[j] == multiset(Bucket(b, j.priority))[j]
    ensures Count(pending, InPriorities(e, b.Keys)) == Count(pending, OfEntity(e))
  {
    forall j | j in pending ensures InPriorities(e, b.Keys)(j) <==> OfEntity(e)(j) {
      if EntityOf(j) == e { assert j in Bucket(b, j.priority); }
    }
    CountSame(pending, InPriorities(e, b.Keys), OfEntity(e));
  }

  ghost function InPriorities(e: Entity, ps: set<Priority>): Job -> bool {
    (j: Job) => EntityOf(j) == e && j.priority in ps
  }

  lemma OneMorePriority(b: Buckets, e: Entity, pending: multiset<Job>, done: set<Priority>, p: Priority)
    requires FiledUnder(b, e) && p in b && p !in done
    requires forall j :: EntityOf(j) == e ==> pending[j] == multiset(Bucket(b, j.priority))[j]
    ensures Count(pending, InPriorities(e, done + {p})) == Count(pending, InPriorities(e, done)) + |b[p]|
  {
    BucketCount(b, e, pending, p);
    hide Count, FiledUnder, Bucket;
    CountSplit(pending, InPriorities(e, done), InPriorities(e, {p}), InPriorities(e, done + {p}));
  }

  lemma BucketCount(b: Buckets, e: Entity, pending: multiset<Job>, p: Priority)
    requires FiledUnder(b, e) && p in b
    requires forall j :: EntityOf(j) == e ==> pending[j] == multiset(Bucket(b, j.priority))[j]
    ensures Count(pending, InPriorities(e, {p})) == |b[p]|
  {
    CountListed(pending, InPriorities(e, {p}), b[p]);
  }

  // ---- the scheduler -----------------------------------------------------------------------

  datatype Reason = WeightedFairness | StarvationPrevention

  datatype Decision = QueueEmpty | Dispatched(job: Job, depthAfter: nat, reason: Reason)

  lemma ChosenGoesFirst(c: Config, s: Sched)
    requires s.pending != multiset{}
    ensures FirstOfEntity(s.pending, Chosen(c, s))
  {
    var e := Choice(c, s);
    assert IsNext(s.pending, e, Chosen(c, s));
    NextGoesFirst(s.pending, e, Chosen(c, s));
  }

  class FairScheduler {
    const config: Config
    var queues: Queues
    var totalDepth: nat
    var perPriority: map<Priority, nat>
    var perTenant: map<string, nat>
    var perProject: map<string, nat>
    var dispatchCount: nat
    var dispatchByEntity: map<Entity, nat>
    var lastDispatchRound: map<Entity, nat>
    var active: map<string, Active>
    var preemptions: map<string, nat>
    var tokens: map<string, string>
    var metrics: Metrics
    ghost var pending: multiset<Job>

    ghost function State(): Sched
      reads this
    {
      Sched(pending, dispatchCount, dispatchByEntity, lastDispatchRound, active, preemptions, tokens, metrics)
    }

    /** The deques hold the bag, and each redundant counter is a count over it. */
    ghost predicate Valid()
      reads this
    {
      && Filed(queues) && Holds(queues, pending)
      && totalDepth == |pending|
      && Tallies(perPriority, pending, ByPriority)
      && Tallies(perTenant, pending, ByTenant)
      && Tallies(perProject, pending, ByProject)
    }

    constructor (config: Config)
      ensures this.config == config && Valid() && State() == EMPTY
    {
      this.config := config;
      queues, totalDepth := map[], 0;
      perPriority, perTenant, perProject := map[], map[], map[];
      dispatchCount, dispatchByEntity, lastDispatchRound := 0, map[], map[];
      active, preemptions, tokens, metrics := map[], map[], map[], ZERO_METRICS;
      pending := multiset{};
    }

    method EvaluateAdmission(tenant: string, project: string, priority: Priority) returns (a: Admission)
      requires Valid()
      ensures a == AdmissionFor(config, State(), tenant, project, priority)
    {
      var p, t, r := Get(perPriority, priority), Get(perTenant, tenant), Get(perProject, project);
      assert p == Count(pending, ByPriority(priority)) && t == Count(pending, ByTenant(tenant))
             && r == Count(pending, ByProject(project));
      var (disposition, reason) := Rule(config, totalDepth, p, t, r);
      a := Admission(disposition, reason, totalDepth, p, t, r);
    }

    /** Files `job` and brings the four counters along. */
    method Enqueue(job: Job, front: bool)
      requires Valid()
      modifies this`queues, this`totalDepth, this`perPriority, this`perTenant, this`perProject, this`pending
      ensures Valid() && State() == old(State()).(pending := old(pending) + multiset{job})
    {
      hide Filed, Holds, Tallies, BucketsOf, Bucket;
      var e := EntityOf(job);
      var buckets := BucketsOf(queues, e);
      var queue := Bucket(buckets, job.priority);
      var longer := if front then [job] + queue else queue + [job];
      PushHolds(queues, pending, job, longer);
      CountIn(job, queues[e := buckets[job.priority := longer]]);
    }

    method CountIn(job: Job, longer: Queues)
      requires Valid() && Filed(longer) && Holds(longer, pending + multiset{job})
      modifies this`queues, this`totalDepth, this`perPriority, this`perTenant, this`perProject, this`pending
      ensures Valid() && pending == old(pending) + multiset{job}
    {
      hide Filed, Holds, Tallies, Increment;
      TallyAdd(perPriority, pending, ByPriority, job.priority, job);
      TallyAdd(perTenant, pending, ByTenant, job.tenant, job);
      TallyAdd(perProject, pending, ByProject, job.project, job);
      queues := longer;
      totalDepth := totalDepth + 1;
      perPriority := Increment(perPriority, job.priority);
      perTenant := Increment(perTenant, job.tenant);
      perProject := Increment(perProject, job.project);
      pending := pending + multiset{job};
    }

    method Submit(job: Job) returns (a: Admission)
      requires Valid()
      modifies this
      ensures Valid()
      ensures a == AdmissionFor(config, old(State()), job.tenant, job.project, job.priority)
      ensures State() == SchedulerModel.Submit(config, old(State()), job)
    {
      hide Filed, Holds, Tallies, AdmissionFor;
      a := EvaluateAdmission(job.tenant, job.project, job.priority);
      if a.disposition.Admit? { Enqueue(job, false); }
      metrics := CountAdmission(metrics, a.disposition, a.reason);
    }

    /** Total weight of the entities with work. */
    method TotalActiveWeight() returns (w: nat)
      requires Valid()
      ensures w == |Entities(pending)| * Weight(config)
    {
      hide Holds, Filed, Tallies;
      FiledKeys(queues, pending);
      w := 0;
      var todo := queues.Keys;
      while todo != {}
        invariant todo <= queues.Keys
        invariant w == (|queues.Keys| - |todo|) * Weight(config)
        decreases |todo|
      {
        var k :| k in todo;
        AddOne(|queues.Keys| - |todo|, Weight(config));
        todo := todo - {k};
        w := w + Weight(config);
      }
    }

    method FairnessLag(e: Entity) returns (lag: nat)
      requires Valid()
      ensures lag == Lag(config, State(), e)
    {
      hide LagOver, Filed, Holds, Tallies, Entities, Weight;
      var total := TotalActiveWeight();
      lag := LagOver(total, Weight(config), dispatchCount + 1, Get(dispatchByEntity, e));
    }

    /** The starving entity that has waited longest, if any is starving. */
    method PickStarving() returns (best: Option<Entity>)
      requires Valid() && pending != multiset{}
      ensures best.None? ==> forall x :: x in Entities(pending) ==> !Starving(config, State(), x)
      ensures best.Some? ==> Starving(config, State(), best.value) && IsChoice(config, State(), best.value)
    {
      hide Count, Lag, Holds, Filed, Tallies;
      FiledKeys(queues, pending);
      ghost var s := State();
      best := None;
      var todo := queues.Keys;
      while todo != {}
        invariant todo <= queues.Keys
        invariant best.None? ==> forall x :: x in queues && x !in todo ==> !Starving(config, s, x)
        invariant best.Some? ==> best.value in queues && Starving(config, s, best.value)
        invariant best.Some? ==>
          forall x :: x in queues && x !in todo && x != best.value ==> GoesBefore(config, s, best.value, x)
        decreases |todo|
      {
        var k :| k in todo;
        todo := todo - {k};
        var age := SatSub(dispatchCount + 1, Get(lastDispatchRound, k));
        if age >= config.starvationThreshold {
          if best.None? {
            best := Some(k);
          } else {
            var b := best.value;
            var bestAge := SatSub(dispatchCount + 1, Get(lastDispatchRound, b));
            GoesBeforeTotal(config, s, k, b);
            if age > bestAge || (age == bestAge && EntityLess(b, k)) {
              forall x | x in queues && x !in todo && x != k ensures GoesBefore(config, s, k, x) {
                if x != b { GoesBeforeTransitive(config, s, k, b, x); }
              }
              best := Some(k);
            }
          }
        }
      }
    }

    /** The entity furthest behind its share, when nobody starves. */
    method PickLagging() returns (best: Entity)
      requires Valid() && pending != multiset{}
      requires forall x :: x in Entities(pending) ==> !Starving(config, State(), x)
      ensures IsChoice(config, State(), best)
    {
      hide Count, Starving, Filed, Holds, Tallies, Lag, GoesBefore, Entities;
      FiledKeys(queues, pending);
      ghost var s := State();
      SomeEntity(pending);
      var todo := queues.Keys;
      best :| best in todo;
      todo := todo - {best};
      var bestLag := FairnessLag(best);
      var bestDepth := EntityDepth(best);
      while todo != {}
        invariant todo <= queues.Keys && best in queues && best !in todo
        invariant bestLag == Lag(config, s, best) && bestDepth == Count(pending, OfEntity(best))
        invariant forall x :: x in queues && x !in todo && x != best ==> GoesBefore(config, s, best, x)
        decreases |todo|
      {
        var k :| k in todo;
        assert k != best;
        todo := todo - {k};
        var lag := FairnessLag(k);
        var depth := EntityDepth(k);
        ByLag(config, s, k, best);
        if lag > bestLag || (lag == bestLag && (depth > bestDepth || (depth == bestDepth && EntityLess(best, k)))) {
          forall x | x in queues && x !in todo && x != k ensures GoesBefore(config, s, k, x) {
            if x != best { GoesBeforeTransitive(config, s, k, best, x); }
          }
          best, bestLag, bestDepth := k, lag, depth;
        }
      }
    }

    method EntityDepth(e: Entity) returns (n: nat)
      requires Valid() && e in queues
      ensures n == Count(pending, OfEntity(e))
    {
      n := Depth(queues[e], e, pending);
    }

    /** Starvation override first, then fairness lag. */
    method PickDispatchEntity() returns (e: Entity, reason: Reason)
      requires Valid() && pending != multiset{}
      ensures e == Choice(config, State()) && e in Entities(pending)
      ensures reason == if Starving(config, State(), e) then StarvationPrevention else WeightedFairness
    {
      hide GoesBefore;
      var starving := PickStarving();
      if starving.Some? {
        e, reason := starving.value, StarvationPrevention;
      } else {
        e := PickLagging();
        reason := WeightedFairness;
      }
      ChoiceUnique(config, State(), e, Choice(config, State()));
    }

    /** Takes the next job of `e` out of its deque and out of every counter. */
    method Dequeue(e: Entity) returns (job: Job)
      requires Valid() && e in Entities(pending)
      modifies this`queues, this`totalDepth, this`perPriority, this`perTenant, this`perProject, this`pending
      ensures Valid() && job == Next(old(pending), e)
      ensures State() == old(State()).(pending := old(pending) - multiset{job})
    {
      hide Filed, Holds, Tallies, BucketsOf, Bucket, Decrement, IsNext, Entities;
      FiledKeys(queues, pending);
      FiledAt(queues, e);
      var rest;
      job, rest := PopNext(queues[e], e);
      PoppedIsNext(queues, pending, e, job);
      NextUnique(pending, e, job, Next(pending, e));
      PopHolds(queues, pending, e, job, rest);
      Uncount(job, Shorter(queues, e, rest));
    }

    /** Installs the shorter queues and takes `job` out of the four counters; no subtraction can underflow. */
    method Uncount(job: Job, shorter: Queues)
      requires Valid() && job in pending && Filed(shorter) && Holds(shorter, pending - multiset{job})
      modifies this`queues, this`totalDepth, this`perPriority, this`perTenant, this`perProject, this`pending
      ensures Valid() && pending == old(pending) - multiset{job}
    {
      hide Filed, Holds, Tallies, Decrement;
      TalliesRemove(perPriority, perTenant, perProject, pending, job);
      queues := shorter;
      totalDepth := totalDepth - 1;
      perPriority := Decrement(perPriority, job.priority);
      perTenant := Decrement(perTenant, job.tenant);
      perProject := Decrement(perProject, job.project);
      pending := pending - multiset{job};
    }

    method DispatchNext() returns (d: Decision)
      requires Valid()
      modifies this
      ensures Valid() && State() == Dispatch(config, old(State()))
      ensures d.QueueEmpty? <==> old(pending) == multiset{}
      ensures d.Dispatched? ==> d.job == Chosen(config, old(State())) && d.depthAfter == |pending|
      ensures d.Dispatched? ==> FirstOfEntity(old(pending), d.job)
      ensures d.Dispatched? ==>
        (d.reason.StarvationPrevention? <==> Starving(config, old(State()), Choice(config, old(State()))))
    {
      hide Filed, Holds, Tallies, IsChoice, GoesBefore, Starving, IsNext, Entities, Dispatch, Recorded, Chosen,
        FirstOfEntity;
      ghost var s := State();
      DispatchEmpty(config, s);
      if totalDepth == 0 { return QueueEmpty; }
      var e, reason := PickDispatchEntity();
      var job := Dequeue(e);
      RecordDispatch(e, job, reason);
      d := Dispatched(job, totalDepth, reason);
      DispatchFields(config, s, e, job);
    }

    method RecordDispatch(e: Entity, job: Job, reason: Reason)
      modifies this`dispatchCount, this`dispatchByEntity, this`lastDispatchRound, this`active, this`metrics
      ensures State() == Recorded(old(State()), e, job, reason.StarvationPrevention?)
    {
      hide CountDispatch;
      dispatchCount := dispatchCount + 1;
      dispatchByEntity := dispatchByEntity[e := Get(dispatchByEntity, e) + 1];
      lastDispatchRound := lastDispatchRound[e := dispatchCount];
      metrics := CountDispatch(metrics, reason.StarvationPrevention?);
      active := active[job.id := Active(job, dispatchCount)];
    }

    method CompleteJob(id: string) returns (found: bool)
      requires Valid()
      modifies this`active
      ensures Valid() && State() == Complete(old(State()), id)
      ensures found <==> id in old(active)
    {
      found := id in active;
      active := active - {id};
    }

    method EvaluatePreemption(id: string, token: string) returns (o: PreemptionOutcome)
      ensures o == PreemptionFor(config, State(), id, token)
    {
      if token in tokens {
        o := DuplicateRequeueRequest;
      } else if id !in active {
        o := ActiveDispatchNotFound;
      } else if SatSub(dispatchCount, active[id].assignedRound) < config.minRoundsBeforePreempt {
        o := GuardrailMinRuntime;
      } else if Get(preemptions, id) >= config.maxPreemptionsPerJob {
        o := GuardrailPreemptionCap;
      } else {
        o := RebalanceOverloadedDevice;
      }
    }

    method PreemptForRebalance(id: string, token: string) returns (o: PreemptionOutcome)
      requires Valid()
      modifies this
      ensures Valid() && State() == Preempt(config, old(State()), id, token)
      ensures o == PreemptionFor(config, old(State()), id, token)
    {
      hide Filed, Holds, Tallies, CountPreemption, Preempt, PreemptionFor, Released;
      ghost var s := State();
      o := EvaluatePreemption(id, token);
      metrics := CountPreemption(metrics, o);
      PreemptFields(config, s, id, token, State());
      if o.RebalanceOverloadedDevice? {
        PreemptedIsActive(config, s, id, token);
        var job := RecordPreemption(id, token);
        Enqueue(job, true);
      }
    }

    method RecordPreemption(id: string, token: string) returns (job: Job)
      requires id in active
      modifies this`active, this`tokens, this`preemptions
      ensures job == old(active)[id].job && State() == Released(old(State()), id, token)
    {
      job := active[id].job;
      active := active - {id};
      tokens := tokens[token := id];
      preemptions := preemptions[id := Get(preemptions, id) + 1];
    }
  }

  /** Between two entities that are not starving, lag, then depth, then the larger key decides. */
  lemma ByLag(c: Config, s: Sched, a: Entity, b: Entity)
    requires !Starving(c, s, a) && !Starving(c, s, b) && a != b
    ensures var la, lb := Lag(c, s, a), Lag(c, s, b);
      var da, db := Count(s.pending, OfEntity(a)), Count(s.pending, OfEntity(b));
      && (GoesBefore(c, s, a, b) <==> la > lb || (la == lb && (da > db || (da == db && EntityLess(b, a)))))
      && (GoesBefore(c, s, b, a) <==> !GoesBefore(c, s, a, b))
  {
    GoesBeforeTotal(c, s, a, b);
  }

  lemma DispatchEmpty(c: Config, s: Sched)
    ensures s.pending == multiset{} ==> Dispatch(c, s) == s
  {}

  /** The bookkeeping half of a dispatch. */
  ghost function Recorded(s: Sched, e: Entity, j: Job, starving: bool): Sched {
    s.(round := s.round + 1,
       served := s.served[e := Get(s.served, e) + 1],
       last := s.last[e := s.round + 1],
       active := s.active[j.id := Active(j, s.round + 1)],
       metrics := CountDispatch(s.metrics, starving))
  }

  lemma DispatchFields(c: Config, s: Sched, e: Entity, j: Job)
    requires s.pending != multiset{} && e == Choice(c, s) && j == Next(s.pending, e)
    ensures Dispatch(c, s) == Recorded(s.(pending := s.pending - multiset{j}), e, j, Starving(c, s, e))
    ensures Chosen(c, s) == j && FirstOfEntity(s.pending, j)
  {
    ChosenGoesFirst(c, s);
    hide FirstOfEntity;
  }

  /** The bookkeeping half of a preemption that goes ahead. */
  ghost function Released(s: Sched, id: string, token: string): Sched {
    s.(active := s.active - {id},
       tokens := s.tokens[token := id],
       preemptions := s.preemptions[id := Get(s.preemptions, id) + 1])
  }

  lemma PreemptFields(c: Config, s: Sched, id: string, token: string, counted: Sched)
    requires counted == s.(metrics := CountPreemption(s.metrics, PreemptionFor(c, s, id, token)))
    ensures var o := PreemptionFor(c, s, id, token);
      Preempt(c, s, id, token) ==
        if o.RebalanceOverloadedDevice? then
          var r := Released(counted, id, token); r.(pending := r.pending + multiset{s.active[id].job})
        else counted
  {}

  lemma PreemptedIsActive(c: Config, s: Sched, id: string, token: string)
    requires PreemptionFor(c, s, id, token).RebalanceOverloadedDevice?
    ensures id in s.active
  {}

  lemma SomeEntity(pending: multiset<Job>)
    requires pending != multiset{}
    ensures Entities(pending) != {}
  {
    var j :| j in pending;
    assert EntityOf(j) in Entities(pending);
  }

  lemma AddOne(n: int, w: nat)
    ensures (n + 1) * w == n * w + w
  {}

  lemma FiledAt(q: Queues, e: Entity)
    requires Filed(q) && e in q
    ensures q[e] != map[] && FiledUnder(q[e], e)
  {}

  lemma PoppedIsNext(q: Queues, pending: multiset<Job>, e: Entity, job: Job)
    requires Filed(q) && Holds(q, pending) && e in q
    requires job.priority in q[e] && job in q[e][job.priority]
    requires forall p, k :: p in q[e] && k in q[e][p] && k != job ==> Urgent(job, k)
    ensures IsNext(pending, e, job) && job in pending && EntityOf(job) == e
  {
    forall k | k in pending && EntityOf(k) == e && k != job ensures Urgent(job, k) {
      assert k in Bucket(BucketsOf(q, e), k.priority);
    }
  }

  function Shorter(q: Queues, e: Entity, rest: Buckets): Queues { if rest == map[] then q - {e} else q[e := rest] }

  lemma ShorterBuckets(q: Queues, e: Entity, rest: Buckets, x: Entity)
    ensures BucketsOf(Shorter(q, e, rest), x) == if x == e then rest else BucketsOf(q, x)
  {}

  lemma PopFiled(q: Queues, e: Entity, rest: Buckets)
    requires Filed(q) && FiledUnder(rest, e)
    ensures Filed(Shorter(q, e, rest))
  {
    hide FiledUnder;
  }

  /** Popping one job takes exactly that job out of the bag the deques hold. */
  lemma PopHolds(q: Queues, pending: multiset<Job>, e: Entity, job: Job, rest: Buckets)
    requires Filed(q) && Holds(q, pending) && e in q && FiledUnder(rest, e)
    requires EntityOf(job) == e && job.priority in q[e]
    requires forall p :: p != job.priority ==> Bucket(rest, p) == Bucket(q[e], p)
    requires multiset(Bucket(rest, job.priority)) == multiset(q[e][job.priority]) - multiset{job}
    ensures Filed(Shorter(q, e, rest)) && Holds(Shorter(q, e, rest), pending - multiset{job})
  {
    PopFiled(q, e, rest);
    hide Filed, FiledUnder, Shorter;
    forall k
      ensures (pending - multiset{job})[k] ==
        multiset(Bucket(BucketsOf(Shorter(q, e, rest), EntityOf(k)), k.priority))[k]
    {
      ShorterBuckets(q, e, rest, EntityOf(k));
      assert pending[k] == multiset(Bucket(BucketsOf(q, EntityOf(k)), k.priority))[k];
      if EntityOf(k) == e && k.priority == job.priority {
        assert multiset(Bucket(rest, job.priority))[k] == (multiset(q[e][job.priority]) - multiset{job})[k];
      }
    }
  }
}
