/** The scheduler's rules in terms of the fields they read: who is admitted, who is dispatched and who is preempted,
    and what the counters of a new scheduler have counted after any calls. */
module SchedulerRules {
  import opened Text
  import opened Bags
  import opened Sums
  import opened SchedulerModel
  import opened SchedulerFairness

  // ---- dispatch ------------------------------------------------------------------------------------------

  /** A starving entity goes before one that is not; of two starving ones the longer waiting, of two others the one
      further behind and then the one with more jobs; at last the greater tenant, and in it the greater project. */
  ghost predicate Outranks(c: Config, s: Sched, a: Entity, b: Entity) {
    var waitA, waitB := s.round + 1 - Get(s.last, a), s.round + 1 - Get(s.last, b);
    var depthA, depthB := Count(s.pending, OfEntity(a)), Count(s.pending, OfEntity(b));
    var starvingA, starvingB := waitA >= c.starvationThreshold, waitB >= c.starvationThreshold;
    var keyed := (a.tenant == b.tenant || Less(b.tenant, a.tenant))
      && (a.tenant == b.tenant ==> a.project == b.project || Less(b.project, a.project));
    && (starvingB ==> starvingA && waitB <= waitA && (waitB == waitA ==> keyed))
    && (!starvingA ==>
          && Lag(c, s, b) <= Lag(c, s, a)
          && (Lag(c, s, b) == Lag(c, s, a) ==> depthB <= depthA && (depthB == depthA ==> keyed)))
  }

  lemma ChoiceOutranks(c: Config, s: Sched, e: Entity, x: Entity)
    requires Sane(s) && IsChoice(c, s, e) && x in Entities(s.pending)
    ensures Outranks(c, s, e, x)
  {
    hide Lag, Count;
    LessTotal(e.tenant, e.tenant);
    assert Age(s, e) == s.round + 1 - Get(s.last, e) && Age(s, x) == s.round + 1 - Get(s.last, x);
  }

  lemma {:induction false} RunIsSane(c: Config, s: Sched, ops: seq<Op>)
    requires Sane(s)
    ensures Sane(Run(c, s, ops))
    decreases ops
  {
    hide Step, Sane;
    if ops != [] {
      SaneStep(c, s, ops[0]);
      RunIsSane(c, Step(c, s, ops[0]), ops[1..]);
    }
  }

  /** After any calls on a new scheduler, the job the next dispatch hands out is of an entity that outranks every other
      one with work, and goes first among the jobs of that entity. */
  lemma DispatchOrder(c: Config, ops: seq<Op>, k: Job)
    requires k in Run(c, EMPTY, ops).pending
    ensures var s := Run(c, EMPTY, ops);
      var j := Chosen(c, s);
      && j in s.pending && Outranks(c, s, EntityOf(j), EntityOf(k))
      && (EntityOf(k) == EntityOf(j) ==> GoesFirst(j, k))
  {
    RunIsSane(c, EMPTY, ops);
    var s := Run(c, EMPTY, ops);
    var e, j := Choice(c, s), Chosen(c, s);
    assert EntityOf(k) in Entities(s.pending);
    hide Run, Outranks, GoesFirst, Sane, IsNext, IsChoice;
    assert j in s.pending && EntityOf(j) == e by { NextIs(s.pending, e, j); }
    ChoiceOutranks(c, s, e, EntityOf(k));
    NextGoesFirst(s.pending, e, j);
  }

  lemma NextIs(pending: multiset<Job>, e: Entity, j: Job)
    requires IsNext(pending, e, j)
    ensures j in pending && EntityOf(j) == e
  {}

  // ---- admission -----------------------------------------------------------------------------------------

  /** The first limit that is reached decides, in the order total, priority, tenant, project; only then does a high
      backlog defer. */
  lemma AdmissionByLimits(c: Config, s: Sched, tenant: string, project: string, p: Priority)
    ensures var a := AdmissionFor(c, s, tenant, project, p);
      && a.total == |s.pending|
      && a.priority == Count(s.pending, (j: Job) => j.priority == p)
      && a.tenant == Count(s.pending, (j: Job) => j.tenant == tenant)
      && a.project == Count(s.pending, (j: Job) => j.project == project)
      && (a.disposition.Reject? <==>
            a.total >= c.maxTotal || a.priority >= c.maxPerPriority || a.tenant >= c.maxPerTenant
            || a.project >= c.maxPerProject)
      && (a.disposition.Defer? ==> a.total >= c.deferAt) && (a.disposition.Admit? ==> a.total < c.deferAt)
      && (a.reason.Accepted? <==> a.disposition.Admit?) && (a.reason.DeferredHighBacklog? <==> a.disposition.Defer?)
      && (a.reason.RejectedGlobalQueueLimit? <==> a.total >= c.maxTotal)
      && (a.reason.RejectedPriorityQueueLimit? <==> a.total < c.maxTotal && a.priority >= c.maxPerPriority)
      && (a.reason.RejectedTenantQuota? ==> a.tenant >= c.maxPerTenant && a.priority < c.maxPerPriority)
      && (a.reason.RejectedProjectQuota? ==> a.project >= c.maxPerProject && a.tenant < c.maxPerTenant)
  {
    assert OfPriority(p) == (j: Job) => j.priority == p;
    assert OfTenant(tenant) == (j: Job) => j.tenant == tenant;
    assert OfProject(project) == (j: Job) => j.project == project;
  }

  // ---- preemption ----------------------------------------------------------------------------------------

  /** A preemption puts an active job back exactly when its token is new, the job has been running for the minimum
      number of dispatches and it has not been preempted too often; a refusal names the first reason. */
  lemma PreemptsExactly(c: Config, s: Sched, id: string, token: string)
    requires id in s.active ==> s.active[id].assignedRound <= s.round
    ensures var o, t := PreemptionFor(c, s, id, token), Preempt(c, s, id, token);
      var may := id in s.active && s.active[id].assignedRound + c.minRoundsBeforePreempt <= s.round;
      && (o.DuplicateRequeueRequest? <==> token in s.tokens)
      && (o.ActiveDispatchNotFound? <==> token !in s.tokens && id !in s.active)
      && (o.GuardrailMinRuntime? <==> token !in s.tokens && id in s.active && !may)
      && (o.GuardrailPreemptionCap? ==> may && Get(s.preemptions, id) >= c.maxPreemptionsPerJob)
      && (if token !in s.tokens && may && Get(s.preemptions, id) < c.maxPreemptionsPerJob then
            && t.pending == s.pending + multiset{s.active[id].job} && t.active == s.active - {id}
            && token in t.tokens && Get(t.preemptions, id) == Get(s.preemptions, id) + 1
          else
            && t.pending == s.pending && t.active == s.active && t.tokens == s.tokens
            && t.preemptions == s.preemptions)
  {}

  // ---- what the counters count -----------------------------------------------------------------------------

  function Submits(ops: seq<Op>): nat
    decreases ops
  {
    if ops == [] then 0 else (if ops[0].DoSubmit? then 1 else 0) + Submits(ops[1..])
  }

  function Preempts(ops: seq<Op>): nat
    decreases ops
  {
    if ops == [] then 0 else (if ops[0].DoPreempt? then 1 else 0) + Preempts(ops[1..])
  }

  ghost predicate Counted(m: Metrics) {
    && m.deniedTenant + m.deniedProject <= m.rejected && m.starvationPrevented <= m.dispatched
    && m.preempted + m.idempotentHits <= m.preemptionAttempted
  }

  lemma {:induction false} MetricsAddUp(c: Config, s: Sched, ops: seq<Op>)
    requires Counted(s.metrics)
    ensures var m, n := s.metrics, Run(c, s, ops).metrics;
      && n.admitted + n.deferred + n.rejected == m.admitted + m.deferred + m.rejected + Submits(ops)
      && n.preemptionAttempted == m.preemptionAttempted + Preempts(ops) && Counted(n)
    decreases ops
  {
    if ops != [] {
      StepCounts(c, s, ops[0]);
      hide Step, Counted;
      MetricsAddUp(c, Step(c, s, ops[0]), ops[1..]);
    }
  }

  lemma StepCounts(c: Config, s: Sched, op: Op)
    requires Counted(s.metrics)
    ensures var m, n := s.metrics, Step(c, s, op).metrics;
      && n.admitted + n.deferred + n.rejected == m.admitted + m.deferred + m.rejected + (if op.DoSubmit? then 1 else 0)
      && n.preemptionAttempted == m.preemptionAttempted + (if op.DoPreempt? then 1 else 0) && Counted(n)
  {
    match op
    case DoSubmit(j) =>
      var a := AdmissionFor(c, s, j.tenant, j.project, j.priority);
      hide AdmissionFor;
    case DoDispatch => hide Choice, Chosen, Starving;
    case DoComplete(_) =>
    case DoPreempt(id, token) => hide PreemptionFor;
  }

  /** A dispatch counts as preventing starvation exactly when the entity it serves has waited for the threshold. */
  lemma StarvationCounted(c: Config, s: Sched)
    requires Sane(s) && s.pending != multiset{}
    ensures var m, n := s.metrics, Dispatch(c, s).metrics;
      n.starvationPrevented == m.starvationPrevented +
        if s.round + 1 - Get(s.last, EntityOf(Chosen(c, s))) >= c.starvationThreshold then 1 else 0
  {
    var e := Choice(c, s);
    assert IsNext(s.pending, e, Chosen(c, s));
    assert Age(s, e) == s.round + 1 - Get(s.last, e);
    hide Choice, Chosen, IsChoice;
  }
}
