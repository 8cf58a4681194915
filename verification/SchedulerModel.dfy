/** The fair scheduler, stated over what it holds: a bag of queued jobs and the dispatch history.

    The source keeps per-entity, per-priority deques next to four depth counters. Nothing a caller can see
    depends on the order inside a deque: two jobs of one entity that tie on priority, deadline and id are
    equal. The model therefore keeps one multiset, and every depth is a count over it. */
module SchedulerModel {
  import opened Options
  import opened Text
  import opened Bags
  import opened Sums

  type Priority = p: nat | p < 256

  datatype Entity = Entity(tenant: string, project: string)

  datatype Job = Job(id: string, tenant: string, project: string, priority: Priority, deadline: Option<nat>)

  function EntityOf(j: Job): Entity { Entity(j.tenant, j.project) }

  datatype Config = Config(
    maxTotal: nat, maxPerPriority: nat, maxPerTenant: nat, maxPerProject: nat, deferAt: nat,
    tenantWeight: nat, projectWeight: nat, starvationThreshold: nat,
    minRoundsBeforePreempt: nat, maxPreemptionsPerJob: nat)

  datatype Active = Active(job: Job, assignedRound: nat)

  datatype Metrics = Metrics(
    admitted: nat, deferred: nat, rejected: nat, deniedTenant: nat, deniedProject: nat,
    dispatched: nat, starvationPrevented: nat,
    preemptionAttempted: nat, preempted: nat, requeued: nat, idempotentHits: nat)

  const ZERO_METRICS := Metrics(0, 0, 0, 0, 0, 0, 0, 0, 0, 0, 0)

  datatype Sched = Sched(
    pending: multiset<Job>,
    round: nat,
    served: map<Entity, nat>,
    last: map<Entity, nat>,
    active: map<string, Active>,
    preemptions: map<string, nat>,
    tokens: map<string, string>,
    metrics: Metrics)

  const EMPTY := Sched(multiset{}, 0, map[], map[], map[], map[], map[], ZERO_METRICS)

  // ---- depths ----------------------------------------------------------------------------

  ghost function OfPriority(p: Priority): Job -> bool { (j: Job) => j.priority == p }
  ghost function OfTenant(t: string): Job -> bool { (j: Job) => j.tenant == t }
  ghost function OfProject(p: string): Job -> bool { (j: Job) => j.project == p }
  ghost function OfEntity(e: Entity): Job -> bool { (j: Job) => EntityOf(j) == e }

  ghost function Entities(pending: multiset<Job>): set<Entity> {
    set j | j in pending :: EntityOf(j)
  }

  // ---- admission -----------------------------------------------------------------------

  datatype Disposition = Admit | Defer | Reject

  datatype AdmissionReason =
    | Accepted | DeferredHighBacklog
    | RejectedGlobalQueueLimit | RejectedPriorityQueueLimit | RejectedTenantQuota | RejectedProjectQuota

  datatype Admission = Admission(
    disposition: Disposition, reason: AdmissionReason, total: nat, priority: nat, tenant: nat, project: nat)

  function Rule(c: Config, total: nat, priority: nat, tenant: nat, project: nat): (Disposition, AdmissionReason) {
    if total >= c.maxTotal then (Reject, RejectedGlobalQueueLimit)
    else if priority >= c.maxPerPriority then (Reject, RejectedPriorityQueueLimit)
    else if tenant >= c.maxPerTenant then (Reject, RejectedTenantQuota)
    else if project >= c.maxPerProject then (Reject, RejectedProjectQuota)
    else if total >= c.deferAt then (Defer, DeferredHighBacklog)
    else (Admit, Accepted)
  }

  ghost function AdmissionFor(c: Config, s: Sched, tenant: string, project: string, p: Priority): Admission {
    var total, a := |s.pending|, Count(s.pending, OfPriority(p));
    var b, d := Count(s.pending, OfTenant(tenant)), Count(s.pending, OfProject(project));
    var (disposition, reason) := Rule(c, total, a, b, d);
    Admission(disposition, reason, total, a, b, d)
  }

  function CountAdmission(m: Metrics, disposition: Disposition, reason: AdmissionReason): Metrics {
    m.(admitted := m.admitted + (if disposition.Admit? then 1 else 0),
       deferred := m.deferred + (if disposition.Defer? then 1 else 0),
       rejected := m.rejected + (if disposition.Reject? then 1 else 0),
       deniedTenant := m.deniedTenant + (if disposition.Reject? && reason.RejectedTenantQuota? then 1 else 0),
       deniedProject := m.deniedProject + (if disposition.Reject? && reason.RejectedProjectQuota? then 1 else 0))
  }

  ghost function Submit(c: Config, s: Sched, j: Job): Sched {
    var a := AdmissionFor(c, s, j.tenant, j.project, j.priority);
    s.(pending := if a.disposition.Admit? then s.pending + multiset{j} else s.pending,
       metrics := CountAdmission(s.metrics, a.disposition, a.reason))
  }

  // ---- which job of an entity goes first ---------------------------------------------------

  predicate DeadlineBefore(a: Option<nat>, b: Option<nat>) {
    match (a, b)
    case (Some(x), Some(y)) => x < y
    case (Some(_), None) => true
    case _ => false
  }

  /** Higher priority first, then earlier deadline (none is latest), then smaller id. */
  predicate Urgent(a: Job, b: Job) {
    a.priority > b.priority
    || (a.priority == b.priority
        && (DeadlineBefore(a.deadline, b.deadline) || (a.deadline == b.deadline && Less(a.id, b.id))))
  }

  ghost predicate IsNext(pending: multiset<Job>, e: Entity, j: Job) {
    j in pending && EntityOf(j) == e
    && forall k :: k in pending && EntityOf(k) == e && k != j ==> Urgent(j, k)
  }

  lemma UrgentTotal(a: Job, b: Job)
    requires EntityOf(a) == EntityOf(b)
    ensures Urgent(a, b) || a == b || Urgent(b, a)
    ensures !(Urgent(a, b) && Urgent(b, a))
  {
    LessTotal(a.id, b.id);
  }

  lemma UrgentTransitive(a: Job, b: Job, c: Job)
    requires Urgent(a, b) && Urgent(b, c)
    ensures Urgent(a, c)
  {
    if a.priority == b.priority == c.priority && a.deadline == b.deadline == c.deadline {
      LessTransitive(a.id, b.id, c.id);
    }
  }

  lemma {:induction false} NextExists(pending: multiset<Job>, e: Entity)
    requires e in Entities(pending)
    ensures exists j :: IsNext(pending, e, j)
    decreases |pending|
  {
    var j :| j in pending && EntityOf(j) == e;
    var rest := pending[j := 0];
    assert |rest| < |pending| by { assert rest < pending; assert pending == rest + (pending - rest); }
    if e in Entities(rest) {
      NextExists(rest, e);
      var r :| IsNext(rest, e, r);
      UrgentTotal(j, r);
      if Urgent(r, j) {
        assert IsNext(pending, e, r);
      } else {
        forall k | k in pending && EntityOf(k) == e && k != j ensures Urgent(j, k) {
          assert k in rest;
          if k != r { UrgentTransitive(j, r, k); }
        }
        assert IsNext(pending, e, j);
      }
    } else {
      assert forall k :: k in pending && EntityOf(k) == e && k != j ==> k in rest;
      assert IsNext(pending, e, j);
    }
  }

  lemma NextUnique(pending: multiset<Job>, e: Entity, j: Job, k: Job)
    requires IsNext(pending, e, j) && IsNext(pending, e, k)
    ensures j == k
  {
    UrgentTotal(j, k);
  }

  /** No job of its entity has a higher priority; none of the same priority has an earlier deadline, any deadline
      coming before none; and none of the same priority and deadline has a smaller id. */
  ghost predicate GoesFirst(j: Job, k: Job) {
    && k.priority <= j.priority
    && (k.priority == j.priority && k.deadline.Some? ==>
          j.deadline.Some? && j.deadline.value <= k.deadline.value)
    && (k.priority == j.priority && k.deadline == j.deadline ==> !Less(k.id, j.id))
  }

  ghost predicate FirstOfEntity(pending: multiset<Job>, j: Job) {
    forall k :: k in pending && EntityOf(k) == EntityOf(j) ==> GoesFirst(j, k)
  }

  lemma NextGoesFirst(pending: multiset<Job>, e: Entity, j: Job)
    requires j in pending && EntityOf(j) == e
    ensures IsNext(pending, e, j) <==> FirstOfEntity(pending, j)
  {
    if IsNext(pending, e, j) {
      forall k | k in pending && EntityOf(k) == e ensures GoesFirst(j, k) { LessTotal(j.id, k.id); }
    } else {
      var k :| k in pending && EntityOf(k) == e && k != j && !Urgent(j, k);
      LessTotal(j.id, k.id);
      assert !GoesFirst(j, k);
    }
  }

  // ---- which entity goes first -----------------------------------------------------------

  predicate EntityLess(a: Entity, b: Entity) {
    Less(a.tenant, b.tenant) || (a.tenant == b.tenant && Less(a.project, b.project))
  }

  lemma EntityLessTotal(a: Entity, b: Entity)
    ensures EntityLess(a, b) || a == b || EntityLess(b, a)
    ensures !(EntityLess(a, b) && EntityLess(b, a))
  {
    LessTotal(a.tenant, b.tenant);
    LessTotal(a.project, b.project);
  }

  lemma EntityLessTransitive(a: Entity, b: Entity, c: Entity)
    requires EntityLess(a, b) && EntityLess(b, c)
    ensures EntityLess(a, c)
  {
    LessTotal(a.tenant, b.tenant);
    if Less(a.tenant, b.tenant) && Less(b.tenant, c.tenant) { LessTransitive(a.tenant, b.tenant, c.tenant); }
    if Less(a.project, b.project) && Less(b.project, c.project) { LessTransitive(a.project, b.project, c.project); }
  }

  function SatSub(a: int, b: int): nat { if a < b then 0 else a - b }

  /** Rounds since the entity was last served, at the round about to start. A never-served entity has
      waited since round zero. */
  function Age(s: Sched, e: Entity): nat { SatSub(s.round + 1, Get(s.last, e)) }

  function Weight(c: Config): nat { c.tenantWeight * c.projectWeight }

  function LagOver(total: nat, weight: nat, round: nat, served: nat): nat {
    if total == 0 then 0 else SatSub(round * weight * 1000 / total, served * 1000)
  }

  /** Milli-jobs the entity is behind an equal share of `round` dispatches among `n` backlogged entities. */
  function LagMillis(c: Config, n: nat, round: nat, served: nat): nat {
    LagOver(n * Weight(c), Weight(c), round, served)
  }

  ghost function Lag(c: Config, s: Sched, e: Entity): nat {
    LagMillis(c, |Entities(s.pending)|, s.round + 1, Get(s.served, e))
  }

  predicate Starving(c: Config, s: Sched, e: Entity) { Age(s, e) >= c.starvationThreshold }

  /** Every starving entity goes before every other; starving ones by age, the rest by lag and then depth;
      the larger key breaks ties. */
  ghost predicate GoesBefore(c: Config, s: Sched, a: Entity, b: Entity) {
    if Starving(c, s, a) != Starving(c, s, b) then Starving(c, s, a)
    else if Starving(c, s, a) then
      Age(s, a) > Age(s, b) || (Age(s, a) == Age(s, b) && EntityLess(b, a))
    else
      var la, lb := Lag(c, s, a), Lag(c, s, b);
      var da, db := Count(s.pending, OfEntity(a)), Count(s.pending, OfEntity(b));
      la > lb || (la == lb && (da > db || (da == db && EntityLess(b, a))))
  }

  ghost predicate IsChoice(c: Config, s: Sched, e: Entity) {
    e in Entities(s.pending) && forall x :: x in Entities(s.pending) && x != e ==> GoesBefore(c, s, e, x)
  }

  lemma GoesBeforeTotal(c: Config, s: Sched, a: Entity, b: Entity)
    ensures a != b ==> GoesBefore(c, s, a, b) || GoesBefore(c, s, b, a)
    ensures !(GoesBefore(c, s, a, b) && GoesBefore(c, s, b, a))
  {
    EntityLessTotal(a, b);
  }

  lemma GoesBeforeTransitive(c: Config, s: Sched, x: Entity, y: Entity, z: Entity)
    requires GoesBefore(c, s, x, y) && GoesBefore(c, s, y, z)
    ensures GoesBefore(c, s, x, z)
  {
    if EntityLess(z, y) && EntityLess(y, x) { EntityLessTransitive(z, y, x); }
  }

  lemma {:induction false} ChoiceAmong(c: Config, s: Sched, es: set<Entity>)
    requires es != {}
    ensures exists e :: e in es && forall x :: x in es && x != e ==> GoesBefore(c, s, e, x)
  {
    var a :| a in es;
    var rest := es - {a};
    if rest == {} {
      assert es == {a};
    } else {
      ChoiceAmong(c, s, rest);
      var b :| b in rest && forall x :: x in rest && x != b ==> GoesBefore(c, s, b, x);
      GoesBeforeTotal(c, s, a, b);
      if GoesBefore(c, s, a, b) {
        forall x | x in es && x != a ensures GoesBefore(c, s, a, x) {
          if x != b { GoesBeforeTransitive(c, s, a, b, x); }
        }
      } else {
        forall x | x in es && x != b ensures GoesBefore(c, s, b, x) {
        }
      }
    }
  }

  lemma ChoiceExists(c: Config, s: Sched)
    requires s.pending != multiset{}
    ensures exists e :: IsChoice(c, s, e)
  {
    var j :| j in s.pending;
    assert EntityOf(j) in Entities(s.pending);
    var es := Entities(s.pending);
    ChoiceAmong(c, s, es);
    var e :| e in es && forall x :: x in es && x != e ==> GoesBefore(c, s, e, x);
    assert IsChoice(c, s, e);
  }

  lemma ChoiceUnique(c: Config, s: Sched, a: Entity, b: Entity)
    requires IsChoice(c, s, a) && IsChoice(c, s, b)
    ensures a == b
  {
    GoesBeforeTotal(c, s, a, b);
  }

  ghost function Choice(c: Config, s: Sched): (e: Entity)
    requires s.pending != multiset{}
    ensures IsChoice(c, s, e)
  {
    ChoiceExists(c, s);
    var e :| IsChoice(c, s, e); e
  }

  ghost function Next(pending: multiset<Job>, e: Entity): (j: Job)
    requires e in Entities(pending)
    ensures IsNext(pending, e, j)
  {
    NextExists(pending, e);
    var j :| IsNext(pending, e, j); j
  }

  // ---- dispatch, completion, preemption ------------------------------------------------------

  /** The job the next dispatch hands out. */
  ghost function Chosen(c: Config, s: Sched): Job
    requires s.pending != multiset{}
  {
    Next(s.pending, Choice(c, s))
  }

  function CountDispatch(m: Metrics, starving: bool): Metrics {
    m.(dispatched := m.dispatched + 1, starvationPrevented := m.starvationPrevented + (if starving then 1 else 0))
  }

  ghost function Dispatch(c: Config, s: Sched): Sched {
    if s.pending == multiset{} then s else
      var e, j := Choice(c, s), Chosen(c, s);
      var n := s.round + 1;
      s.(pending := s.pending - multiset{j},
         round := n,
         served := s.served[e := Get(s.served, e) + 1],
         last := s.last[e := n],
         active := s.active[j.id := Active(j, n)],
         metrics := CountDispatch(s.metrics, Starving(c, s, e)))
  }

  function Complete(s: Sched, id: string): Sched { s.(active := s.active - {id}) }

  datatype PreemptionOutcome =
    | RebalanceOverloadedDevice | DuplicateRequeueRequest
    | GuardrailMinRuntime | GuardrailPreemptionCap | ActiveDispatchNotFound

  function PreemptionFor(c: Config, s: Sched, id: string, token: string): PreemptionOutcome {
    if token in s.tokens then DuplicateRequeueRequest
    else if id !in s.active then ActiveDispatchNotFound
    else if SatSub(s.round, s.active[id].assignedRound) < c.minRoundsBeforePreempt then GuardrailMinRuntime
    else if Get(s.preemptions, id) >= c.maxPreemptionsPerJob then GuardrailPreemptionCap
    else RebalanceOverloadedDevice
  }

  function CountPreemption(m: Metrics, o: PreemptionOutcome): Metrics {
    var done, hit := if o.RebalanceOverloadedDevice? then 1 else 0, if o.DuplicateRequeueRequest? then 1 else 0;
    m.(preemptionAttempted := m.preemptionAttempted + 1,
       preempted := m.preempted + done, requeued := m.requeued + done,
       idempotentHits := m.idempotentHits + hit)
  }

  /** Requeueing bypasses admission: the job goes back whatever the depths are. */
  function Preempt(c: Config, s: Sched, id: string, token: string): Sched {
    var o := PreemptionFor(c, s, id, token);
    var ok := o.RebalanceOverloadedDevice?;
    s.(active := if ok then s.active - {id} else s.active,
       tokens := if ok then s.tokens[token := id] else s.tokens,
       preemptions := if ok then s.preemptions[id := Get(s.preemptions, id) + 1] else s.preemptions,
       pending := if ok then s.pending + multiset{s.active[id].job} else s.pending,
       metrics := CountPreemption(s.metrics, o))
  }

  // ---- runs ------------------------------------------------------------------------------

  datatype Op = DoSubmit(job: Job) | DoDispatch | DoComplete(id: string) | DoPreempt(pid: string, token: string)

  ghost function Step(c: Config, s: Sched, op: Op): Sched {
    match op
    case DoSubmit(j) => Submit(c, s, j)
    case DoDispatch => Dispatch(c, s)
    case DoComplete(id) => Complete(s, id)
    case DoPreempt(id, token) => Preempt(c, s, id, token)
  }

  ghost function Run(c: Config, s: Sched, ops: seq<Op>): Sched
    decreases ops
  {
    if ops == [] then s else Run(c, Step(c, s, ops[0]), ops[1..])
  }
}
