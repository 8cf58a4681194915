/** Which backlogs the admission limits let a new scheduler reach, and runs built one call at a time. */
module SchedulerRoom {
  import opened Options
  import opened Text
  import opened Bags
  import opened Sums
  import opened SchedulerModel
  import opened SchedulerFairness
  import opened SchedulerLedger

  // ---- joining runs ---------------------------------------------------------------------------

  lemma {:induction false} RunJoins(c: Config, s: Sched, a: seq<Op>, b: seq<Op>)
    ensures Run(c, s, a + b) == Run(c, Run(c, s, a), b)
    ensures FreshIds(c, s, a + b) <==> FreshIds(c, s, a) && FreshIds(c, Run(c, s, a), b)
    decreases a
  {
    hide Step;
    if a == [] {
      assert a + b == b;
    } else {
      assert (a + b)[0] == a[0] && (a + b)[1..] == a[1..] + b;
      RunJoins(c, Step(c, s, a[0]), a[1..], b);
    }
  }

  lemma {:induction false} FullJoins(c: Config, s: Sched, a: seq<Op>, b: seq<Op>, es: set<Entity>)
    ensures StaysFull(c, s, a + b, es) <==> StaysFull(c, s, a, es) && StaysFull(c, Run(c, s, a), b, es)
    decreases a
  {
    hide Step;
    if a == [] {
      assert a + b == b;
    } else {
      assert (a + b)[0] == a[0] && (a + b)[1..] == a[1..] + b;
      FullJoins(c, Step(c, s, a[0]), a[1..], b, es);
    }
  }

  lemma {:induction false} BackloggedJoins(c: Config, s: Sched, a: seq<Op>, b: seq<Op>, e: Entity, es: set<Entity>)
    ensures StaysBacklogged(c, s, a + b, e, es) <==>
      StaysBacklogged(c, s, a, e, es) && StaysBacklogged(c, Run(c, s, a), b, e, es)
    ensures Dispatches(a + b) == Dispatches(a) + Dispatches(b)
    decreases a
  {
    hide Step;
    if a == [] {
      assert a + b == b;
    } else {
      assert (a + b)[0] == a[0] && (a + b)[1..] == a[1..] + b;
      BackloggedJoins(c, Step(c, s, a[0]), a[1..], b, e, es);
    }
  }

  lemma OneOp(c: Config, s: Sched, op: Op)
    ensures Run(c, s, [op]) == Step(c, s, op)
    ensures (op.DoSubmit? ==> !Live(s, op.job.id)) ==> FreshIds(c, s, [op])
  {
    hide Step;
    assert [op][1..] == [];
    assert Run(c, Step(c, s, op), []) == Step(c, s, op);
  }

  // ---- single calls -----------------------------------------------------------------------------

  function NewJob(e: Entity, p: Priority, n: nat): Job { Job(Decimal(n), e.tenant, e.project, p, None) }

  lemma SubmitKeepsRest(c: Config, s: Sched, j: Job)
    ensures var t := Submit(c, s, j);
      t.round == s.round && t.served == s.served && t.last == s.last && t.active == s.active
  {
    hide AdmissionFor;
  }

  lemma Serves(c: Config, s: Sched, d: Entity)
    requires s.pending != multiset{} && Choice(c, s) == d
    ensures var t := Dispatch(c, s);
      && t.round == s.round + 1 && t.served == s.served[d := Get(s.served, d) + 1] && t.last == s.last[d := t.round]
      && Chosen(c, s) in s.pending && EntityOf(Chosen(c, s)) == d && t.pending == s.pending - multiset{Chosen(c, s)}
  {
    hide IsChoice, GoesBefore, Entities;
  }

  // ---- ids --------------------------------------------------------------------------------------

  ghost predicate Numbered(id: string, n: nat) { exists k: nat :: k < n && id == Decimal(k) }

  /** Every live id is one of the first `n` numbers. */
  ghost predicate Used(s: Sched, n: nat) {
    (forall j :: j in s.pending ==> Numbered(j.id, n)) && (forall id :: id in s.active ==> Numbered(id, n))
  }

  lemma NextNumberIsFresh(s: Sched, n: nat)
    requires Used(s, n)
    ensures !Live(s, Decimal(n))
  {
    if Numbered(Decimal(n), n) {
      var k: nat :| k < n && Decimal(n) == Decimal(k);
      ValueDecimal(n);
      ValueDecimal(k);
    }
  }

  lemma NumberedGrows(id: string, n: nat)
    ensures Numbered(id, n) ==> Numbered(id, n + 1)
    ensures Numbered(Decimal(n), n + 1)
  {}

  lemma UsedAfterSubmit(c: Config, s: Sched, j: Job, n: nat)
    requires Used(s, n) && j.id == Decimal(n)
    ensures Used(Submit(c, s, j), n + 1)
  {
    hide AdmissionFor, Numbered;
    forall id ensures Numbered(id, n) ==> Numbered(id, n + 1) { NumberedGrows(id, n); }
    NumberedGrows(j.id, n);
  }

  lemma UsedAfterDispatch(c: Config, s: Sched, n: nat)
    requires Used(s, n)
    ensures Used(Dispatch(c, s), n)
  {
    hide IsChoice, GoesBefore, Entities, Numbered;
  }

  // ---- room -------------------------------------------------------------------------------------

  ghost function OfTheTenant(es: set<Entity>, t: string): set<Entity> { set e | e in es && e.tenant == t }

  ghost function OfTheProject(es: set<Entity>, p: string): set<Entity> { set e | e in es && e.project == p }

  /** One job of each entity of `es` fits under the admission limits; there are 256 priorities. */
  ghost predicate Roomy(c: Config, es: set<Entity>) {
    && |es| <= c.maxTotal && |es| <= c.deferAt && |es| <= 256 * c.maxPerPriority
    && (forall e :: e in es ==> |OfTheTenant(es, e.tenant)| <= c.maxPerTenant)
    && (forall e :: e in es ==> |OfTheProject(es, e.project)| <= c.maxPerProject)
  }

  // ---- a backlog that was admitted had room -----------------------------------------------------

  /** The depths that admission alone can reach. */
  ghost predicate Limited(c: Config, pending: multiset<Job>) {
    && |pending| <= c.maxTotal && |pending| <= c.deferAt
    && (forall p: Priority :: Count(pending, OfPriority(p)) <= c.maxPerPriority)
    && (forall t :: Count(pending, OfTenant(t)) <= c.maxPerTenant)
    && (forall p :: Count(pending, OfProject(p)) <= c.maxPerProject)
  }

  lemma SubmitStaysLimited(c: Config, s: Sched, j: Job)
    requires Limited(c, s.pending)
    ensures Limited(c, Submit(c, s, j).pending)
  {
    var more := s.pending + multiset{j};
    if Submit(c, s, j).pending != s.pending {
      forall p: Priority ensures Count(more, OfPriority(p)) <= c.maxPerPriority {
        CountAdd(s.pending, OfPriority(p), j);
      }
      forall t ensures Count(more, OfTenant(t)) <= c.maxPerTenant { CountAdd(s.pending, OfTenant(t), j); }
      forall p ensures Count(more, OfProject(p)) <= c.maxPerProject { CountAdd(s.pending, OfProject(p), j); }
    }
  }

  /** A set of entities with work is no larger than the jobs behind it. */
  lemma {:induction false} ImageAtMost(pending: multiset<Job>, q: Job -> bool, part: set<Entity>)
    requires forall e :: e in part ==> exists j :: j in pending && q(j) && EntityOf(j) == e
    ensures |part| <= Count(pending, q)
    decreases |pending|
  {
    if part != {} {
      var e :| e in part;
      var j :| j in pending && q(j) && EntityOf(j) == e;
      CountRemove(pending, q, j);
      var rest := pending - multiset{j};
      forall x | x in part - {e} ensures exists k :: k in rest && q(k) && EntityOf(k) == x {
        var k :| k in pending && q(k) && EntityOf(k) == x;
        assert k in rest;
      }
      ImageAtMost(rest, q, part - {e});
    }
  }

  ghost function BelowPriority(p: nat): Job -> bool { (j: Job) => j.priority < p }

  lemma {:induction false} PrioritiesAddUp(c: Config, pending: multiset<Job>, p: nat)
    requires p <= 256 && forall q: Priority :: Count(pending, OfPriority(q)) <= c.maxPerPriority
    ensures Count(pending, BelowPriority(p)) <= p * c.maxPerPriority
  {
    if p == 0 {
      CountPositive(pending, BelowPriority(0));
    } else {
      var q: Priority := p - 1;
      PrioritiesAddUp(c, pending, p - 1);
      CountSplit(pending, BelowPriority(p - 1), OfPriority(q), BelowPriority(p));
      assert p * c.maxPerPriority == (p - 1) * c.maxPerPriority + c.maxPerPriority;
    }
  }

  lemma LimitedHasRoom(c: Config, pending: multiset<Job>)
    requires Limited(c, pending)
    ensures Roomy(c, Entities(pending))
  {
    var es := Entities(pending);
    ImageAtMost(pending, BelowPriority(256), es);
    CountAll(pending, BelowPriority(256));
    PrioritiesAddUp(c, pending, 256);
    forall e | e in es ensures |OfTheTenant(es, e.tenant)| <= c.maxPerTenant {
      ImageAtMost(pending, OfTenant(e.tenant), OfTheTenant(es, e.tenant));
    }
    forall e | e in es ensures |OfTheProject(es, e.project)| <= c.maxPerProject {
      ImageAtMost(pending, OfProject(e.project), OfTheProject(es, e.project));
    }
  }

  // ---- and a backlog with room can be admitted ----------------------------------------------------

  /** Each entity of `part` has exactly one job, at its own level. */
  ghost predicate OneEach(pending: multiset<Job>, part: set<Entity>, level: map<Entity, Priority>) {
    && Entities(pending) == part && part <= level.Keys
    && (forall j :: j in pending ==> pending[j] == 1 && j.priority == level[EntityOf(j)])
    && (forall j, k :: j in pending && k in pending && EntityOf(j) == EntityOf(k) ==> j == k)
  }

  lemma OneEachLess(pending: multiset<Job>, part: set<Entity>, level: map<Entity, Priority>, j: Job)
    requires OneEach(pending, part, level) && j in pending
    ensures OneEach(pending - multiset{j}, part - {EntityOf(j)}, level)
  {
    var rest := pending - multiset{j};
    assert forall k :: k in rest <==> k in pending && k != j;
    assert Entities(rest) == part - {EntityOf(j)};
  }

  lemma OneEachMore(pending: multiset<Job>, part: set<Entity>, level: map<Entity, Priority>, j: Job)
    requires OneEach(pending, part, level) && EntityOf(j) !in part
    requires EntityOf(j) in level && j.priority == level[EntityOf(j)]
    ensures OneEach(pending + multiset{j}, part + {EntityOf(j)}, level)
  {
    var more := pending + multiset{j};
    assert j !in pending;
    assert forall k :: k in more <==> k in pending || k == j;
    assert Entities(more) == part + {EntityOf(j)};
  }

  /** Jobs are counted by counting their entities. */
  lemma {:induction false} CountEntities(pending: multiset<Job>, part: set<Entity>, level: map<Entity, Priority>,
                                         q: Job -> bool, some: set<Entity>)
    requires OneEach(pending, part, level) && some <= part
    requires forall j :: j in pending ==> (q(j) <==> EntityOf(j) in some)
    ensures Count(pending, q) == |some|
    decreases |pending|
  {
    if pending == multiset{} {
      assert part == {};
    } else {
      var j :| j in pending;
      var rest := pending - multiset{j};
      OneEachLess(pending, part, level, j);
      assert forall k :: k in rest ==> k in pending && k != j && EntityOf(k) != EntityOf(j);
      assert EntityOf(j) in part;
      hide OneEach, Entities;
      CountEntities(rest, part - {EntityOf(j)}, level, q, some - {EntityOf(j)});
      CountRemove(pending, q, j);
    }
  }

  lemma OneEachSize(pending: multiset<Job>, part: set<Entity>, level: map<Entity, Priority>)
    requires OneEach(pending, part, level)
    ensures |pending| == |part|
    ensures forall x :: x in part ==> Count(pending, OfEntity(x)) == 1
  {
    CountAll(pending, (j: Job) => true);
    CountEntities(pending, part, level, (j: Job) => true, part);
    forall x | x in part ensures Count(pending, OfEntity(x)) == 1 {
      CountEntities(pending, part, level, OfEntity(x), {x});
    }
  }

  ghost function AtLevel(es: set<Entity>, level: map<Entity, Priority>, p: Priority): set<Entity>
    requires es <= level.Keys
  {
    set e | e in es && level[e] == p
  }

  ghost predicate Spread(es: set<Entity>, level: map<Entity, Priority>, most: nat) {
    es <= level.Keys && forall p: Priority :: |AtLevel(es, level, p)| <= most
  }

  predicate Amounts(p: nat, most: nat, r: nat, n: nat) { p * most + r == n }

  /** Levels are filled from the bottom: `p` full ones, then one with `r` entities. */
  ghost predicate FilledTo(es: set<Entity>, level: map<Entity, Priority>, most: nat, p: nat, r: nat) {
    && es <= level.Keys && Amounts(p, most, r, |es|) && r <= most
    && (forall q: Priority :: |AtLevel(es, level, q)| <= if q < p then most else if q == p then r else 0)
  }

  lemma AtLevelGrows(es: set<Entity>, level: map<Entity, Priority>, p: Priority, e: Entity, q: Priority)
    requires es <= level.Keys && e !in es
    ensures |AtLevel(es + {e}, level[e := p], q)| == |AtLevel(es, level, q)| + if q == p then 1 else 0
  {
    assert AtLevel(es + {e}, level[e := p], q) == AtLevel(es, level, q) + if q == p then {e} else {};
  }

  lemma AmountGrows(p: nat, most: nat, r: nat, n: nat)
    requires Amounts(p, most, r, n)
    ensures Amounts(p, most, r + 1, n + 1)
  {}

  lemma LevelGrows(es: set<Entity>, level: map<Entity, Priority>, most: nat, p: nat, r: nat, e: Entity)
    requires FilledTo(es, level, most, p, r) && r < most && p < 256 && e !in es
    ensures FilledTo(es + {e}, level[e := p], most, p, r + 1)
  {
    hide Amounts, AtLevel;
    AmountGrows(p, most, r, |es|);
    var more, levels := es + {e}, level[e := p];
    assert |more| == |es| + 1;
    forall q: Priority ensures |AtLevel(more, levels, q)| <= if q < p then most else if q == p then r + 1 else 0 {
      AtLevelGrows(es, level, p, e, q);
      assert |AtLevel(es, level, q)| <= if q < p then most else if q == p then r else 0;
    }
  }

  lemma LevelIsFull(es: set<Entity>, level: map<Entity, Priority>, most: nat, p: nat)
    requires FilledTo(es, level, most, p, most)
    ensures FilledTo(es, level, most, p + 1, 0)
  {
    assert (p + 1) * most == p * most + most;
  }

  lemma {:induction false} FillLevels(es: set<Entity>, most: nat) returns (level: map<Entity, Priority>, p: nat, r: nat)
    requires |es| <= 256 * most && most > 0
    ensures level.Keys == es && FilledTo(es, level, most, p, r)
    decreases |es|
  {
    if es == {} {
      level, p, r := map[], 0, 0;
      forall q: Priority ensures |AtLevel(es, level, q)| <= 0 { assert AtLevel(es, level, q) == {}; }
    } else {
      var e :| e in es;
      var rest := es - {e};
      level, p, r := FillLevels(rest, most);
      if r == most {
        LevelIsFull(rest, level, most, p);
        p, r := p + 1, 0;
      }
      BelowTop(p, r, most, |rest|);
      hide FilledTo;
      LevelGrows(rest, level, most, p, r, e);
      level, r := level[e := p], r + 1;
      assert rest + {e} == es;
    }
  }

  lemma BelowTop(p: nat, r: nat, most: nat, n: nat)
    requires p * most + r == n && n < 256 * most
    ensures p < 256
  {
    assert p >= 256 ==> p * most >= 256 * most;
  }

  lemma LevelsExist(c: Config, es: set<Entity>) returns (level: map<Entity, Priority>)
    requires Roomy(c, es)
    ensures level.Keys == es && Spread(es, level, c.maxPerPriority)
  {
    if es == {} {
      level := map[];
      forall p: Priority ensures |AtLevel(es, level, p)| <= c.maxPerPriority { assert AtLevel(es, level, p) == {}; }
    } else {
      var p, r;
      level, p, r := FillLevels(es, c.maxPerPriority);
    }
  }

  lemma Smaller(a: set<Entity>, b: set<Entity>, x: Entity)
    requires a <= b && x in b && x !in a
    ensures |a| < |b|
  {
    Subset(a, b - {x});
  }

  /** A class of entities that has room for all of its members in `es` has room for a missing one. */
  lemma ClassHasRoom(s: Sched, part: set<Entity>, level: map<Entity, Priority>, q: Job -> bool, now: set<Entity>,
                     all: set<Entity>, x: Entity)
    requires OneEach(s.pending, part, level) && now <= part && now <= all && x in all && x !in now
    requires forall j :: j in s.pending ==> (q(j) <==> EntityOf(j) in now)
    ensures Count(s.pending, q) < |all|
  {
    hide OneEach;
    CountEntities(s.pending, part, level, q, now);
    Smaller(now, all, x);
  }

  lemma BelowLimitsIsAdmitted(c: Config, s: Sched, j: Job)
    requires |s.pending| < c.maxTotal && |s.pending| < c.deferAt
    requires Count(s.pending, OfPriority(j.priority)) < c.maxPerPriority
    requires Count(s.pending, OfTenant(j.tenant)) < c.maxPerTenant
    requires Count(s.pending, OfProject(j.project)) < c.maxPerProject
    ensures Submit(c, s, j).pending == s.pending + multiset{j}
  {
    hide Count;
  }

  /** Room for all of `es` is room for a missing one. */
  lemma MissingIsAdmitted(c: Config, s: Sched, es: set<Entity>, part: set<Entity>, level: map<Entity, Priority>, j: Job)
    requires Roomy(c, es) && Spread(es, level, c.maxPerPriority) && OneEach(s.pending, part, level) && part <= es
    requires EntityOf(j) in es && EntityOf(j) !in part && j.priority == level[EntityOf(j)]
    ensures Submit(c, s, j).pending == s.pending + multiset{j}
  {
    hide Count, Submit;
    var x := EntityOf(j);
    OneEachSize(s.pending, part, level);
    Smaller(part, es, x);
    ClassHasRoom(s, part, level, OfPriority(j.priority), AtLevel(part, level, j.priority),
      AtLevel(es, level, j.priority), x);
    ClassHasRoom(s, part, level, OfTenant(j.tenant), OfTheTenant(part, j.tenant), OfTheTenant(es, j.tenant), x);
    ClassHasRoom(s, part, level, OfProject(j.project), OfTheProject(part, j.project), OfTheProject(es, j.project), x);
    BelowLimitsIsAdmitted(c, s, j);
  }
}
