/** The starvation bound cannot be improved: under every configuration with room for two jobs, whatever its weights,
    a new scheduler has a run that attains it. */
module SchedulerTightness {
  import opened Bags
  import opened Sums
  import opened SchedulerModel
  import opened SchedulerFairness
  import opened SchedulerLedger
  import opened SchedulerRoom

  /** One job each of two entities fits under the admission limits. */
  predicate RoomForTwo(c: Config, a: Entity, b: Entity) {
    && c.maxTotal >= 2 && c.deferAt >= 2 && c.maxPerPriority >= 1
    && c.maxPerTenant >= (if a.tenant == b.tenant then 2 else 1)
    && c.maxPerProject >= (if a.project == b.project then 2 else 1)
  }

  lemma CountNone(q: Job -> bool)
    ensures Count(multiset{}, q) == 0
  {
    CountPositive(multiset{}, q);
  }

  lemma CountSingle(j: Job, q: Job -> bool)
    ensures Count(multiset{j}, q) == if q(j) then 1 else 0
  {
    CountNone(q);
    CountAdd(multiset{}, q, j);
    assert multiset{} + multiset{j} == multiset{j};
  }

  lemma FirstIsAdmitted(c: Config, s: Sched, j: Job, x: Entity)
    requires s.pending == multiset{} && RoomForTwo(c, EntityOf(j), x)
    ensures Submit(c, s, j).pending == multiset{j}
  {
    CountNone(OfPriority(j.priority));
    CountNone(OfTenant(j.tenant));
    CountNone(OfProject(j.project));
    assert s.pending + multiset{j} == multiset{j};
    hide Count;
  }

  lemma SecondIsAdmitted(c: Config, s: Sched, waiting: Job, j: Job)
    requires s.pending == multiset{waiting} && RoomForTwo(c, EntityOf(waiting), EntityOf(j))
    requires j.priority != waiting.priority
    ensures Submit(c, s, j).pending == multiset{waiting, j}
  {
    CountSingle(waiting, OfPriority(j.priority));
    CountSingle(waiting, OfTenant(j.tenant));
    CountSingle(waiting, OfProject(j.project));
    assert s.pending + multiset{j} == multiset{waiting, j};
    hide Count;
  }

  // ---- one pass ---------------------------------------------------------------------------------

  /** Whichever rule applies, one job of `x` goes before one job of `e`. */
  predicate Outranks(c: Config, s: Sched, x: Entity, e: Entity) {
    if Starving(c, s, e) then Age(s, x) > Age(s, e)
    else Starving(c, s, x) || (Get(s.served, x) <= Get(s.served, e) && EntityLess(e, x))
  }

  lemma LessServedLagsMore(c: Config, n: nat, round: nat, a: nat, b: nat)
    requires a <= b
    ensures LagMillis(c, n, round, a) >= LagMillis(c, n, round, b)
  {
    var w := Weight(c);
    if n * w != 0 { LagFalls(round * w * 1000 / (n * w), a, b); }
  }

  lemma LagFalls(share: nat, a: nat, b: nat)
    requires a <= b
    ensures SatSub(share, a * 1000) >= SatSub(share, b * 1000)
  {}

  lemma PairOrder(c: Config, s: Sched, waiting: Job, j: Job)
    requires s.pending == multiset{waiting, j} && EntityOf(j) != EntityOf(waiting)
    requires Outranks(c, s, EntityOf(j), EntityOf(waiting))
    ensures GoesBefore(c, s, EntityOf(j), EntityOf(waiting))
  {
    var x, e := EntityOf(j), EntityOf(waiting);
    PairDepths(waiting, j);
    if Get(s.served, x) <= Get(s.served, e) {
      LessServedLagsMore(c, |Entities(s.pending)|, s.round + 1, Get(s.served, x), Get(s.served, e));
    }
    hide Count, LagMillis, Entities;
  }

  lemma PairChoice(c: Config, s: Sched, waiting: Job, j: Job)
    requires s.pending == multiset{waiting, j} && EntityOf(j) != EntityOf(waiting)
    requires Outranks(c, s, EntityOf(j), EntityOf(waiting))
    ensures Choice(c, s) == EntityOf(j) && Chosen(c, s) == j
  {
    hide GoesBefore, Outranks;
    PairOrder(c, s, waiting, j);
    GoesBeforeTotal(c, s, EntityOf(j), EntityOf(waiting));
    assert j in s.pending && waiting in s.pending;
    assert Entities(s.pending) == {EntityOf(j), EntityOf(waiting)};
  }

  lemma PairDepths(a: Job, b: Job)
    requires EntityOf(a) != EntityOf(b)
    ensures Count(multiset{a, b}, OfEntity(EntityOf(a))) == 1 == Count(multiset{a, b}, OfEntity(EntityOf(b)))
  {
    assert multiset{a} + multiset{b} == multiset{a, b};
    CountSingle(a, OfEntity(EntityOf(a)));
    CountSingle(a, OfEntity(EntityOf(b)));
    CountAdd(multiset{a}, OfEntity(EntityOf(a)), b);
    CountAdd(multiset{a}, OfEntity(EntityOf(b)), b);
  }

  /** Only this job is queued, and the first `n` numbers may be taken. */
  ghost predicate Waits(s: Sched, waiting: Job, n: nat) { s.pending == multiset{waiting} && Used(s, n) }

  /** `ops` leads from `s` to `t`, passing `e` over `k` times and never serving it. */
  ghost predicate Passes(c: Config, s: Sched, ops: seq<Op>, t: Sched, e: Entity, es: set<Entity>, k: nat) {
    && t == Run(c, s, ops) && FreshIds(c, s, ops) && StaysBacklogged(c, s, ops, e, es)
    && Dispatches(ops) == k && Get(t.served, e) == Get(s.served, e)
  }

  lemma PassesJoin(c: Config, s: Sched, a: seq<Op>, t: Sched, b: seq<Op>, u: Sched, e: Entity, es: set<Entity>,
                   k: nat, m: nat)
    requires Passes(c, s, a, t, e, es, k) && Passes(c, t, b, u, e, es, m)
    ensures Passes(c, s, a + b, u, e, es, k + m)
  {
    hide Run, FreshIds, StaysBacklogged, Dispatches;
    RunJoins(c, s, a, b);
    BackloggedJoins(c, s, a, b, e, es);
  }

  function OtherPriority(p: Priority): Priority { if p == 0 then 1 else 0 }

  /** Submit a job of `x` and dispatch: `x` is served and `e` goes on waiting. */
  lemma PassOnce(c: Config, s: Sched, waiting: Job, x: Entity, es: set<Entity>, n: nat)
    returns (ops: seq<Op>, t: Sched)
    requires Waits(s, waiting, n) && x != EntityOf(waiting) && {x, EntityOf(waiting)} <= es
    requires RoomForTwo(c, EntityOf(waiting), x) && Outranks(c, s, x, EntityOf(waiting))
    ensures Passes(c, s, ops, t, EntityOf(waiting), es, 1) && Waits(t, waiting, n + 1)
    ensures t.round == s.round + 1 && t.last == s.last[x := t.round] && t.served == s.served[x := Get(s.served, x) + 1]
  {
    hide Submit, Dispatch, Used, RoomForTwo, Outranks, Choice, Chosen, Numbered;
    var j := NewJob(x, OtherPriority(waiting.priority), n);
    assert EntityOf(j) == x;
    SecondIsAdmitted(c, s, waiting, j);
    NextNumberIsFresh(s, n);
    UsedAfterSubmit(c, s, j, n);
    SubmitKeepsRest(c, s, j);
    var v := Submit(c, s, j);
    SameRank(c, s, v, x, EntityOf(waiting));
    PairChoice(c, v, waiting, j);
    Serves(c, v, x);
    UsedAfterDispatch(c, v, n + 1);
    t := Dispatch(c, v);
    assert multiset{waiting, j} - multiset{j} == multiset{waiting};
    ops := [DoSubmit(j), DoDispatch];
    TwoOps(c, s, waiting, j, es);
  }

  lemma SameRank(c: Config, s: Sched, v: Sched, x: Entity, e: Entity)
    requires Outranks(c, s, x, e) && v.round == s.round && v.last == s.last && v.served == s.served
    ensures Outranks(c, v, x, e)
  {}

  lemma TwoOps(c: Config, s: Sched, waiting: Job, j: Job, es: set<Entity>)
    requires !Live(s, j.id) && {EntityOf(waiting), EntityOf(j)} <= es
    requires Submit(c, s, j).pending == multiset{waiting, j}
    ensures var ops := [DoSubmit(j), DoDispatch];
      && Run(c, s, ops) == Dispatch(c, Submit(c, s, j)) && FreshIds(c, s, ops)
      && StaysBacklogged(c, s, ops, EntityOf(waiting), es) && Dispatches(ops) == 1
  {
    var ops, v, e := [DoSubmit(j), DoDispatch], Submit(c, s, j), EntityOf(waiting);
    assert waiting in v.pending && e in Entities(v.pending) && Entities(v.pending) <= es;
    hide Dispatch, Submit, Entities, Live;
    var u := Dispatch(c, v);
    assert ops[1..] == [DoDispatch] && ops[1..][1..] == [];
    assert Run(c, u, []) == u && FreshIds(c, u, []) && StaysBacklogged(c, u, [], e, es) && Dispatches([]) == 0;
    assert Run(c, v, ops[1..]) == u && FreshIds(c, v, ops[1..]) && StaysBacklogged(c, v, ops[1..], e, es);
    assert Dispatches(ops[1..]) == 1;
  }

  // ---- the run ----------------------------------------------------------------------------------

  function Patience(c: Config): nat { Max(c.starvationThreshold, 2) }

  /** While `e` is not starving, `d` is served again and again. */
  lemma {:induction false} PassForOne(c: Config, s: Sched, waiting: Job, d: Entity, es: set<Entity>, n: nat, i: nat,
                                      k: nat)
    returns (ops: seq<Op>, t: Sched)
    requires Waits(s, waiting, n) && EntityLess(EntityOf(waiting), d) && {d, EntityOf(waiting)} <= es
    requires RoomForTwo(c, EntityOf(waiting), d) && i + k <= Patience(c) - 1
    requires s.round == Patience(c) + i
    requires Get(s.last, EntityOf(waiting)) == Get(s.served, EntityOf(waiting)) == Patience(c)
    requires Get(s.served, d) == i && Get(s.last, d) == if i == 0 then 0 else s.round
    ensures Passes(c, s, ops, t, EntityOf(waiting), es, k) && Waits(t, waiting, n + k)
    ensures t.round == s.round + k && forall x :: x != d ==> (x in t.last <==> x in s.last)
    ensures Get(t.last, EntityOf(waiting)) == Patience(c)
    decreases k
  {
    hide Waits, RoomForTwo, Passes;
    var e := EntityOf(waiting);
    EntityLessTotal(e, d);
    if k == 0 {
      ops, t := [], s;
      NoPass(c, s, e, es);
    } else {
      Outranked(c, s, d, e, i);
      hide Outranks, EntityLess;
      var first, u := PassOnce(c, s, waiting, d, es, n);
      var rest;
      rest, t := PassForOne(c, u, waiting, d, es, n + 1, i + 1, k - 1);
      PassesJoin(c, s, first, u, rest, t, e, es, 1, k - 1);
      ops := first + rest;
    }
  }

  lemma NoPass(c: Config, s: Sched, e: Entity, es: set<Entity>)
    ensures Passes(c, s, [], s, e, es, 0)
  {}

  lemma Outranked(c: Config, s: Sched, d: Entity, e: Entity, i: nat)
    requires d != e && EntityLess(e, d) && i + 1 <= Patience(c) - 1
    requires s.round == Patience(c) + i && Get(s.last, e) == Get(s.served, e) == Patience(c)
    requires Get(s.served, d) == i && Get(s.last, d) == if i == 0 then 0 else s.round
    ensures Outranks(c, s, d, e)
  {
    hide EntityLess;
    assert Age(s, e) == i + 1;
  }

  /** Entities never served before, joining one at a time, all starve longer than `e`. */
  lemma {:induction false} PassForOthers(c: Config, s: Sched, waiting: Job, others: set<Entity>, es: set<Entity>,
                                         n: nat)
    returns (ops: seq<Op>, t: Sched)
    requires Waits(s, waiting, n) && EntityOf(waiting) in es && others <= es - {EntityOf(waiting)}
    requires forall x :: x in others ==> x !in s.last && RoomForTwo(c, EntityOf(waiting), x)
    requires s.round >= Patience(c) && Get(s.last, EntityOf(waiting)) == Patience(c)
    ensures Passes(c, s, ops, t, EntityOf(waiting), es, |others|)
    decreases |others|
  {
    hide Waits, RoomForTwo, Passes;
    var e := EntityOf(waiting);
    if others == {} {
      ops, t := [], s;
      NoPass(c, s, e, es);
    } else {
      var x :| x in others;
      assert Age(s, x) == s.round + 1 && Age(s, e) <= s.round && Outranks(c, s, x, e);
      hide Outranks;
      var first, u := PassOnce(c, s, waiting, x, es, n);
      var rest;
      rest, t := PassForOthers(c, u, waiting, others - {x}, es, n + 1);
      PassesJoin(c, s, first, u, rest, t, e, es, 1, |others| - 1);
      ops := first + rest;
    }
  }

  /** `e` alone, served `r` times, and waiting again. */
  ghost predicate Warm(s: Sched, e: Entity, waiting: Job, r: nat) {
    && Waits(s, waiting, r + 1) && EntityOf(waiting) == e
    && s.round == r && Get(s.served, e) == r && Get(s.last, e) == r
    && (forall x :: x != e ==> x !in s.served && x !in s.last)
  }

  lemma AloneChoice(c: Config, s: Sched, waiting: Job)
    requires s.pending == multiset{waiting}
    ensures Choice(c, s) == EntityOf(waiting) && Chosen(c, s) == waiting
  {
    hide GoesBefore;
    assert waiting in s.pending && Entities(s.pending) == {EntityOf(waiting)};
  }

  lemma WarmStep(c: Config, s: Sched, e: Entity, x: Entity, waiting: Job, r: nat) returns (ops: seq<Op>, next: Job)
    requires Warm(s, e, waiting, r) && RoomForTwo(c, e, x)
    ensures Warm(Run(c, s, ops), e, next, r + 1) && FreshIds(c, s, ops)
  {
    hide Submit, Dispatch, Used, RoomForTwo, Choice, Chosen, Numbered, Run, FreshIds;
    AloneChoice(c, s, waiting);
    Serves(c, s, e);
    UsedAfterDispatch(c, s, r + 1);
    var t := Dispatch(c, s);
    assert t.pending == multiset{};
    next := NewJob(e, 0, r + 1);
    assert EntityOf(next) == e;
    FirstIsAdmitted(c, t, next, x);
    NextNumberIsFresh(t, r + 1);
    UsedAfterSubmit(c, t, next, r + 1);
    SubmitKeepsRest(c, t, next);
    OneOp(c, s, DoDispatch);
    OneOp(c, t, DoSubmit(next));
    RunJoins(c, s, [DoDispatch], [DoSubmit(next)]);
    ops := [DoDispatch] + [DoSubmit(next)];
  }

  lemma {:induction false} WarmUp(c: Config, e: Entity, x: Entity, r: nat) returns (ops: seq<Op>, waiting: Job)
    requires RoomForTwo(c, e, x)
    ensures Warm(Run(c, EMPTY, ops), e, waiting, r) && FreshIds(c, EMPTY, ops)
  {
    hide Submit, RoomForTwo, Numbered;
    if r == 0 {
      waiting := NewJob(e, 0, 0);
      assert EntityOf(waiting) == e;
      FirstIsAdmitted(c, EMPTY, waiting, x);
      NextNumberIsFresh(EMPTY, 0);
      UsedAfterSubmit(c, EMPTY, waiting, 0);
      SubmitKeepsRest(c, EMPTY, waiting);
      OneOp(c, EMPTY, DoSubmit(waiting));
      ops := [DoSubmit(waiting)];
    } else {
      hide Warm, Run, FreshIds;
      var most, last := WarmUp(c, e, x, r - 1);
      var more;
      more, waiting := WarmStep(c, Run(c, EMPTY, most), e, x, last, r - 1);
      RunJoins(c, EMPTY, most, more);
      ops := most + more;
    }
  }

  lemma TwoEntities(es: set<Entity>) returns (e: Entity, d: Entity)
    requires |es| >= 2
    ensures e in es && d in es && e != d && EntityLess(e, d)
  {
    var a :| a in es;
    assert |es - {a}| == |es| - 1;
    var b :| b in es - {a};
    EntityLessTotal(a, b);
    if EntityLess(a, b) { e, d := a, b; } else { e, d := b, a; }
  }

  /** A new scheduler attains the number of passes `BoundedStarvation` allows, under fresh ids, for any weights and any
      threshold: `ops` follows `before` and passes `e` over without serving it. */
  lemma StarvationBoundIsTight(c: Config, es: set<Entity>) returns (before: seq<Op>, ops: seq<Op>, e: Entity)
    requires |es| >= 2 && forall a, b :: a in es && b in es && a != b ==> RoomForTwo(c, a, b)
    ensures var s := Run(c, EMPTY, before);
      && e in es && StaysBacklogged(c, s, ops, e, es) && Get(Run(c, s, ops).served, e) == Get(s.served, e)
      && Dispatches(ops) == Max(c.starvationThreshold, 2) + |es| - 3
      && FreshIds(c, EMPTY, before + ops)
  {
    var d, waiting, n;
    e, d := TwoEntities(es);
    hide RoomForTwo, Run, FreshIds, StaysBacklogged, Dispatches, EntityLess, Passes, Waits;
    before, waiting := WarmUp(c, e, d, Patience(c));
    var s := Run(c, EMPTY, before);
    n := Patience(c) + 1;
    var first, t := PassForOne(c, s, waiting, d, es, n, 0, Patience(c) - 1);
    var others := es - {e, d};
    assert |others| == |es| - 2;
    var second, u := PassForOthers(c, t, waiting, others, es, n + Patience(c) - 1);
    ops := first + second;
    PassesJoin(c, s, first, t, second, u, e, es, Patience(c) - 1, |others|);
    PassesMeans(c, s, ops, u, e, es, Patience(c) - 1 + |others|);
    RunJoins(c, EMPTY, before, ops);
  }

  lemma PassesMeans(c: Config, s: Sched, ops: seq<Op>, t: Sched, e: Entity, es: set<Entity>, k: nat)
    requires Passes(c, s, ops, t, e, es, k)
    ensures t == Run(c, s, ops) && FreshIds(c, s, ops) && StaysBacklogged(c, s, ops, e, es)
    ensures Dispatches(ops) == k && Get(t.served, e) == Get(s.served, e)
  {}
}
