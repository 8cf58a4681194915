/** What the dispatch order guarantees over whole runs: how long a backlogged entity can be passed over, and
    how far apart the shares of equally weighted entities can drift. */
module SchedulerFairness {
  import opened SchedulerModel
  import opened Sums

  ghost function Dispatches(ops: seq<Op>): nat {
    if ops == [] then 0 else (if ops[0].DoDispatch? then 1 else 0) + Dispatches(ops[1..])
  }

  /** No entity claims a service round that has not happened yet. */
  ghost predicate Sane(s: Sched) { forall e :: e in s.last ==> s.last[e] <= s.round }

  lemma SaneStep(c: Config, s: Sched, op: Op)
    requires Sane(s)
    ensures Sane(Step(c, s, op))
  {}

  function Max(a: int, b: int): int { if a < b then b else a }

  // ---- starvation --------------------------------------------------------------------------

  /** At every dispatch of the run, `e` has work and all entities with work lie in `es`. */
  ghost predicate StaysBacklogged(c: Config, s: Sched, ops: seq<Op>, e: Entity, es: set<Entity>)
    decreases ops
  {
    ops != [] ==>
      && (ops[0].DoDispatch? ==> e in Entities(s.pending) && Entities(s.pending) <= es)
      && StaysBacklogged(c, Step(c, s, ops[0]), ops[1..], e, es)
  }

  ghost predicate Older(s: Sched, x: Entity, e: Entity) {
    var lx, le := Get(s.last, x), Get(s.last, e);
    lx < le || (lx == le && EntityLess(e, x))
  }

  /** The entities the starvation rule would serve before `e`. */
  ghost function Ahead(s: Sched, e: Entity, es: set<Entity>): set<Entity> {
    set x | x in es && x != e && Older(s, x, e)
  }

  /** Rounds until `e` starves, plus the entities ahead of it once it does. */
  ghost function Wait(c: Config, s: Sched, e: Entity, es: set<Entity>): nat {
    SatSub(c.starvationThreshold - 1, s.round - Get(s.last, e)) + |Ahead(s, e, es)|
  }

  lemma ServedGrows(c: Config, s: Sched, op: Op, e: Entity)
    ensures Get(s.served, e) <= Get(Step(c, s, op).served, e)
    ensures op.DoDispatch? && s.pending != multiset{} && Choice(c, s) == e ==>
              Get(s.served, e) < Get(Step(c, s, op).served, e)
  {}

  lemma {:induction false} ServedGrowsRun(c: Config, s: Sched, ops: seq<Op>, e: Entity)
    ensures Get(s.served, e) <= Get(Run(c, s, ops).served, e)
    decreases ops
  {
    if ops != [] {
      ServedGrows(c, s, ops[0], e);
      ServedGrowsRun(c, Step(c, s, ops[0]), ops[1..], e);
    }
  }

  /** Passing `e` over uses up one unit of its wait, and leaves a recently served entity behind it. */
  lemma PassLowersWait(c: Config, s: Sched, e: Entity, es: set<Entity>)
    requires Sane(s) && e in Entities(s.pending) && Entities(s.pending) <= es && Choice(c, s) != e
    ensures Wait(c, Dispatch(c, s), e, es) < Wait(c, s, e, es)
    ensures |Ahead(Dispatch(c, s), e, es)| <= |es| - 2
  {
    var t, x := Dispatch(c, s), Choice(c, s);
    var before, after := Ahead(s, e, es), Ahead(t, e, es);
    assert x !in after && after <= before;
    assert GoesBefore(c, s, x, e);
    if Starving(c, s, e) {
      assert x in before;
      assert after <= before - {x};
      Subset(after, before - {x});
    } else {
      Subset(after, before);
    }
    assert after <= es - {e, x};
    Subset(after, es - {e, x});
  }

  lemma Subset(a: set<Entity>, b: set<Entity>)
    requires a <= b
    ensures |a| <= |b|
  {
    assert b == a + (b - a);
  }

  lemma QuietStep(c: Config, s: Sched, op: Op)
    requires !op.DoDispatch?
    ensures var t := Step(c, s, op); t.round == s.round && t.last == s.last && t.served == s.served
  {
    match op
    case DoSubmit(j) =>
    case DoComplete(id) =>
    case DoPreempt(id, token) =>
  }

  lemma WaitFrame(c: Config, s: Sched, t: Sched, e: Entity, es: set<Entity>)
    requires t.round == s.round && t.last == s.last
    ensures Wait(c, t, e, es) == Wait(c, s, e, es)
  {
    assert Ahead(t, e, es) == Ahead(s, e, es);
  }

  /** One step of a run that does not serve `e`. */
  lemma UnservedStep(c: Config, s: Sched, ops: seq<Op>, e: Entity, es: set<Entity>)
    requires Sane(s) && ops != [] && StaysBacklogged(c, s, ops, e, es)
    requires Get(Run(c, s, ops).served, e) == Get(s.served, e)
    ensures var t := Step(c, s, ops[0]);
      && Sane(t) && Get(t.served, e) == Get(s.served, e)
      && (ops[0].DoDispatch? ==>
            Wait(c, t, e, es) < Wait(c, s, e, es) && |Ahead(t, e, es)| <= |es| - 2 && t.round == s.round + 1)
      && (!ops[0].DoDispatch? ==> Wait(c, t, e, es) == Wait(c, s, e, es))
  {
    var t := Step(c, s, ops[0]);
    SaneStep(c, s, ops[0]);
    ServedGrows(c, s, ops[0], e);
    ServedGrowsRun(c, t, ops[1..], e);
    if ops[0].DoDispatch? {
      PassLowersWait(c, s, e, es);
    } else {
      QuietStep(c, s, ops[0]);
      WaitFrame(c, s, t, e, es);
    }
  }

  lemma {:induction false} WaitBoundsPasses(c: Config, s: Sched, ops: seq<Op>, e: Entity, es: set<Entity>)
    requires Sane(s) && e in es && StaysBacklogged(c, s, ops, e, es)
    requires Get(Run(c, s, ops).served, e) == Get(s.served, e)
    ensures Dispatches(ops) <= Wait(c, s, e, es)
    decreases ops
  {
    if ops != [] {
      UnservedStep(c, s, ops, e, es);
      WaitBoundsPasses(c, Step(c, s, ops[0]), ops[1..], e, es);
    }
  }

  /** Bounded starvation. In any run, from any state, in which at every dispatch `e` has work and the entities
      with work come from a set of n, `e` is passed over at most max(T, 2) + n - 3 times (never, if n = 1). */
  lemma {:induction false} BoundedStarvation(c: Config, s: Sched, ops: seq<Op>, e: Entity, es: set<Entity>)
    requires Sane(s) && e in es && StaysBacklogged(c, s, ops, e, es)
    requires Get(Run(c, s, ops).served, e) == Get(s.served, e)
    ensures Dispatches(ops) <= Max(c.starvationThreshold, 2) + |es| - 3 || Dispatches(ops) == 0
    ensures |es| == 1 ==> Dispatches(ops) == 0
    decreases ops
  {
    if ops != [] {
      var t := Step(c, s, ops[0]);
      UnservedStep(c, s, ops, e, es);
      if ops[0].DoDispatch? {
        WaitBoundsPasses(c, t, ops[1..], e, es);
      } else {
        BoundedStarvation(c, t, ops[1..], e, es);
      }
    }
  }

  // ---- fairness within one -----------------------------------------------------------------

  /** No dispatch has happened yet; any jobs may be queued. */
  ghost predicate Fresh(s: Sched) { s.round == 0 && s.served == map[] && s.last == map[] }

  /** At every dispatch of the run exactly the entities of `es` have work. */
  ghost predicate StaysFull(c: Config, s: Sched, ops: seq<Op>, es: set<Entity>)
    decreases ops
  {
    ops != [] ==>
      && (ops[0].DoDispatch? ==> s.pending != multiset{} && Entities(s.pending) == es)
      && StaysFull(c, Step(c, s, ops[0]), ops[1..], es)
  }

  ghost predicate WithinOne(s: Sched, es: set<Entity>) {
    forall a, b :: a in es && b in es ==> Get(s.served, a) <= Get(s.served, b) + 1
  }

  lemma Times(k: nat, n: nat)
    requires n > 0
    ensures k * n == k * (n - 1) + k
  {}

  lemma {:induction false} SumAtLeast<K(!new)>(m: map<K, nat>, es: set<K>, lo: nat)
    requires forall e :: e in es ==> lo <= Get(m, e)
    ensures lo * |es| <= Sum(m, es)
    decreases es
  {
    if es != {} {
      var e :| e in es;
      SumRemove(m, es, e);
      SumAtLeast(m, es - {e}, lo);
      Times(lo, |es|);
    }
  }

  lemma {:induction false} SumAtMost<K(!new)>(m: map<K, nat>, es: set<K>, hi: nat)
    requires forall e :: e in es ==> Get(m, e) <= hi
    ensures Sum(m, es) <= hi * |es|
    decreases es
  {
    if es != {} {
      var e :| e in es;
      SumRemove(m, es, e);
      SumAtMost(m, es - {e}, hi);
      Times(hi, |es|);
    }
  }

  /** Counts within one of each other, adding up to the rounds played, and the less served waiting longer. */
  ghost predicate Balanced(s: Sched, es: set<Entity>) {
    && Sane(s)
    && WithinOne(s, es)
    && Sum(s.served, es) == s.round
    && forall a, b :: a in es && b in es && Get(s.served, a) < Get(s.served, b) ==> Get(s.last, a) < Get(s.last, b)
  }

  /** When fairness within one is guaranteed: a lone entity, a threshold that lets the starvation rule act at
      once, or non-zero weights and few enough entities that the floor in the lag cannot hide a whole turn. */
  predicate FairConfig(c: Config, n: nat) {
    n <= 1 || c.starvationThreshold <= 2 || (Weight(c) > 0 && n <= 2000)
  }

  /** Floor arithmetic of the lag in a partly served cycle. */
  lemma LagSeparates(c: Config, n: nat, round: nat, q: nat)
    requires 1 <= n <= 2000 && Weight(c) > 0
    requires q * n + 2 <= round <= q * n + n
    ensures LagMillis(c, n, round, q) > 0
    ensures LagMillis(c, n, round, q + 1) == 0
  {
    var w := Weight(c);
    var d := n * w;
    var x := round * w * 1000;
    Distribute(q, n, w);
    assert round * w >= (q * n + 2) * w && round * w <= (q * n + n) * w;
    assert x >= (1000 * q + 1) * d by {
      assert (q * n + 2) * w * 1000 == 1000 * (q * n * w) + 2000 * w;
      assert 2000 * w >= d;
      assert (1000 * q + 1) * d == 1000 * (q * n * w) + d;
    }
    assert x <= (1000 * q + 1000) * d by {
      assert (q * n + n) * w * 1000 == 1000 * (q * n * w) + 1000 * d;
      assert (1000 * q + 1000) * d == 1000 * (q * n * w) + 1000 * d;
    }
    QuotientBounds(x, d, 1000 * q + 1, 1000 * q + 1000);
  }

  lemma Distribute(q: nat, n: nat, w: nat)
    ensures q * (n * w) == q * n * w
    ensures (q * n + 2) * w == q * n * w + 2 * w
    ensures (q * n + n) * w == q * n * w + n * w
  {}

  lemma QuotientBounds(x: nat, d: nat, lo: nat, hi: nat)
    requires d > 0 && lo * d <= x && (x <= hi * d || x < (hi + 1) * d)
    ensures lo <= x / d <= hi
  {
    var k := x / d;
    assert k * d <= x < k * d + d;
    assert k < lo ==> (k + 1) * d <= lo * d;
    assert k > hi ==> (hi + 1) * d <= k * d;
  }

  /** Whichever rule fires, the entity served is one of the least served. */
  lemma ChoiceIsLeastServed(c: Config, s: Sched, es: set<Entity>, x: Entity)
    requires s.pending != multiset{} && Entities(s.pending) == es && Balanced(s, es) && FairConfig(c, |es|)
    requires x in es
    ensures Get(s.served, Choice(c, s)) <= Get(s.served, x)
  {
    var e := Choice(c, s);
    var q := Get(s.served, x);
    if q < Get(s.served, e) {
      assert Get(s.last, x) < Get(s.last, e);
      GoesBeforeTotal(c, s, e, x);
      assert GoesBefore(c, s, e, x);
      assert !Starving(c, s, e) && !Starving(c, s, x);
      assert c.starvationThreshold > 2;
      var n := |es|;
      Subset({e, x}, es);
      CycleBounds(s, es, e, x);
      LagSeparates(c, n, s.round + 1, q);
    }
  }

  lemma CycleBounds(s: Sched, es: set<Entity>, high: Entity, low: Entity)
    requires Balanced(s, es) && high in es && low in es && Get(s.served, low) < Get(s.served, high)
    ensures Get(s.served, high) == Get(s.served, low) + 1
    ensures Get(s.served, low) * |es| + 1 <= s.round <= Get(s.served, low) * |es| + |es| - 1
  {
    var q := Get(s.served, low);
    assert forall x :: x in es ==> q <= Get(s.served, x) <= q + 1;
    var rest, others := es - {high}, es - {low};
    assert |rest| == |es| - 1 == |others|;
    hide Balanced, WithinOne, Sane;
    SumRemove(s.served, es, high);
    SumAtLeast(s.served, rest, q);
    SumRemove(s.served, es, low);
    SumAtMost(s.served, others, q + 1);
    CycleArithmetic(q, |es|, Sum(s.served, rest), Sum(s.served, others), s.round);
  }

  lemma CycleArithmetic(q: nat, n: nat, most: int, least: int, round: int)
    requires n > 0 && q * (n - 1) <= most && least <= (q + 1) * (n - 1)
    requires round == most + q + 1 == least + q
    ensures q * n + 1 <= round <= q * n + n - 1
  {
    Times(q, n);
    assert (q + 1) * (n - 1) == q * (n - 1) + (n - 1);
  }

  lemma ServeLeast(s: Sched, t: Sched, es: set<Entity>, e: Entity)
    requires Balanced(s, es) && e in es
    requires forall x :: x in es ==> Get(s.served, e) <= Get(s.served, x)
    requires t.round == s.round + 1
    requires t.served == s.served[e := Get(s.served, e) + 1] && t.last == s.last[e := t.round]
    ensures Balanced(t, es)
  {
    SumUpdate(s.served, es, e, Get(s.served, e) + 1);
    forall a, b | a in es && b in es
      ensures Get(t.served, a) <= Get(t.served, b) + 1
      ensures Get(t.served, a) < Get(t.served, b) ==> Get(t.last, a) < Get(t.last, b)
    {
      assert Get(s.served, a) <= Get(s.served, b) + 1 && Get(s.served, a) <= Get(s.served, e) + 1;
    }
  }

  lemma BalancedFrame(s: Sched, t: Sched, es: set<Entity>)
    requires Balanced(s, es) && t.round == s.round && t.last == s.last && t.served == s.served
    ensures Balanced(t, es)
  {}

  lemma BalancedStep(c: Config, s: Sched, op: Op, es: set<Entity>)
    requires Balanced(s, es) && FairConfig(c, |es|)
    requires op.DoDispatch? ==> s.pending != multiset{} && Entities(s.pending) == es
    ensures Balanced(Step(c, s, op), es)
  {
    if op.DoDispatch? {
      var e := Choice(c, s);
      forall x | x in es ensures Get(s.served, e) <= Get(s.served, x) { ChoiceIsLeastServed(c, s, es, x); }
      ServeLeast(s, Dispatch(c, s), es, e);
    } else {
      QuietStep(c, s, op);
      BalancedFrame(s, Step(c, s, op), es);
    }
  }

  lemma {:induction false} BalancedRun(c: Config, s: Sched, ops: seq<Op>, es: set<Entity>)
    requires Balanced(s, es) && FairConfig(c, |es|) && StaysFull(c, s, ops, es)
    ensures Balanced(Run(c, s, ops), es)
    decreases ops
  {
    if ops != [] {
      BalancedStep(c, s, ops[0], es);
      BalancedRun(c, Step(c, s, ops[0]), ops[1..], es);
    }
  }

  /** Fairness within one, for every fully backlogged run from a state in which nothing was dispatched yet. */
  lemma FairnessHolds(c: Config, s: Sched, ops: seq<Op>, es: set<Entity>)
    requires FairConfig(c, |es|) && Fresh(s) && StaysFull(c, s, ops, es)
    ensures WithinOne(Run(c, s, ops), es)
  {
    SumAtMost(s.served, es, 0);
    BalancedRun(c, s, ops, es);
  }
}
