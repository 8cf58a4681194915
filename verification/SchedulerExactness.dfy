/** Exactly when equal shares within one are guaranteed to a new scheduler: outside the fair configurations the
    guarantee survives only where the admission limits keep the entities from being backlogged together. */
module SchedulerExactness {
  import opened Bags
  import opened Sums
  import opened SchedulerModel
  import opened SchedulerFairness
  import opened SchedulerLedger
  import opened SchedulerRoom

  /** Fairness within one, for every run of a new scheduler. */
  ghost predicate FairWithinOne(c: Config, es: set<Entity>) {
    forall ops :: StaysFull(c, EMPTY, ops, es) ==> WithinOne(Run(c, EMPTY, ops), es)
  }

  // ---- without room nothing is ever dispatched -----------------------------------------------------

  /** Before the first dispatch the backlog is what admission let in. */
  ghost predicate Undispatched(c: Config, s: Sched) {
    Fresh(s) && s.active == map[] && Limited(c, s.pending)
  }

  lemma UndispatchedStep(c: Config, s: Sched, op: Op)
    requires Undispatched(c, s) && !op.DoDispatch?
    ensures Undispatched(c, Step(c, s, op))
  {
    hide Limited, AdmissionFor;
    match op
    case DoSubmit(j) => SubmitStaysLimited(c, s, j);
    case DoComplete(id) =>
    case DoPreempt(id, token) =>
  }

  lemma {:induction false} NoRoomNoDispatch(c: Config, s: Sched, ops: seq<Op>, es: set<Entity>)
    requires Undispatched(c, s) && !Roomy(c, es) && StaysFull(c, s, ops, es)
    ensures Fresh(Run(c, s, ops))
    decreases ops
  {
    hide Limited, Roomy, Step;
    if ops != [] {
      if ops[0].DoDispatch? {
        LimitedHasRoom(c, s.pending);
      } else {
        UndispatchedStep(c, s, ops[0]);
        NoRoomNoDispatch(c, Step(c, s, ops[0]), ops[1..], es);
      }
    }
  }

  lemma NothingIsLimited(c: Config)
    ensures Limited(c, multiset{})
  {
    forall p: Priority ensures Count(multiset{}, OfPriority(p)) == 0 { CountPositive(multiset{}, OfPriority(p)); }
    forall t ensures Count(multiset{}, OfTenant(t)) == 0 { CountPositive(multiset{}, OfTenant(t)); }
    forall p ensures Count(multiset{}, OfProject(p)) == 0 { CountPositive(multiset{}, OfProject(p)); }
  }

  // ---- filling a new scheduler ------------------------------------------------------------------------

  /** `ops` fills a new scheduler with one job of each entity of `part`, under fresh ids. */
  ghost predicate Fills(c: Config, ops: seq<Op>, part: set<Entity>, level: map<Entity, Priority>, es: set<Entity>) {
    var s := Run(c, EMPTY, ops);
    && FreshIds(c, EMPTY, ops) && StaysFull(c, EMPTY, ops, es)
    && Fresh(s) && s.active == map[] && Used(s, |part|) && OneEach(s.pending, part, level)
  }

  lemma SubmitIsFull(c: Config, s: Sched, j: Job, es: set<Entity>)
    ensures StaysFull(c, s, [DoSubmit(j)], es)
  {
    hide Step;
    assert [DoSubmit(j)][1..] == [];
  }

  /** A missing entity's job, under the next number, is admitted. */
  lemma Offer(c: Config, s: Sched, part: set<Entity>, level: map<Entity, Priority>, es: set<Entity>, e: Entity, n: nat)
    returns (j: Job)
    requires Roomy(c, es) && Spread(es, level, c.maxPerPriority) && part <= es && e in es && e !in part
    requires OneEach(s.pending, part, level) && Used(s, n)
    ensures var t := Submit(c, s, j);
      && OneEach(t.pending, part + {e}, level) && Used(t, n + 1)
      && t.round == s.round && t.served == s.served && t.last == s.last && t.active == s.active
    ensures Run(c, s, [DoSubmit(j)]) == Submit(c, s, j)
    ensures !Live(s, j.id) && FreshIds(c, s, [DoSubmit(j)]) && StaysFull(c, s, [DoSubmit(j)], es)
  {
    assert e in level;
    hide Roomy, Spread, OneEach, Used, Submit, FreshIds, StaysFull, Run;
    j := NewJob(e, level[e], n);
    assert EntityOf(j) == e;
    MissingIsAdmitted(c, s, es, part, level, j);
    OneEachMore(s.pending, part, level, j);
    NextNumberIsFresh(s, n);
    UsedAfterSubmit(c, s, j, n);
    SubmitKeepsRest(c, s, j);
    OneOp(c, s, DoSubmit(j));
    SubmitIsFull(c, s, j, es);
  }

  lemma FillOne(c: Config, ops: seq<Op>, part: set<Entity>, level: map<Entity, Priority>, es: set<Entity>, e: Entity)
    returns (more: seq<Op>)
    requires Roomy(c, es) && Spread(es, level, c.maxPerPriority) && part <= es && e in es && e !in part
    requires Fills(c, ops, part, level, es)
    ensures Fills(c, more, part + {e}, level, es)
  {
    hide Roomy, Spread, OneEach, Used, Submit, FreshIds, StaysFull, Run;
    var s := Run(c, EMPTY, ops);
    var j := Offer(c, s, part, level, es, e, |part|);
    more := ops + [DoSubmit(j)];
    RunJoins(c, EMPTY, ops, [DoSubmit(j)]);
    FullJoins(c, EMPTY, ops, [DoSubmit(j)], es);
  }

  lemma FillsNothing(c: Config, level: map<Entity, Priority>, es: set<Entity>)
    ensures Fills(c, [], {}, level, es)
  {
    assert Entities(multiset{}) == {};
    assert Run(c, EMPTY, []) == EMPTY;
    hide Numbered;
  }

  lemma {:induction false} Fill(c: Config, part: set<Entity>, level: map<Entity, Priority>, es: set<Entity>)
    returns (ops: seq<Op>)
    requires Roomy(c, es) && Spread(es, level, c.maxPerPriority) && part <= es
    ensures Fills(c, ops, part, level, es)
    decreases |part|
  {
    assert part <= level.Keys;
    hide Roomy, Spread, Fills;
    if part == {} {
      ops := [];
      FillsNothing(c, level, es);
    } else {
      var e :| e in part;
      var most := Fill(c, part - {e}, level, es);
      ops := FillOne(c, most, part - {e}, level, es, e);
      assert part - {e} + {e} == part;
    }
  }

  // ---- two turns for one entity ----------------------------------------------------------------------

  lemma SmallShare(n: nat, w: nat, round: nat)
    requires round <= 2 && n > 2000 && w > 0
    ensures n * w > 0 && round * w * 1000 < n * w
  {
    assert round * w <= 2 * w && n * w >= 2001 * w;
  }

  lemma NoLag(c: Config, n: nat, round: nat, served: nat)
    requires round <= 2 && (Weight(c) == 0 || n > 2000)
    ensures LagMillis(c, n, round, served) == 0
  {
    var w := Weight(c);
    if w > 0 {
      SmallShare(n, w, round);
      QuotientBounds(round * w * 1000, n * w, 0, 0);
    }
  }

  /** Nobody starves, every lag is zero and every depth is one: the key decides. */
  ghost predicate KeyDecides(c: Config, s: Sched, es: set<Entity>) {
    && Entities(s.pending) == es
    && (forall x :: x in es ==> !Starving(c, s, x) && Lag(c, s, x) == 0 && Count(s.pending, OfEntity(x)) == 1)
  }

  lemma GreatestIsChosen(c: Config, s: Sched, es: set<Entity>, d: Entity)
    requires KeyDecides(c, s, es) && d in es && s.pending != multiset{}
    ensures Choice(c, s) == d <==> forall x :: x in es && x != d ==> EntityLess(x, d)
  {
    hide Lag, Starving, Count, EntityLess;
    forall x | x in es && x != d ensures GoesBefore(c, s, d, x) <==> EntityLess(x, d) {}
    if Choice(c, s) != d {
      var e := Choice(c, s);
      assert GoesBefore(c, s, e, d);
      EntityLessTotal(e, d);
    }
  }

  /** Rounds one and two of an unfair configuration. */
  lemma EarlyRoundsAreKeyed(c: Config, s: Sched, es: set<Entity>, level: map<Entity, Priority>)
    requires !FairConfig(c, |es|) && OneEach(s.pending, es, level) && s.round <= 1
    ensures s.pending != multiset{} && KeyDecides(c, s, es)
  {
    OneEachSize(s.pending, es, level);
    var e :| e in es;
    forall x | x in es ensures Lag(c, s, x) == 0 { NoLag(c, |es|, s.round + 1, Get(s.served, x)); }
    hide Count, Lag, FairConfig, OneEach;
    forall x | x in es ensures !Starving(c, s, x) { AgeAtMostRound(s, x); UnfairIsPatient(c, |es|); }
    assert e in Entities(s.pending);
  }

  lemma AgeAtMostRound(s: Sched, x: Entity)
    ensures Age(s, x) <= s.round + 1
  {}

  lemma UnfairIsPatient(c: Config, n: nat)
    requires !FairConfig(c, n)
    ensures c.starvationThreshold > 2 && n > 1
  {}

  /** Dispatch, refill, dispatch: the greatest key is served twice before anyone else is served once. */
  lemma FairnessFails(c: Config, es: set<Entity>) returns (ops: seq<Op>)
    requires !FairConfig(c, |es|) && Roomy(c, es)
    ensures StaysFull(c, EMPTY, ops, es) && FreshIds(c, EMPTY, ops) && !WithinOne(Run(c, EMPTY, ops), es)
  {
    var level := LevelsExist(c, es);
    var fill := Fill(c, es, level, es);
    var s := Run(c, EMPTY, fill);
    hide Run, StaysFull, FreshIds, Roomy, Spread;
    var u, tail := SecondTurn(c, es, level, s, |es|);
    RunJoins(c, EMPTY, fill, tail);
    FullJoins(c, EMPTY, fill, tail, es);
    ops := fill + tail;
  }

  /** A dispatch and a refill of the entity it served. */
  lemma Refill(c: Config, es: set<Entity>, level: map<Entity, Priority>, s: Sched, n: nat, d: Entity)
    returns (j: Job)
    requires Roomy(c, es) && Spread(es, level, c.maxPerPriority) && OneEach(s.pending, es, level) && Used(s, n)
    requires s.pending != multiset{} && Choice(c, s) == d
    ensures d in es && !Live(Dispatch(c, s), j.id)
    ensures var v := Submit(c, Dispatch(c, s), j);
      && OneEach(v.pending, es, level)
      && v.round == s.round + 1 && v.served == s.served[d := Get(s.served, d) + 1] && v.last == s.last[d := v.round]
  {
    hide Roomy, Spread, OneEach, Used, Submit, Dispatch, Choice, Chosen, Live;
    KeyedEntities(s, es, level);
    Serves(c, s, d);
    var t, first := Dispatch(c, s), Chosen(c, s);
    assert d in es;
    OneEachLess(s.pending, es, level, first);
    UsedAfterDispatch(c, s, n);
    j := Offer(c, t, es - {d}, level, es, d, n);
    assert es - {d} + {d} == es;
  }

  lemma SecondTurn(c: Config, es: set<Entity>, level: map<Entity, Priority>, s: Sched, n: nat)
    returns (u: Sched, tail: seq<Op>)
    requires !FairConfig(c, |es|) && Roomy(c, es) && Spread(es, level, c.maxPerPriority)
    requires Fresh(s) && OneEach(s.pending, es, level) && Used(s, n)
    ensures u == Run(c, s, tail) && StaysFull(c, s, tail, es) && FreshIds(c, s, tail) && !WithinOne(u, es)
  {
    hide Roomy, Spread, OneEach, Used, Submit, Dispatch, FairConfig, KeyDecides, Run, StaysFull, FreshIds, WithinOne,
      Choice, Live, EntityLess;
    EarlyRoundsAreKeyed(c, s, es, level);
    var d := Choice(c, s);
    var j := Refill(c, es, level, s, n, d);
    GreatestIsChosen(c, s, es, d);
    var v := Submit(c, Dispatch(c, s), j);
    EarlyRoundsAreKeyed(c, v, es, level);
    GreatestIsChosen(c, v, es, d);
    Serves(c, v, d);
    KeyedEntities(s, es, level);
    KeyedEntities(v, es, level);
    u, tail := Dispatch(c, v), [DoDispatch, DoSubmit(j), DoDispatch];
    ThreeOps(c, s, j, es);
    UnfairIsPatient(c, |es|);
    Lopsided(u, es, d);
  }

  lemma KeyedEntities(s: Sched, es: set<Entity>, level: map<Entity, Priority>)
    requires OneEach(s.pending, es, level)
    ensures Entities(s.pending) == es && es <= level.Keys
  {}

  lemma ThreeOps(c: Config, s: Sched, j: Job, es: set<Entity>)
    requires s.pending != multiset{} && Entities(s.pending) == es
    requires !Live(Dispatch(c, s), j.id)
    requires var v := Submit(c, Dispatch(c, s), j); v.pending != multiset{} && Entities(v.pending) == es
    ensures var tail := [DoDispatch, DoSubmit(j), DoDispatch];
      && Run(c, s, tail) == Dispatch(c, Submit(c, Dispatch(c, s), j))
      && StaysFull(c, s, tail, es) && FreshIds(c, s, tail)
  {
    hide Dispatch, Submit, Entities, Live;
    var tail := [DoDispatch, DoSubmit(j), DoDispatch];
    var t := Dispatch(c, s);
    var v := Submit(c, t, j);
    var u := Dispatch(c, v);
    assert tail[1..] == [DoSubmit(j), DoDispatch] && tail[1..][1..] == [DoDispatch] && tail[1..][1..][1..] == [];
    assert Run(c, u, []) == u && StaysFull(c, u, [], es) && FreshIds(c, u, []);
    assert Run(c, v, tail[1..][1..]) == u && StaysFull(c, v, tail[1..][1..], es) && FreshIds(c, v, tail[1..][1..]);
    assert Run(c, t, tail[1..]) == u && StaysFull(c, t, tail[1..], es) && FreshIds(c, t, tail[1..]);
  }

  lemma Lopsided(u: Sched, es: set<Entity>, d: Entity)
    requires d in es && |es| > 1 && u.served == map[d := 2]
    ensures !WithinOne(u, es)
  {
    assert |es - {d}| == |es| - 1;
    var other :| other in es - {d};
    assert Get(u.served, d) == 2 && Get(u.served, other) == 0;
  }

  /** A new scheduler keeps the shares of backlogged entities within one of each other on every run exactly when the
      configuration is fair or has no room for the entities to be backlogged together. */
  lemma FairnessExactly(c: Config, es: set<Entity>)
    ensures FairWithinOne(c, es) <==> FairConfig(c, |es|) || !Roomy(c, es)
  {
    hide Run, StaysFull, FreshIds, Roomy, FairConfig;
    if FairConfig(c, |es|) {
      forall ops | StaysFull(c, EMPTY, ops, es) ensures WithinOne(Run(c, EMPTY, ops), es) {
        FairnessHolds(c, EMPTY, ops, es);
      }
    } else if !Roomy(c, es) {
      NothingIsLimited(c);
      forall ops | StaysFull(c, EMPTY, ops, es) ensures WithinOne(Run(c, EMPTY, ops), es) {
        NoRoomNoDispatch(c, EMPTY, ops, es);
      }
    } else {
      var ops := FairnessFails(c, es);
    }
  }
}
