/** Conservation over whole runs: where every admitted job is, and what the counters of the scheduler add up to. */
module SchedulerLedger {
  import opened SchedulerModel
  import opened Sums

  // ---- counters ------------------------------------------------------------------------------

  function Min(a: nat, b: nat): nat { if a < b then a else b }

  /** The books balance: jobs in equals jobs out, requeues are accounted for once each by token and once each by
      job, no job exceeds its cap, and the backlog exceeds the admission limits only by requeues. */
  ghost predicate Books(c: Config, s: Sched) {
    var m := s.metrics;
    && m.admitted + m.requeued == m.dispatched + |s.pending|
    && m.preempted == m.requeued == |s.tokens| == Total(s.preemptions)
    && (forall id :: id in s.preemptions ==> 1 <= s.preemptions[id] <= c.maxPreemptionsPerJob)
    && m.dispatched == s.round == Total(s.served)
    && m.starvationPrevented <= m.dispatched
    && |s.pending| <= Min(c.maxTotal, c.deferAt) + m.requeued
  }

  lemma SubmitKeepsBooks(c: Config, s: Sched, j: Job)
    requires Books(c, s)
    ensures Books(c, Submit(c, s, j))
  {}

  lemma DispatchKeepsBooks(c: Config, s: Sched)
    requires Books(c, s)
    ensures Books(c, Dispatch(c, s))
  {
    hide GoesBefore, IsChoice, Starving, Entities;
    if s.pending != multiset{} { TotalPut(s.served, Choice(c, s), Get(s.served, Choice(c, s)) + 1); }
  }

  lemma PreemptKeepsBooks(c: Config, s: Sched, id: string, token: string)
    requires Books(c, s)
    ensures Books(c, Preempt(c, s, id, token))
  {
    hide Total, Books, Get;
    var t := Preempt(c, s, id, token);
    if PreemptionFor(c, s, id, token).RebalanceOverloadedDevice? {
      RequeueKeepsBooks(c, s, t, id, token, s.active[id].job);
    } else {
      SameBooks(c, s, t);
    }
  }

  lemma SameBooks(c: Config, s: Sched, t: Sched)
    requires Books(c, s) && t.pending == s.pending && t.tokens == s.tokens && t.preemptions == s.preemptions
    requires t.round == s.round && t.served == s.served
    requires t.metrics == s.metrics.(preemptionAttempted := t.metrics.preemptionAttempted,
      idempotentHits := t.metrics.idempotentHits)
    ensures Books(c, t)
  {
    hide Total;
  }

  lemma RequeueKeepsBooks(c: Config, s: Sched, t: Sched, id: string, token: string, j: Job)
    requires Books(c, s) && token !in s.tokens && Get(s.preemptions, id) < c.maxPreemptionsPerJob
    requires t.pending == s.pending + multiset{j} && t.tokens == s.tokens[token := id]
    requires t.preemptions == s.preemptions[id := Get(s.preemptions, id) + 1]
    requires t.round == s.round && t.served == s.served
    requires t.metrics == s.metrics.(preemptionAttempted := t.metrics.preemptionAttempted,
      preempted := s.metrics.preempted + 1, requeued := s.metrics.requeued + 1)
    ensures Books(c, t)
  {
    TotalPut(s.preemptions, id, Get(s.preemptions, id) + 1);
    hide Total;
    TokenCounts(s.tokens, token, id);
  }

  lemma TokenCounts(tokens: map<string, string>, token: string, id: string)
    ensures token !in tokens ==> |tokens[token := id]| == |tokens| + 1
  {}

  lemma {:induction false} BooksBalance(c: Config, s: Sched, ops: seq<Op>)
    requires Books(c, s)
    ensures Books(c, Run(c, s, ops))
    decreases ops
  {
    hide Dispatch, Submit, Preempt;
    if ops != [] {
      match ops[0]
      case DoSubmit(j) => SubmitKeepsBooks(c, s, j); BooksBalance(c, Submit(c, s, j), ops[1..]);
      case DoDispatch => DispatchKeepsBooks(c, s); BooksBalance(c, Dispatch(c, s), ops[1..]);
      case DoComplete(id) => BooksBalance(c, Complete(s, id), ops[1..]);
      case DoPreempt(id, token) =>
        PreemptKeepsBooks(c, s, id, token); BooksBalance(c, Preempt(c, s, id, token), ops[1..]);
    }
  }

  /** Every counter law holds after any sequence of calls on a new scheduler. */
  lemma BooksBalanceFromNew(c: Config, ops: seq<Op>)
    ensures Books(c, Run(c, EMPTY, ops))
  {
    BooksBalance(c, EMPTY, ops);
  }

  // ---- jobs --------------------------------------------------------------------------------

  /** Active dispatches are filed under the id of their job, so a job fills at most its own slot. */
  ghost predicate Keyed(s: Sched) { forall id :: id in s.active ==> s.active[id].job.id == id }

  function Slot(s: Sched, j: Job): nat { if j.id in s.active && s.active[j.id].job == j then 1 else 0 }

  /** How many copies of `j` the scheduler holds, queued or active. */
  ghost function Held(s: Sched, j: Job): nat { s.pending[j] + Slot(s, j) }

  /** Copies of one job that entered, left finished, or vanished because another job took the slot. */
  datatype Ledger = Ledger(entered: nat, finished: nat, overwritten: nat)

  function One(b: bool): nat { if b then 1 else 0 }

  ghost function Entry(c: Config, s: Sched, op: Op, j: Job): Ledger {
    Ledger(
      One(op == DoSubmit(j) && AdmissionFor(c, s, j.tenant, j.project, j.priority).disposition.Admit?),
      One(op == DoComplete(j.id) && Slot(s, j) == 1),
      One(op.DoDispatch? && s.pending != multiset{} && Slot(s, j) == 1 && Chosen(c, s).id == j.id))
  }

  ghost function Totals(c: Config, s: Sched, ops: seq<Op>, j: Job): Ledger
    decreases ops
  {
    if ops == [] then Ledger(0, 0, 0) else
      var e, l := Entry(c, s, ops[0], j), Totals(c, Step(c, s, ops[0]), ops[1..], j);
      Ledger(e.entered + l.entered, e.finished + l.finished, e.overwritten + l.overwritten)
  }

  ghost predicate Conserves(c: Config, s: Sched, t: Sched, l: Ledger, j: Job) {
    Held(s, j) + l.entered == Held(t, j) + l.finished + l.overwritten
  }

  lemma SubmitConserves(c: Config, s: Sched, k: Job, j: Job)
    ensures Conserves(c, s, Submit(c, s, k), Entry(c, s, DoSubmit(k), j), j)
  {}

  lemma DispatchConserves(c: Config, s: Sched, j: Job)
    requires Keyed(s)
    ensures Keyed(Dispatch(c, s)) && Conserves(c, s, Dispatch(c, s), Entry(c, s, DoDispatch, j), j)
  {
    hide IsChoice, GoesBefore, Entities;
  }

  lemma PreemptConserves(c: Config, s: Sched, id: string, token: string, j: Job)
    requires Keyed(s)
    ensures Keyed(Preempt(c, s, id, token))
    ensures Conserves(c, s, Preempt(c, s, id, token), Entry(c, s, DoPreempt(id, token), j), j)
  {}

  /** Job conservation: for every job, copies held before plus copies admitted are copies held after plus copies
      completed plus copies overwritten, over any run. */
  lemma {:induction false} JobsConserved(c: Config, s: Sched, ops: seq<Op>, j: Job)
    requires Keyed(s)
    ensures Conserves(c, s, Run(c, s, ops), Totals(c, s, ops, j), j)
    decreases ops
  {
    hide Dispatch, Submit, Preempt, Entry, AdmissionFor;
    if ops != [] {
      match ops[0] {
        case DoSubmit(k) => SubmitConserves(c, s, k, j); SubmitKeepsActive(c, s, k);
        case DoDispatch => DispatchConserves(c, s, j);
        case DoComplete(id) => CompleteConserves(c, s, id, j);
        case DoPreempt(id, token) => PreemptConserves(c, s, id, token, j);
      }
      JobsConserved(c, Step(c, s, ops[0]), ops[1..], j);
    }
  }

  lemma SubmitKeepsActive(c: Config, s: Sched, j: Job)
    ensures Submit(c, s, j).active == s.active
  {}

  lemma CompleteConserves(c: Config, s: Sched, id: string, j: Job)
    ensures Conserves(c, s, Complete(s, id), Entry(c, s, DoComplete(id), j), j)
  {}

  // ---- with ids not reused while live, nothing is lost ------------------------------------------

  ghost predicate Queued(s: Sched, id: string) { exists j :: j in s.pending && j.id == id }

  ghost predicate Live(s: Sched, id: string) { id in s.active || Queued(s, id) }

  ghost predicate Admits(c: Config, s: Sched, j: Job) {
    AdmissionFor(c, s, j.tenant, j.project, j.priority).disposition.Admit?
  }

  /** Every submit that is admitted brings an id that is neither queued nor active. */
  ghost predicate FreshIds(c: Config, s: Sched, ops: seq<Op>)
    decreases ops
  {
    ops != [] ==>
      && (ops[0].DoSubmit? && Admits(c, s, ops[0].job) ==> !Live(s, ops[0].job.id))
      && FreshIds(c, Step(c, s, ops[0]), ops[1..])
  }

  ghost predicate DistinctIds(s: Sched) {
    && Keyed(s)
    && (forall j :: j in s.pending ==> s.pending[j] == 1 && j.id !in s.active)
    && (forall j, k :: j in s.pending && k in s.pending && j.id == k.id ==> j == k)
  }

  /** An admitted submit keeps ids distinct exactly when its id is not live. */
  lemma SubmitDistinct(c: Config, s: Sched, j: Job)
    requires DistinctIds(s)
    ensures DistinctIds(Submit(c, s, j)) <==> (Admits(c, s, j) ==> !Live(s, j.id))
  {
    hide AdmissionFor;
    var t := Submit(c, s, j);
    if Admits(c, s, j) {
      assert t.pending == s.pending + multiset{j} && t.active == s.active;
      if Queued(s, j.id) {
        var k :| k in s.pending && k.id == j.id;
        assert k in t.pending && j in t.pending && (k == j ==> t.pending[j] >= 2);
      }
    }
  }

  lemma DispatchDistinct(c: Config, s: Sched)
    requires DistinctIds(s)
    ensures DistinctIds(Dispatch(c, s))
    ensures s.pending != multiset{} ==> Chosen(c, s).id !in s.active
  {
    hide IsChoice, GoesBefore, Entities;
  }

  lemma PreemptDistinct(c: Config, s: Sched, id: string, token: string)
    requires DistinctIds(s)
    ensures DistinctIds(Preempt(c, s, id, token))
  {}

  lemma CompleteDistinct(s: Sched, id: string)
    requires DistinctIds(s)
    ensures DistinctIds(Complete(s, id))
  {}

  lemma {:induction false} DistinctRun(c: Config, s: Sched, ops: seq<Op>, j: Job)
    requires DistinctIds(s) && FreshIds(c, s, ops)
    ensures DistinctIds(Run(c, s, ops))
    ensures Totals(c, s, ops, j).overwritten == 0
    decreases ops
  {
    hide Dispatch, Submit, Preempt, AdmissionFor, DistinctIds;
    if ops != [] {
      match ops[0] {
        case DoSubmit(k) => SubmitDistinct(c, s, k);
        case DoDispatch => DispatchDistinct(c, s);
        case DoComplete(id) => CompleteDistinct(s, id);
        case DoPreempt(id, token) => PreemptDistinct(c, s, id, token);
      }
      DistinctRun(c, Step(c, s, ops[0]), ops[1..], j);
    }
  }

  /** With ids not reused while live, a job is queued, active or completed exactly as often as it was admitted,
      and no two held jobs share an id. */
  lemma EveryJobAccountedFor(c: Config, ops: seq<Op>, j: Job)
    requires FreshIds(c, EMPTY, ops)
    ensures var s, l := Run(c, EMPTY, ops), Totals(c, EMPTY, ops, j);
      l.entered == s.pending[j] + Slot(s, j) + l.finished && DistinctIds(s)
  {
    JobsConserved(c, EMPTY, ops, j);
    DistinctRun(c, EMPTY, ops, j);
  }

  // ---- and exactly then ---------------------------------------------------------------------------

  /** Ids are distinct now and after each of the calls. */
  ghost predicate AlwaysDistinct(c: Config, s: Sched, ops: seq<Op>)
    decreases ops
  {
    DistinctIds(s) && (ops != [] ==> AlwaysDistinct(c, Step(c, s, ops[0]), ops[1..]))
  }

  /** Held ids stay distinct along a run exactly when no admitted submit reuses a live one. */
  lemma {:induction false} DistinctExactly(c: Config, s: Sched, ops: seq<Op>)
    requires DistinctIds(s)
    ensures AlwaysDistinct(c, s, ops) <==> FreshIds(c, s, ops)
    decreases ops
  {
    hide Dispatch, Submit, Preempt, Admits, Live, DistinctIds;
    if ops != [] {
      var t := Step(c, s, ops[0]);
      match ops[0] {
        case DoSubmit(k) => SubmitDistinct(c, s, k);
        case DoDispatch => DispatchDistinct(c, s);
        case DoComplete(id) => CompleteDistinct(s, id);
        case DoPreempt(id, token) => PreemptDistinct(c, s, id, token);
      }
      if DistinctIds(t) { DistinctExactly(c, t, ops[1..]); }
    }
  }

  predicate SubmitFree(ops: seq<Op>) { forall i :: 0 <= i < |ops| ==> !ops[i].DoSubmit? }

  /** Whatever is called next, short of new submits, no job is overwritten. */
  ghost predicate Lossless(c: Config, s: Sched) {
    forall ops, j :: SubmitFree(ops) ==> Totals(c, s, ops, j).overwritten == 0
  }

  lemma {:induction false} SubmitFreeIsFresh(c: Config, s: Sched, ops: seq<Op>)
    requires SubmitFree(ops)
    ensures FreshIds(c, s, ops)
    decreases ops
  {
    hide Step, Admits, Live;
    if ops != [] { SubmitFreeIsFresh(c, Step(c, s, ops[0]), ops[1..]); }
  }

  lemma DispatchKeepsClash(c: Config, s: Sched)
    requires Keyed(s) && !DistinctIds(s)
    ensures s.pending != multiset{} && Keyed(Dispatch(c, s))
    ensures Chosen(c, s).id !in s.active ==> !DistinctIds(Dispatch(c, s))
  {
    hide IsChoice, GoesBefore, Entities;
    var j, t := Chosen(c, s), Dispatch(c, s);
    assert j in s.pending && j.id in t.active;
    if j.id !in s.active {
      if k :| k in s.pending && (s.pending[k] != 1 || k.id in s.active) {
        assert k in t.pending && (t.pending[k] != 1 || k.id in t.active);
      } else {
        var k, l :| k in s.pending && l in s.pending && k.id == l.id && k != l;
        assert (k != j ==> k in t.pending) && (l != j ==> l in t.pending);
      }
    }
  }

  lemma OverwritesNow(c: Config, s: Sched) returns (k: Job)
    requires Keyed(s) && s.pending != multiset{} && Chosen(c, s).id in s.active
    ensures Entry(c, s, DoDispatch, k).overwritten == 1
  {
    hide IsChoice, GoesBefore, Entities, AdmissionFor;
    k := s.active[Chosen(c, s).id].job;
  }

  /** Two held jobs with one id: dispatching everything overwrites one of them. */
  lemma {:induction false} DispatchingLoses(c: Config, s: Sched) returns (ops: seq<Op>, k: Job)
    requires Keyed(s) && !DistinctIds(s)
    ensures SubmitFree(ops) && Totals(c, s, ops, k).overwritten > 0
    decreases |s.pending|
  {
    hide Keyed, DistinctIds, Dispatch, Entry;
    DispatchKeepsClash(c, s);
    if Chosen(c, s).id in s.active {
      k := OverwritesNow(c, s);
      ops := [DoDispatch];
    } else {
      DispatchShrinks(c, s);
      var rest;
      rest, k := DispatchingLoses(c, Dispatch(c, s));
      ops := [DoDispatch] + rest;
      assert ops[1..] == rest;
    }
  }

  lemma DispatchShrinks(c: Config, s: Sched)
    requires s.pending != multiset{}
    ensures |Dispatch(c, s).pending| < |s.pending|
  {
    hide IsChoice, GoesBefore, Entities;
  }

  /** A state can lose a job without any new submit exactly when two of the jobs it holds share an id. */
  lemma LossExactly(c: Config, s: Sched)
    requires Keyed(s)
    ensures Lossless(c, s) <==> DistinctIds(s)
  {
    hide Keyed, DistinctIds, FreshIds, Totals;
    if DistinctIds(s) {
      forall ops, j | SubmitFree(ops) ensures Totals(c, s, ops, j).overwritten == 0 {
        SubmitFreeIsFresh(c, s, ops);
        DistinctRun(c, s, ops, j);
      }
    } else {
      var ops, k := DispatchingLoses(c, s);
    }
  }

  /** Submitting a live id, wherever it is admitted, makes a state from which dispatches alone lose a job; any other
      submit keeps the state lossless. */
  lemma ReusedIdLosesJob(c: Config, s: Sched, j: Job)
    requires Keyed(s) && Lossless(c, s)
    ensures Lossless(c, Submit(c, s, j)) <==> !(Admits(c, s, j) && Live(s, j.id))
  {
    LossExactly(c, s);
    SubmitKeepsActive(c, s, j);
    hide Lossless, DistinctIds, Admits, Live, Submit;
    LossExactly(c, Submit(c, s, j));
    SubmitDistinct(c, s, j);
  }

  // ---- tokens ------------------------------------------------------------------------------

  lemma {:induction false} TokensPersist(c: Config, s: Sched, ops: seq<Op>, token: string)
    requires token in s.tokens
    ensures var t := Run(c, s, ops); token in t.tokens && t.tokens[token] == s.tokens[token]
    decreases ops
  {
    hide IsChoice, GoesBefore, AdmissionFor;
    if ops != [] { TokensPersist(c, Step(c, s, ops[0]), ops[1..], token); }
  }

  /** Idempotence: once applied, a requeue token never acts again, whatever happened in between and whichever
      job it is presented for; only the attempt counters move. */
  lemma TokenReplayIsInert(c: Config, s: Sched, id: string, token: string, ops: seq<Op>, other: string)
    requires PreemptionFor(c, s, id, token).RebalanceOverloadedDevice?
    ensures var t := Run(c, Preempt(c, s, id, token), ops);
      && PreemptionFor(c, t, other, token) == DuplicateRequeueRequest && t.tokens[token] == id
      && Preempt(c, t, other, token) ==
         t.(metrics := t.metrics.(preemptionAttempted := t.metrics.preemptionAttempted + 1,
                                  idempotentHits := t.metrics.idempotentHits + 1))
  {
    TokensPersist(c, Preempt(c, s, id, token), ops, token);
  }
}
