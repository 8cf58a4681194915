/** Exactly when a merge decision depends on the order in which envelopes arrive: when the first group of tied
    envelopes with anything wrong in it can be reported either as foreign or as duplicate. */
module MergeOrder {
  import opened Text
  import opened Options
  import opened MergeResults

  // ---- keys -----------------------------------------------------------------------------------

  predicate Tie(a: Envelope, b: Envelope) {
    a.shard == b.shard && a.attempt == b.attempt && a.backend == b.backend && a.mark == b.mark
  }

  lemma KeyTotal(a: Envelope, b: Envelope)
    ensures KeyLess(a, b) || Tie(a, b) || KeyLess(b, a)
    ensures !(KeyLess(a, b) && KeyLess(b, a)) && !(KeyLess(a, b) && Tie(a, b))
  {
    hide Less;
    LessTotal(a.shard, b.shard);
    LessTotal(a.backend, b.backend);
    LessTotal(a.mark, b.mark);
  }

  lemma KeyTransitive(a: Envelope, b: Envelope, c: Envelope)
    requires KeyLess(a, b) && KeyLess(b, c)
    ensures KeyLess(a, c)
  {
    hide Less;
    if Less(a.shard, b.shard) && Less(b.shard, c.shard) { LessTransitive(a.shard, b.shard, c.shard); }
    if Less(a.backend, b.backend) && Less(b.backend, c.backend) { LessTransitive(a.backend, b.backend, c.backend); }
    if Less(a.mark, b.mark) && Less(b.mark, c.mark) { LessTransitive(a.mark, b.mark, c.mark); }
  }

  /** Not above something is below whatever that is below, and no higher than whatever that ties with. */
  lemma KeyFollows(a: Envelope, b: Envelope, c: Envelope)
    requires !KeyLess(b, a)
    ensures KeyLess(b, c) ==> KeyLess(a, c)
    ensures Tie(b, c) ==> KeyLess(a, c) || Tie(a, c)
    ensures KeyLess(c, a) ==> KeyLess(c, b)
  {
    KeyTotal(a, b);
    if KeyLess(a, b) && KeyLess(b, c) { KeyTransitive(a, b, c); }
    if KeyLess(c, a) && KeyLess(a, b) { KeyTransitive(c, a, b); }
  }

  // ---- sorting by the whole key ---------------------------------------------------------------

  ghost predicate Ascending(es: seq<Envelope>) { forall i, k :: 0 <= i < k < |es| ==> !KeyLess(es[k], es[i]) }

  lemma {:induction false} InsertAscends(es: seq<Envelope>, e: Envelope)
    requires Ascending(es)
    ensures Ascending(Insert(es, e))
  {
    hide KeyLess;
    if es != [] {
      var most, last := es[..|es| - 1], es[|es| - 1];
      KeyTotal(last, last);
      if !KeyLess(e, last) {
        forall i | 0 <= i < |es| ensures !KeyLess(e, es[i]) {
          KeyFollows(es[i], last, e);
          NotBelowLast(e, last, es[i]);
        }
      } else {
        InsertAscends(most, e);
        InsertKeeps(most, e);
        var more := Insert(most, e);
        KeyTotal(e, last);
        forall i | 0 <= i < |more| ensures !KeyLess(last, more[i]) {
          assert more[i] in multiset(more);
          assert more[i] in most || more[i] == e;
        }
      }
    }
  }

  lemma NotBelowLast(e: Envelope, last: Envelope, x: Envelope)
    requires !KeyLess(e, last) && !KeyLess(last, x)
    ensures !KeyLess(e, x)
  {
    hide KeyLess;
    KeyTotal(x, last);
    if KeyLess(e, x) { KeyFollows(x, last, e); }
  }

  lemma {:induction false} SortAscends(es: seq<Envelope>)
    ensures Ascending(Sort(es))
  {
    if es != [] {
      SortAscends(es[..|es| - 1]);
      InsertAscends(Sort(es[..|es| - 1]), es[|es| - 1]);
    }
  }

  /** Shards rise; within a shard attempts rise, within an attempt back-ends, and within a back-end marks. */
  ghost predicate FieldsRise(a: Envelope, b: Envelope) {
    && !Less(b.shard, a.shard)
    && (a.shard == b.shard ==>
          && a.attempt <= b.attempt
          && (a.attempt == b.attempt ==>
                !Less(b.backend, a.backend) && (a.backend == b.backend ==> !Less(b.mark, a.mark))))
  }

  lemma SortsByFields(es: seq<Envelope>, i: nat, k: nat)
    requires i < k < |Sort(es)|
    ensures FieldsRise(Sort(es)[i], Sort(es)[k])
  {
    SortAscends(es);
    LessTotal(Sort(es)[i].shard, Sort(es)[k].shard);
    assert !KeyLess(Sort(es)[k], Sort(es)[i]);
  }

  // ---- filters --------------------------------------------------------------------------------

  ghost function Filter(es: seq<Envelope>, f: Envelope -> bool): seq<Envelope> {
    if es == [] then []
    else Filter(es[..|es| - 1], f) + if f(es[|es| - 1]) then [es[|es| - 1]] else []
  }

  ghost function IsBelow(x: Envelope): Envelope -> bool { (y: Envelope) => KeyLess(y, x) }

  ghost function IsTie(x: Envelope): Envelope -> bool { (y: Envelope) => Tie(y, x) }

  ghost function IsOther(x: Envelope): Envelope -> bool { (y: Envelope) => !Tie(y, x) }

  ghost function OwnTie(parent: string, x: Envelope): Envelope -> bool {
    (y: Envelope) => Tie(y, x) && y.parent == parent
  }

  ghost function ForeignTie(parent: string, x: Envelope): Envelope -> bool {
    (y: Envelope) => Tie(y, x) && y.parent != parent
  }

  lemma {:induction false} FilterBag(es: seq<Envelope>, f: Envelope -> bool, y: Envelope)
    ensures multiset(Filter(es, f))[y] == if f(y) then multiset(es)[y] else 0
  {
    if es != [] {
      var most, last := es[..|es| - 1], es[|es| - 1];
      FilterBag(most, f, y);
      assert es == most + [last];
      assert multiset(es)[y] == multiset(most)[y] + if y == last then 1 else 0;
    }
  }

  lemma FilterOfBag(a: seq<Envelope>, b: seq<Envelope>, f: Envelope -> bool)
    requires multiset(a) == multiset(b)
    ensures multiset(Filter(a, f)) == multiset(Filter(b, f)) && |Filter(a, f)| == |Filter(b, f)|
  {
    forall y ensures multiset(Filter(a, f))[y] == multiset(Filter(b, f))[y] {
      FilterBag(a, f, y);
      FilterBag(b, f, y);
    }
    SameLength(Filter(a, f), Filter(b, f));
  }

  lemma FilterHas(es: seq<Envelope>, f: Envelope -> bool, y: Envelope)
    ensures y in Filter(es, f) <==> y in es && f(y)
  {
    FilterBag(es, f, y);
    assert y in Filter(es, f) <==> multiset(Filter(es, f))[y] > 0;
    assert y in es <==> multiset(es)[y] > 0;
  }

  lemma {:induction false} FilterJoins(a: seq<Envelope>, b: seq<Envelope>, f: Envelope -> bool)
    ensures Filter(a + b, f) == Filter(a, f) + Filter(b, f)
  {
    if b == [] {
      assert a + b == a;
    } else {
      FilterJoins(a, b[..|b| - 1], f);
      assert (a + b)[..|a + b| - 1] == a + b[..|b| - 1];
    }
  }

  lemma {:induction false} FilterAll(es: seq<Envelope>, f: Envelope -> bool)
    ensures (forall y :: y in es ==> f(y)) ==> Filter(es, f) == es
    ensures (forall y :: y in es ==> !f(y)) ==> Filter(es, f) == []
  {
    if es != [] {
      var most := es[..|es| - 1];
      assert es == most + [es[|es| - 1]];
      FilterAll(most, f);
    }
  }

  lemma {:induction false} FilterCounts(es: seq<Envelope>, f: Envelope -> bool, i: nat, k: nat)
    requires i <= k < |es| && f(es[i]) && f(es[k])
    ensures |Filter(es, f)| >= if i < k then 2 else 1
  {
    var most := es[..|es| - 1];
    if k < |most| {
      FilterCounts(most, f, i, k);
    } else if i < k {
      FilterCounts(most, f, i, i);
    }
  }

  // ---- a sorted list around a key -----------------------------------------------------------------

  /** What is below `y` comes first, and what ties with `y` follows. */
  lemma {:induction false} SortedAround(es: seq<Envelope>, y: Envelope)
    requires Ascending(es)
    ensures var b, t := |Filter(es, IsBelow(y))|, |Filter(es, IsTie(y))|;
      && b + t <= |es| && Filter(es, IsBelow(y)) == es[..b] && Filter(es, IsTie(y)) == es[b..b + t]
      && (forall k :: 0 <= k < |es| ==> (k < b <==> KeyLess(es[k], y)))
      && (forall k :: 0 <= k < |es| ==> (b <= k < b + t <==> Tie(es[k], y)))
  {
    hide KeyLess, Tie;
    if es != [] {
      var most, last := es[..|es| - 1], es[|es| - 1];
      assert es == most + [last];
      SortedAround(most, y);
      KeyTotal(last, y);
      var b, t := |Filter(most, IsBelow(y))|, |Filter(most, IsTie(y))|;
      forall k | 0 <= k < |most|
        ensures KeyLess(last, y) ==> KeyLess(most[k], y)
        ensures Tie(last, y) ==> KeyLess(most[k], y) || Tie(most[k], y)
      {
        assert !KeyLess(es[|most|], es[k]);
        KeyFollows(most[k], last, y);
        KeyTotal(most[k], y);
      }
      if KeyLess(last, y) {
        assert b == |most|;
      } else if Tie(last, y) {
        assert b + t == |most|;
      }
    }
  }

  /** The sort is stable: tied envelopes keep their order. */
  lemma {:induction false} InsertStable(es: seq<Envelope>, e: Envelope, x: Envelope)
    ensures Filter(Insert(es, e), IsTie(x)) == Filter(es, IsTie(x)) + if Tie(e, x) then [e] else []
  {
    hide KeyLess;
    if es == [] || !KeyLess(e, es[|es| - 1]) {
      var more := es + [e];
      assert more[..|more| - 1] == es;
    } else {
      var most, last := es[..|es| - 1], es[|es| - 1];
      InsertStable(most, e, x);
      var more := Insert(most, e) + [last];
      assert more[..|more| - 1] == Insert(most, e);
      KeyTotal(e, last);
      assert !(Tie(e, x) && Tie(last, x));
    }
  }

  lemma {:induction false} SortStable(es: seq<Envelope>, x: Envelope)
    ensures Filter(Sort(es), IsTie(x)) == Filter(es, IsTie(x))
  {
    if es != [] {
      SortStable(es[..|es| - 1], x);
      InsertStable(Sort(es[..|es| - 1]), es[|es| - 1], x);
    }
  }

  // ---- clean lists ----------------------------------------------------------------------------------

  /** Nothing foreign and no shard twice. */
  ghost predicate Clean(parent: string, es: seq<Envelope>) { OneJob(parent, es) && OnePerShard(es) }

  lemma CleanOfBag(parent: string, a: seq<Envelope>, b: seq<Envelope>)
    requires multiset(a) == multiset(b) && Clean(parent, a)
    ensures Clean(parent, b)
  {
    OneJobOfBag(parent, a, b);
    OnePerShardOfBag(a, b);
  }

  lemma CleanPart(parent: string, p: seq<Envelope>, es: seq<Envelope>, i: nat, k: nat)
    requires i <= k <= |es| && Clean(parent, p + es[..k])
    ensures Clean(parent, p + es[..i])
  {
    var all, part := p + es[..k], p + es[..i];
    assert forall m :: 0 <= m < |part| ==> part[m] == all[m];
  }

  lemma CleanPrefix(parent: string, es: seq<Envelope>, i: nat, k: nat)
    requires i <= k <= |es| && Clean(parent, es[..k])
    ensures Clean(parent, es[..i])
  {
    CleanPart(parent, [], es, i, k);
    assert [] + es[..i] == es[..i] && [] + es[..k] == es[..k];
  }

  lemma CleanIsOwn(parent: string, p: seq<Envelope>, es: seq<Envelope>, b: nat, k: nat, x: Envelope)
    requires b <= k <= |es| && Clean(parent, p + es[..k]) && x in es[..b]
    ensures x.parent == parent
  {
    var m :| 0 <= m < b && es[..b][m] == x;
    assert (p + es[..k])[|p| + m] == x;
  }

  /** The first envelope that makes a list unclean decides the code. */
  lemma {:induction false} ProblemAt(parent: string, es: seq<Envelope>) returns (i: nat)
    requires !Clean(parent, es)
    ensures i < |es| && Clean(parent, es[..i]) && !Clean(parent, es[..i + 1])
    ensures FirstProblem(parent, es) ==
      Some(if es[i].parent != parent then ParentJobMismatch else DuplicateShardEnvelope)
  {
    var most, last := es[..|es| - 1], es[|es| - 1];
    assert es != [] && es == most + [last];
    ProblemExactly(parent, most);
    if Clean(parent, most) {
      i := |most|;
      assert es[..i] == most && es[..i + 1] == es;
      OneJobGrows(parent, most, last);
      OnePerShardGrows(most, last);
    } else {
      i := ProblemAt(parent, most);
      assert es[..i] == most[..i] && es[..i + 1] == most[..i + 1];
    }
  }

  lemma ProblemHere(parent: string, es: seq<Envelope>, i: nat)
    requires i < |es| && Clean(parent, es[..i]) && !Clean(parent, es[..i + 1])
    ensures FirstProblem(parent, es) ==
      Some(if es[i].parent != parent then ParentJobMismatch else DuplicateShardEnvelope)
  {
    var k := ProblemAt(parent, es[..i + 1]);
    assert es[..i + 1][..k + 1] == es[..k + 1];
    if k < i { CleanPrefix(parent, es, k + 1, i); }
    ProblemStays(parent, es[..i + 1], es, i + 1);
  }

  // ---- ambiguity ----------------------------------------------------------------------------------------

  /** `x` is foreign and tied, and its group comes after a clean list: it can be reported as foreign, or, behind two
      own envelopes of its group (or one, if the shard was seen before), the group is reported as duplicate. */
  ghost predicate AmbiguousAt(parent: string, earlier: seq<Envelope>, es: seq<Envelope>, x: Envelope) {
    var before, own := earlier + Filter(es, IsBelow(x)), Filter(es, OwnTie(parent, x));
    && x in es && x.parent != parent && Clean(parent, before)
    && (|own| >= 2 || (|own| == 1 && x.shard in Shards(before)))
  }

  /** Among the results, or among the failures after all results. */
  ghost predicate Ambiguous(parent: string, rs: seq<Envelope>, fs: seq<Envelope>) {
    (exists x :: AmbiguousAt(parent, [], rs, x)) || (exists x :: AmbiguousAt(parent, rs, fs, x))
  }

  ghost predicate OrderIndependent(parent: string, expected: seq<string>, rs: seq<Envelope>, fs: seq<Envelope>,
                                   policy: Policy)
  {
    forall rs2, fs2 :: multiset(rs2) == multiset(rs) && multiset(fs2) == multiset(fs) ==>
      Merge(parent, expected, rs2, fs2, policy) == Merge(parent, expected, rs, fs, policy)
  }

  // ---- two codes make an ambiguous group -------------------------------------------------------------------

  /** Two arrival orders of one list, after two orders of the same earlier list. */
  ghost predicate TwoOrders(p: seq<Envelope>, es: seq<Envelope>, p1: seq<Envelope>, s1: seq<Envelope>,
                            p2: seq<Envelope>, s2: seq<Envelope>)
  {
    && multiset(p1) == multiset(p2) == multiset(p) && multiset(s1) == multiset(s2) == multiset(es)
    && Ascending(s1) && Ascending(s2)
  }

  lemma BelowIsClean(parent: string, p: seq<Envelope>, es: seq<Envelope>, p1: seq<Envelope>, s1: seq<Envelope>,
                     i: nat, y: Envelope)
    requires multiset(p1) == multiset(p) && multiset(s1) == multiset(es) && Ascending(s1)
    requires i < |s1| && Clean(parent, p1 + s1[..i]) && !KeyLess(s1[i], y)
    ensures Clean(parent, p + Filter(es, IsBelow(y)))
  {
    hide KeyLess, Clean, Filter;
    SortedAround(s1, y);
    var b := |Filter(s1, IsBelow(y))|;
    CleanPart(parent, p1, s1, b, i);
    FilterOfBag(s1, es, IsBelow(y));
    CleanOfBag(parent, p1 + s1[..b], p + Filter(es, IsBelow(y)));
  }

  /** Whatever of a group comes first, the groups below it come before. */
  lemma SameGroup(parent: string, p: seq<Envelope>, es: seq<Envelope>, p1: seq<Envelope>, s1: seq<Envelope>,
                  p2: seq<Envelope>, s2: seq<Envelope>, i: nat, k: nat)
    requires TwoOrders(p, es, p1, s1, p2, s2) && i < |s1| && k < |s2|
    requires Clean(parent, p1 + s1[..i]) && s1[i].parent != parent
    requires Clean(parent, p2 + s2[..k]) && !Clean(parent, p2 + s2[..k + 1])
    ensures Tie(s2[k], s1[i])
  {
    hide KeyLess, Filter;
    var x, z := s1[i], s2[k];
    KeyTotal(x, z);
    KeyTotal(x, x);
    if KeyLess(z, x) {
      BelowIsClean(parent, p2, s2, p1, s1, i, x);
      SortedAround(s2, x);
      var b := |Filter(s2, IsBelow(x))|;
      CleanPart(parent, p2, s2, k + 1, b);
    } else if KeyLess(x, z) {
      SortedAround(s2, z);
      KeyTotal(z, z);
      var b := |Filter(s2, IsBelow(z))|;
      assert x in multiset(s1);
      FilterHas(s2, IsBelow(z), x);
      CleanIsOwn(parent, p2, s2, b, k, x);
    }
  }

  lemma TwoCodesAreAmbiguous(parent: string, p: seq<Envelope>, es: seq<Envelope>, p1: seq<Envelope>, s1: seq<Envelope>,
                             p2: seq<Envelope>, s2: seq<Envelope>, i: nat, k: nat)
    requires TwoOrders(p, es, p1, s1, p2, s2) && i < |s1| && k < |s2|
    requires Clean(parent, p1 + s1[..i]) && s1[i].parent != parent
    requires Clean(parent, p2 + s2[..k]) && !Clean(parent, p2 + s2[..k + 1]) && s2[k].parent == parent
    ensures AmbiguousAt(parent, p, es, s1[i])
  {
    hide KeyLess, Filter;
    var x, z := s1[i], s2[k];
    SameGroup(parent, p, es, p1, s1, p2, s2, i, k);
    KeyTotal(x, x);
    BelowIsClean(parent, p, es, p1, s1, i, x);
    assert x in multiset(s1);
    FilterOfBag(s2, es, OwnTie(parent, x));
    FilterCounts(s2, OwnTie(parent, x), k, k);
    var m := EarlierTwin(parent, p2, s2, k);
    var y := (p2 + s2[..k])[m];
    var before := p + Filter(es, IsBelow(x));
    if m >= |p2| && Tie(y, x) {
      FilterCounts(s2, OwnTie(parent, x), m - |p2|, k);
    } else {
      assert y in before by { TwinIsBelow(p, es, p2, s2, k, m, x); }
      var q :| 0 <= q < |before| && before[q] == y;
      assert Shards(before)[q] == x.shard;
    }
  }

  lemma EarlierTwin(parent: string, p2: seq<Envelope>, s2: seq<Envelope>, k: nat) returns (m: nat)
    requires k < |s2| && Clean(parent, p2 + s2[..k]) && !Clean(parent, p2 + s2[..k + 1]) && s2[k].parent == parent
    ensures m < |p2| + k && (p2 + s2[..k])[m].shard == s2[k].shard && (p2 + s2[..k])[m].parent == parent
  {
    var so := p2 + s2[..k];
    assert p2 + s2[..k + 1] == so + [s2[k]];
    OneJobGrows(parent, so, s2[k]);
    OnePerShardGrows(so, s2[k]);
    m :| 0 <= m < |Shards(so)| && Shards(so)[m] == s2[k].shard;
  }

  lemma TwinIsBelow(p: seq<Envelope>, es: seq<Envelope>, p2: seq<Envelope>, s2: seq<Envelope>, k: nat, m: nat,
                    x: Envelope)
    requires multiset(p2) == multiset(p) && multiset(s2) == multiset(es) && Ascending(s2) && k < |s2| && m < |p2| + k
    requires Tie(s2[k], x) && !(m >= |p2| && Tie((p2 + s2[..k])[m], x))
    ensures (p2 + s2[..k])[m] in p + Filter(es, IsBelow(x))
  {
    hide KeyLess, Filter;
    var y := (p2 + s2[..k])[m];
    if m < |p2| {
      assert y in multiset(p2);
      assert y in p;
    } else {
      assert y == s2[m - |p2|];
      KeyFollows(y, s2[k], x);
      assert y in multiset(s2);
      FilterHas(es, IsBelow(x), y);
    }
  }

  /** A mismatch at `i` of one order and a duplicate at `k` of another. */
  lemma CodesDiffer(parent: string, rs: seq<Envelope>, fs: seq<Envelope>, a: seq<Envelope>, f: seq<Envelope>,
                    a2: seq<Envelope>, f2: seq<Envelope>, i: nat, k: nat)
    requires TwoOrders([], rs, [], a, [], a2) && TwoOrders(rs, fs, a, f, a2, f2) && |a| == |a2|
    requires i < |a + f| && Clean(parent, (a + f)[..i]) && (a + f)[i].parent != parent
    requires k < |a2 + f2| && Clean(parent, (a2 + f2)[..k]) && !Clean(parent, (a2 + f2)[..k + 1])
    requires (a2 + f2)[k].parent == parent
    ensures Ambiguous(parent, rs, fs)
  {
    hide Clean, Ascending, AmbiguousAt;
    Slices(a, f, i);
    Slices(a2, f2, k);
    if i < |a| && k < |a2| {
      assert [] + a[..i] == a[..i] && [] + a2[..k] == a2[..k] && [] + a2[..k + 1] == a2[..k + 1];
      TwoCodesAreAmbiguous(parent, [], rs, [], a, [], a2, i, k);
    } else if i >= |a| && k >= |a2| {
      TwoCodesAreAmbiguous(parent, rs, fs, a, f, a2, f2, i - |a|, k - |a2|);
    } else if i < |a| {
      assert a[i] in multiset(a);
      ForeignResult(parent, a2, f2, k, a[i]);
    } else {
      DirtyResults(parent, a, f, a2, i, k);
    }
  }

  lemma TwoCodesMeanAmbiguous(parent: string, rs: seq<Envelope>, fs: seq<Envelope>, rs2: seq<Envelope>,
                              fs2: seq<Envelope>)
    requires multiset(rs) == multiset(rs2) && multiset(fs) == multiset(fs2)
    requires FirstProblem(parent, Sort(rs) + Sort(fs)) == Some(ParentJobMismatch)
    requires FirstProblem(parent, Sort(rs2) + Sort(fs2)) == Some(DuplicateShardEnvelope)
    ensures Ambiguous(parent, rs, fs)
  {
    hide Sort, FirstProblem, TwoOrders, Ambiguous;
    var z, z2 := Sort(rs) + Sort(fs), Sort(rs2) + Sort(fs2);
    ProblemExactly(parent, z);
    ProblemExactly(parent, z2);
    var i := ProblemAt(parent, z);
    var k := ProblemAt(parent, z2);
    Sorted4(rs, fs, rs2, fs2);
    CodesDiffer(parent, rs, fs, Sort(rs), Sort(fs), Sort(rs2), Sort(fs2), i, k);
  }

  lemma Sorted4(rs: seq<Envelope>, fs: seq<Envelope>, rs2: seq<Envelope>, fs2: seq<Envelope>)
    requires multiset(rs) == multiset(rs2) && multiset(fs) == multiset(fs2)
    ensures TwoOrders([], rs, [], Sort(rs), [], Sort(rs2))
    ensures TwoOrders(rs, fs, Sort(rs), Sort(fs), Sort(rs2), Sort(fs2))
    ensures |Sort(rs)| == |Sort(rs2)|
  {
    SortKeeps(rs);
    SortKeeps(fs);
    SortKeeps(rs2);
    SortKeeps(fs2);
    SortAscends(rs);
    SortAscends(fs);
    SortAscends(rs2);
    SortAscends(fs2);
    SameLength(rs, rs2);
  }

  lemma Slices(a: seq<Envelope>, f: seq<Envelope>, i: nat)
    requires i < |a| + |f|
    ensures i < |a| ==> (a + f)[..i] == a[..i] && (a + f)[..i + 1] == a[..i + 1] && (a + f)[i] == a[i]
    ensures i >= |a| ==> (a + f)[..i] == a + f[..i - |a|] && (a + f)[i] == f[i - |a|]
    ensures i >= |a| ==> (a + f)[..i + 1] == a + f[..i + 1 - |a|]
  {}

  lemma ForeignResult(parent: string, a2: seq<Envelope>, f2: seq<Envelope>, k: nat, x: Envelope)
    requires |a2| <= k <= |a2| + |f2| && Clean(parent, a2 + f2[..k - |a2|]) && x in a2
    ensures x.parent == parent
  {
    var m :| 0 <= m < |a2| && a2[m] == x;
    assert (a2 + f2[..k - |a2|])[m] == x;
  }

  lemma DirtyResults(parent: string, a: seq<Envelope>, f: seq<Envelope>, a2: seq<Envelope>, i: nat, k: nat)
    requires |a| <= i <= |a| + |f| && Clean(parent, a + f[..i - |a|]) && multiset(a) == multiset(a2)
    requires k < |a2|
    ensures Clean(parent, a2[..k + 1])
  {
    CleanPart(parent, a, f, 0, i - |a|);
    assert a + f[..0] == a;
    CleanOfBag(parent, a, a2);
    CleanPart(parent, [], a2, k + 1, |a2|);
    assert [] + a2[..|a2|] == a2 && [] + a2[..k + 1] == a2[..k + 1];
  }

  // ---- an ambiguous group makes two codes -------------------------------------------------------------------

  ghost function OwnFirst(parent: string, es: seq<Envelope>, x: Envelope): seq<Envelope> {
    Filter(es, OwnTie(parent, x)) + Filter(es, ForeignTie(parent, x)) + Filter(es, IsOther(x))
  }

  ghost function ForeignFirst(parent: string, es: seq<Envelope>, x: Envelope): seq<Envelope> {
    Filter(es, ForeignTie(parent, x)) + Filter(es, OwnTie(parent, x)) + Filter(es, IsOther(x))
  }

  lemma Rearranged(parent: string, es: seq<Envelope>, x: Envelope)
    ensures multiset(OwnFirst(parent, es, x)) == multiset(es) == multiset(ForeignFirst(parent, es, x))
  {
    hide Filter, Tie;
    forall y
      ensures multiset(OwnFirst(parent, es, x))[y] == multiset(es)[y] == multiset(ForeignFirst(parent, es, x))[y]
    {
      FilterBag(es, OwnTie(parent, x), y);
      FilterBag(es, ForeignTie(parent, x), y);
      FilterBag(es, IsOther(x), y);
    }
  }

  lemma AllPass(es: seq<Envelope>, f: Envelope -> bool, g: Envelope -> bool)
    ensures (forall y :: f(y) ==> g(y)) ==> Filter(Filter(es, f), g) == Filter(es, f)
    ensures (forall y :: f(y) ==> !g(y)) ==> Filter(Filter(es, f), g) == []
  {
    forall y | y in Filter(es, f) ensures f(y) { FilterHas(es, f, y); }
    FilterAll(Filter(es, f), g);
  }

  /** After sorting, the group stands where it belongs, in its new order. */
  lemma GroupOrder(parent: string, es: seq<Envelope>, x: Envelope)
    ensures Filter(Sort(OwnFirst(parent, es, x)), IsTie(x)) ==
      Filter(es, OwnTie(parent, x)) + Filter(es, ForeignTie(parent, x))
    ensures Filter(Sort(ForeignFirst(parent, es, x)), IsTie(x)) ==
      Filter(es, ForeignTie(parent, x)) + Filter(es, OwnTie(parent, x))
  {
    var own, foreign, other := Filter(es, OwnTie(parent, x)), Filter(es, ForeignTie(parent, x)), Filter(es, IsOther(x));
    SortStable(OwnFirst(parent, es, x), x);
    SortStable(ForeignFirst(parent, es, x), x);
    AllPass(es, OwnTie(parent, x), IsTie(x));
    AllPass(es, ForeignTie(parent, x), IsTie(x));
    AllPass(es, IsOther(x), IsTie(x));
    hide Filter, Sort;
    FilterJoins(own + foreign, other, IsTie(x));
    FilterJoins(own, foreign, IsTie(x));
    FilterJoins(foreign + own, other, IsTie(x));
    FilterJoins(foreign, own, IsTie(x));
  }

  /** The sorted list `s`, after `p`: clean below the group, and the group is `first` and the rest. */
  lemma GroupDecides(parent: string, earlier: seq<Envelope>, es: seq<Envelope>, p: seq<Envelope>, s: seq<Envelope>,
                     x: Envelope)
    returns (b: nat)
    requires multiset(p) == multiset(earlier) && multiset(s) == multiset(es) && Ascending(s)
    requires Clean(parent, earlier + Filter(es, IsBelow(x)))
    ensures b + |Filter(s, IsTie(x))| <= |s| && Clean(parent, p + s[..b])
    ensures Filter(s, IsTie(x)) == s[b..b + |Filter(s, IsTie(x))|]
    ensures forall id :: id in Shards(p + s[..b]) <==> id in Shards(earlier + Filter(es, IsBelow(x)))
  {
    hide KeyLess, Filter, Clean;
    SortedAround(s, x);
    b := |Filter(s, IsBelow(x))|;
    FilterOfBag(s, es, IsBelow(x));
    assert multiset(p + s[..b]) == multiset(earlier + Filter(es, IsBelow(x)));
    CleanOfBag(parent, earlier + Filter(es, IsBelow(x)), p + s[..b]);
    SameShards(p + s[..b], earlier + Filter(es, IsBelow(x)));
    SameShards(earlier + Filter(es, IsBelow(x)), earlier + Filter(es, IsBelow(x)));
  }

  lemma ForeignDecides(parent: string, p: seq<Envelope>, s: seq<Envelope>, b: nat)
    requires b < |s| && Clean(parent, p + s[..b]) && s[b].parent != parent
    ensures FirstProblem(parent, p + s) == Some(ParentJobMismatch)
  {
    var z, k := p + s, |p| + b;
    assert z[..k] == p + s[..b] && z[k] == s[b];
    assert z[..k + 1][k].parent != parent;
    ProblemHere(parent, z, k);
  }

  lemma TwinDecides(parent: string, p: seq<Envelope>, s: seq<Envelope>, b: nat)
    requires b < |s| && Clean(parent, p + s[..b]) && s[b].parent == parent && s[b].shard in Shards(p + s[..b])
    ensures FirstProblem(parent, p + s) == Some(DuplicateShardEnvelope)
  {
    var z, k := p + s, |p| + b;
    assert z[..k] == p + s[..b] && z[k] == s[b] && z[..k + 1] == z[..k] + [s[b]];
    OnePerShardGrows(z[..k], s[b]);
    ProblemHere(parent, z, k);
  }

  /** Two own envelopes of one shard in a row, or one of a shard already seen. */
  lemma OwnDecide(parent: string, p: seq<Envelope>, s: seq<Envelope>, b: nat, own: seq<Envelope>)
    requires b + |own| <= |s| && s[b..b + |own|] == own && Clean(parent, p + s[..b])
    requires forall y :: y in own ==> y.parent == parent
    requires (|own| >= 1 && own[0].shard in Shards(p + s[..b])) || (|own| >= 2 && own[0].shard == own[1].shard)
    ensures FirstProblem(parent, p + s) == Some(DuplicateShardEnvelope)
  {
    assert s[b] == own[0] && own[0] in own;
    if s[b].shard in Shards(p + s[..b]) {
      TwinDecides(parent, p, s, b);
    } else {
      assert s[b + 1] == own[1] && own[1] in own;
      var more := p + s[..b + 1];
      assert more == p + s[..b] + [s[b]];
      OneJobGrows(parent, p + s[..b], s[b]);
      OnePerShardGrows(p + s[..b], s[b]);
      assert Shards(more)[|p| + b] == s[b].shard;
      TwinDecides(parent, p, s, b + 1);
    }
  }

  /** Both codes are possible for the list `es` after `p`. */
  lemma AmbiguousGroup(parent: string, earlier: seq<Envelope>, es: seq<Envelope>, p: seq<Envelope>, x: Envelope)
    requires AmbiguousAt(parent, earlier, es, x) && multiset(p) == multiset(earlier)
    ensures FirstProblem(parent, p + Sort(OwnFirst(parent, es, x))) == Some(DuplicateShardEnvelope)
    ensures FirstProblem(parent, p + Sort(ForeignFirst(parent, es, x))) == Some(ParentJobMismatch)
  {
    var one, two := OwnFirst(parent, es, x), ForeignFirst(parent, es, x);
    var own, foreign := Filter(es, OwnTie(parent, x)), Filter(es, ForeignTie(parent, x));
    Rearranged(parent, es, x);
    SortKeeps(one);
    SortKeeps(two);
    SortAscends(one);
    SortAscends(two);
    GroupOrder(parent, es, x);
    hide OwnFirst, ForeignFirst, Sort, Filter, FirstProblem, Ascending;
    Members(parent, es, x);
    var b := GroupDecides(parent, earlier, es, p, Sort(one), x);
    GroupHead(Sort(one), b, own, foreign);
    assert own[0] in own;
    OwnDecide(parent, p, Sort(one), b, own);
    var d := GroupDecides(parent, earlier, es, p, Sort(two), x);
    GroupHead(Sort(two), d, foreign, own);
    assert foreign[0] in foreign;
    ForeignDecides(parent, p, Sort(two), d);
  }

  lemma GroupHead(s: seq<Envelope>, b: nat, first: seq<Envelope>, rest: seq<Envelope>)
    requires b + |first + rest| <= |s| && s[b..b + |first + rest|] == first + rest
    ensures s[b..b + |first|] == first && (first != [] ==> s[b] == first[0])
  {
    assert forall m :: 0 <= m < |first| ==> s[b..b + |first + rest|][m] == first[m];
  }

  lemma Members(parent: string, es: seq<Envelope>, x: Envelope)
    ensures forall y :: y in Filter(es, OwnTie(parent, x)) ==> y.parent == parent && y.shard == x.shard
    ensures forall y :: y in Filter(es, ForeignTie(parent, x)) ==> y.parent != parent
    ensures x in es && x.parent != parent ==> Filter(es, ForeignTie(parent, x)) != []
  {
    hide Filter;
    forall y
      ensures y in Filter(es, OwnTie(parent, x)) ==> y.parent == parent && y.shard == x.shard
      ensures y in Filter(es, ForeignTie(parent, x)) ==> y.parent != parent
    {
      FilterHas(es, OwnTie(parent, x), y);
      FilterHas(es, ForeignTie(parent, x), y);
    }
    FilterHas(es, ForeignTie(parent, x), x);
  }

  // ---- the theorem ----------------------------------------------------------------------------------------------

  lemma CodeOf(parent: string, expected: seq<string>, rs: seq<Envelope>, fs: seq<Envelope>, policy: Policy, code: Code)
    requires FirstProblem(parent, Sort(rs) + Sort(fs)) == Some(code)
    ensures Merge(parent, expected, rs, fs, policy) == Decision(code, [], [], expected, [])
  {
    hide Sort, FirstProblem, Unseen, Shards;
  }

  lemma AmbiguousDepends(parent: string, expected: seq<string>, rs: seq<Envelope>, fs: seq<Envelope>, policy: Policy)
    requires Ambiguous(parent, rs, fs)
    ensures !OrderIndependent(parent, expected, rs, fs, policy)
  {
    hide AmbiguousAt, Merge, FirstProblem, Sort, OwnFirst, ForeignFirst;
    if x :| AmbiguousAt(parent, [], rs, x) {
      var one, two := OwnFirst(parent, rs, x), ForeignFirst(parent, rs, x);
      Rearranged(parent, rs, x);
      AmbiguousGroup(parent, [], rs, [], x);
      assert [] + Sort(one) == Sort(one) && [] + Sort(two) == Sort(two);
      JoinedProblem(parent, Sort(one), Sort(fs));
      JoinedProblem(parent, Sort(two), Sort(fs));
      CodeOf(parent, expected, one, fs, policy, DuplicateShardEnvelope);
      CodeOf(parent, expected, two, fs, policy, ParentJobMismatch);
    } else {
      var x :| AmbiguousAt(parent, rs, fs, x);
      var one, two := OwnFirst(parent, fs, x), ForeignFirst(parent, fs, x);
      Rearranged(parent, fs, x);
      SortKeeps(rs);
      AmbiguousGroup(parent, rs, fs, Sort(rs), x);
      CodeOf(parent, expected, rs, one, policy, DuplicateShardEnvelope);
      CodeOf(parent, expected, rs, two, policy, ParentJobMismatch);
    }
  }

  lemma JoinedProblem(parent: string, a: seq<Envelope>, b: seq<Envelope>)
    requires FirstProblem(parent, a).Some?
    ensures FirstProblem(parent, a + b) == FirstProblem(parent, a)
  {
    assert (a + b)[..|a|] == a;
    ProblemStays(parent, a, a + b, |a|);
  }

  lemma UnambiguousAgrees(parent: string, expected: seq<string>, rs: seq<Envelope>, fs: seq<Envelope>,
                          rs2: seq<Envelope>,
                          fs2: seq<Envelope>, policy: Policy)
    requires multiset(rs) == multiset(rs2) && multiset(fs) == multiset(fs2)
    requires !Ambiguous(parent, rs, fs) && !Ambiguous(parent, rs2, fs2)
    ensures Merge(parent, expected, rs, fs, policy) == Merge(parent, expected, rs2, fs2, policy)
  {
    hide Merge, FirstProblem, Sort, Ambiguous;
    if Clean(parent, rs + fs) {
      OrderDoesNotMatter(parent, expected, rs, fs, rs2, fs2, policy);
    } else {
      var c := SomeCode(parent, rs, fs);
      assert multiset(rs2 + fs2) == multiset(rs + fs);
      if Clean(parent, rs2 + fs2) { CleanOfBag(parent, rs2 + fs2, rs + fs); }
      var c2 := SomeCode(parent, rs2, fs2);
      if c == ParentJobMismatch && c2 == DuplicateShardEnvelope { TwoCodesMeanAmbiguous(parent, rs, fs, rs2, fs2); }
      if c2 == ParentJobMismatch && c == DuplicateShardEnvelope { TwoCodesMeanAmbiguous(parent, rs2, fs2, rs, fs); }
      CodeOf(parent, expected, rs, fs, policy, c);
      CodeOf(parent, expected, rs2, fs2, policy, c2);
    }
  }

  lemma SomeCode(parent: string, rs: seq<Envelope>, fs: seq<Envelope>) returns (code: Code)
    requires !Clean(parent, rs + fs)
    ensures FirstProblem(parent, Sort(rs) + Sort(fs)) == Some(code)
      && code in {ParentJobMismatch, DuplicateShardEnvelope}
  {
    hide Sort, FirstProblem;
    BagsJoin(rs, fs);
    ProblemExactly(parent, Sort(rs) + Sort(fs));
    if Clean(parent, Sort(rs) + Sort(fs)) { CleanOfBag(parent, Sort(rs) + Sort(fs), rs + fs); }
    code := FirstProblem(parent, Sort(rs) + Sort(fs)).value;
  }

  /** Ambiguity does not depend on the order of arrival. */
  lemma AmbiguousOfBag(parent: string, p: seq<Envelope>, es: seq<Envelope>, p2: seq<Envelope>, es2: seq<Envelope>,
                       x: Envelope)
    requires multiset(p) == multiset(p2) && multiset(es) == multiset(es2) && AmbiguousAt(parent, p, es, x)
    ensures AmbiguousAt(parent, p2, es2, x)
  {
    hide Filter, Clean;
    var before, before2 := p + Filter(es, IsBelow(x)), p2 + Filter(es2, IsBelow(x));
    FilterOfBag(es, es2, IsBelow(x));
    FilterOfBag(es, es2, OwnTie(parent, x));
    CleanOfBag(parent, before, before2);
    SameShards(before, before2);
    SameShards(before2, before2);
    assert x in multiset(es);
  }

  /** The decision is the same for every arrival order of results and failures exactly when no group is ambiguous. */
  lemma OrderMattersExactly(parent: string, expected: seq<string>, rs: seq<Envelope>, fs: seq<Envelope>, policy: Policy)
    ensures OrderIndependent(parent, expected, rs, fs, policy) <==> !Ambiguous(parent, rs, fs)
  {
    hide Merge, AmbiguousAt;
    if Ambiguous(parent, rs, fs) {
      AmbiguousDepends(parent, expected, rs, fs, policy);
    } else {
      forall rs2, fs2 | multiset(rs2) == multiset(rs) && multiset(fs2) == multiset(fs)
        ensures Merge(parent, expected, rs2, fs2, policy) == Merge(parent, expected, rs, fs, policy)
      {
        forall x ensures !AmbiguousAt(parent, [], rs2, x) && !AmbiguousAt(parent, rs2, fs2, x) {
          if AmbiguousAt(parent, [], rs2, x) { AmbiguousOfBag(parent, [], rs2, [], rs, x); }
          if AmbiguousAt(parent, rs2, fs2, x) { AmbiguousOfBag(parent, rs2, fs2, rs, fs, x); }
        }
        UnambiguousAgrees(parent, expected, rs2, fs2, rs, fs, policy);
      }
    }
  }
}
