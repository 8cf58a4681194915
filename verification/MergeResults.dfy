/** The merge decision over shard outcomes: what is rejected, what is merged, and that the order in which the
    envelopes of one job arrive does not matter. */
module MergeResults {
  import opened Text
  import opened Options
  import SplitPlan

  /** A result or a failure. `mark` is the last sort key (the payload checksum, or the rank of the failure's reason
      code as text) and `body` the fields nobody compares. */
  datatype Envelope = Envelope(parent: string, shard: string, attempt: nat, backend: string, mark: string, body: string)

  datatype Policy = AllShardsRequired | Quorum(min: nat)

  datatype Code =
    | AllShardsMerged | QuorumSatisfied | QuorumNotReached | MissingExpectedShards | ParentJobMismatch
    | DuplicateShardEnvelope

  datatype Decision = Decision(
    code: Code, merged: seq<string>, failed: seq<string>, missing: seq<string>, failures: seq<Envelope>)

  // ---- the decision ------------------------------------------------------------------------------

  predicate KeyLess(a: Envelope, b: Envelope) {
    Less(a.shard, b.shard)
    || (a.shard == b.shard
        && (a.attempt < b.attempt
            || (a.attempt == b.attempt
                && (Less(a.backend, b.backend) || (a.backend == b.backend && Less(a.mark, b.mark))))))
  }

  /** Puts `e` after everything that is not greater. */
  function Insert(es: seq<Envelope>, e: Envelope): seq<Envelope> {
    if es == [] || !KeyLess(e, es[|es| - 1]) then es + [e] else Insert(es[..|es| - 1], e) + [es[|es| - 1]]
  }

  /** The stable sort by shard, attempt, back-end and mark. */
  function Sort(es: seq<Envelope>): seq<Envelope> {
    if es == [] then [] else Insert(Sort(es[..|es| - 1]), es[|es| - 1])
  }

  function Shards(es: seq<Envelope>): seq<string> { seq(|es|, i requires 0 <= i < |es| => es[i].shard) }

  /** The first envelope of another job, or of a shard already seen. */
  function FirstProblem(parent: string, es: seq<Envelope>): Option<Code> {
    if es == [] then None
    else
      var before, last := FirstProblem(parent, es[..|es| - 1]), es[|es| - 1];
      if before.Some? then before
      else if last.parent != parent then Some(ParentJobMismatch)
      else if last.shard in Shards(es[..|es| - 1]) then Some(DuplicateShardEnvelope)
      else None
  }

  function Unseen(expected: seq<string>, seen: seq<string>): seq<string> {
    if expected == [] then []
    else
      var last := expected[|expected| - 1];
      Unseen(expected[..|expected| - 1], seen) + if last in seen then [] else [last]
  }

  function CodeFor(policy: Policy, merged: nat, failed: nat, missing: nat): Code {
    match policy
    case AllShardsRequired => if missing == 0 && failed == 0 then AllShardsMerged else MissingExpectedShards
    case Quorum(min) => if merged >= min then QuorumSatisfied else QuorumNotReached
  }

  function Decide(parent: string, expected: seq<string>, rs: seq<Envelope>, fs: seq<Envelope>, policy: Policy): Decision
  {
    var problem := FirstProblem(parent, rs + fs);
    if problem.Some? then Decision(problem.value, [], [], expected, [])
    else
      var missing := Unseen(expected, Shards(rs + fs));
      Decision(CodeFor(policy, |rs|, |fs|, |missing|), Shards(rs), Shards(fs), missing, fs)
  }

  function Merge(parent: string, expected: seq<string>, results: seq<Envelope>, failures: seq<Envelope>, policy: Policy)
    : Decision
  {
    Decide(parent, expected, Sort(results), Sort(failures), policy)
  }

  // ---- the loops -----------------------------------------------------------------------------------

  /** One of the two scanning loops; `before` is what the earlier loop has seen. */
  method Scan(parent: string, ghost before: seq<Envelope>, es: seq<Envelope>, observed: set<string>)
    returns (problem: Option<Code>, ids: seq<string>, seen: set<string>)
    requires FirstProblem(parent, before).None? && (forall id :: id in observed <==> id in Shards(before))
    ensures problem == FirstProblem(parent, before + es)
    ensures problem.None? ==> ids == Shards(es) && (forall id :: id in seen <==> id in Shards(before + es))
  {
    hide FirstProblem, Shards;
    ids, seen := [], observed;
    NoShards();
    assert before + es[..0] == before && es[..0] == [];
    for i := 0 to |es|
      invariant FirstProblem(parent, before + es[..i]).None?
      invariant ids == Shards(es[..i]) && forall id :: id in seen <==> id in Shards(before + es[..i])
    {
      var e := es[i];
      ghost var so := before + es[..i];
      assert before + es[..i + 1] == so + [e] && es[..i + 1] == es[..i] + [e] && so + [e] == (before + es)[..|so| + 1];
      OneMoreScanned(parent, so, e, before + es);
      ShardsGrow(es[..i], e);
      if e.parent != parent { return Some(ParentJobMismatch), ids, seen; }
      if e.shard in seen { return Some(DuplicateShardEnvelope), ids, seen; }
      seen := seen + {e.shard};
      ids := ids + [e.shard];
    }
    assert es[..|es|] == es;
    problem := None;
  }

  lemma NoShards()
    ensures Shards([]) == []
  {}

  lemma OneMoreScanned(parent: string, so: seq<Envelope>, e: Envelope, all: seq<Envelope>)
    requires |so| < |all| && so + [e] == all[..|so| + 1] && FirstProblem(parent, so).None?
    ensures Shards(so + [e]) == Shards(so) + [e.shard]
    ensures if e.parent != parent then FirstProblem(parent, all) == Some(ParentJobMismatch)
            else if e.shard in Shards(so) then FirstProblem(parent, all) == Some(DuplicateShardEnvelope)
            else FirstProblem(parent, so + [e]).None?
  {
    var next := so + [e];
    assert next[..|next| - 1] == so;
    ShardsGrow(so, e);
    ProblemStays(parent, next, all, |next|);
  }

  lemma ShardsGrow(es: seq<Envelope>, e: Envelope)
    ensures Shards(es + [e]) == Shards(es) + [e.shard]
  {}

  lemma {:induction false} ProblemStays(parent: string, es: seq<Envelope>, all: seq<Envelope>, n: nat)
    requires n <= |all| && es == all[..n]
    ensures FirstProblem(parent, es).Some? ==> FirstProblem(parent, all) == FirstProblem(parent, es)
    decreases |all|
  {
    if n == |all| {
      assert es == all;
    } else {
      assert all[..|all| - 1][..n] == es;
      ProblemStays(parent, es, all[..|all| - 1], n);
    }
  }

  method MergePartialResults(parent: string, expected: seq<string>, results: seq<Envelope>, failures: seq<Envelope>,
                             policy: Policy)
    returns (d: Decision)
    ensures d == Merge(parent, expected, results, failures, policy)
  {
    hide KeyLess, Sort, FirstProblem, Shards;
    var rs, fs := Sort(results), Sort(failures);
    NoProblem(parent);
    var problem, merged, observed := Scan(parent, [], rs, {});
    assert [] + rs == rs;
    ProblemStays(parent, rs, rs + fs, |rs|);
    if problem.Some? { return Decision(problem.value, [], [], expected, []); }
    var problem2, failed, observed2 := Scan(parent, rs, fs, observed);
    if problem2.Some? { return Decision(problem2.value, [], [], expected, []); }
    var missing: seq<string> := [];
    for i := 0 to |expected|
      invariant missing == Unseen(expected[..i], Shards(rs + fs))
    {
      assert expected[..i + 1][..i] == expected[..i];
      if expected[i] !in observed2 { missing := missing + [expected[i]]; }
    }
    assert expected[..|expected|] == expected;
    LengthOfShards(rs);
    LengthOfShards(fs);
    d := Decision(CodeFor(policy, |merged|, |failed|, |missing|), merged, failed, missing, fs);
  }

  lemma NoProblem(parent: string)
    ensures FirstProblem(parent, []) == None && Shards([]) == []
  {}

  lemma LengthOfShards(es: seq<Envelope>)
    ensures |Shards(es)| == |es|
  {}

  // ---- what is rejected ------------------------------------------------------------------------------

  ghost predicate OneJob(parent: string, es: seq<Envelope>) { forall i :: 0 <= i < |es| ==> es[i].parent == parent }

  ghost predicate OnePerShard(es: seq<Envelope>) { forall i, k :: 0 <= i < k < |es| ==> es[i].shard != es[k].shard }

  lemma {:induction false} ProblemExactly(parent: string, es: seq<Envelope>)
    ensures FirstProblem(parent, es).None? <==> OneJob(parent, es) && OnePerShard(es)
    ensures OneJob(parent, es) ==> FirstProblem(parent, es) in {None, Some(DuplicateShardEnvelope)}
    ensures FirstProblem(parent, es) in {None, Some(DuplicateShardEnvelope), Some(ParentJobMismatch)}
  {
    if es != [] {
      var most, last := es[..|es| - 1], es[|es| - 1];
      ProblemExactly(parent, most);
      hide Shards;
      OneJobGrows(parent, most, last);
      OnePerShardGrows(most, last);
      assert es == most + [last];
      hide OneJob, OnePerShard;
    }
  }

  lemma OneJobGrows(parent: string, es: seq<Envelope>, e: Envelope)
    ensures OneJob(parent, es + [e]) <==> OneJob(parent, es) && e.parent == parent
  {
    var more := es + [e];
    assert forall i :: 0 <= i < |es| ==> more[i] == es[i];
    assert more[|es|] == e;
  }

  lemma OnePerShardGrows(es: seq<Envelope>, e: Envelope)
    ensures OnePerShard(es + [e]) <==> OnePerShard(es) && e.shard !in Shards(es)
  {
    var more := es + [e];
    assert forall i :: 0 <= i < |es| ==> more[i] == es[i] && Shards(es)[i] == es[i].shard;
    assert more[|es|] == e;
    if e.shard in Shards(es) {
      var i :| 0 <= i < |es| && Shards(es)[i] == e.shard;
      assert more[i].shard == more[|es|].shard;
    }
  }

  predicate Rejected(d: Decision) { d.code in {ParentJobMismatch, DuplicateShardEnvelope} }

  // ---- sorting -----------------------------------------------------------------------------------------

  lemma {:induction false} InsertKeeps(es: seq<Envelope>, e: Envelope)
    ensures multiset(Insert(es, e)) == multiset(es) + multiset{e} && |Insert(es, e)| == |es| + 1
  {
    if !(es == [] || !KeyLess(e, es[|es| - 1])) {
      var most, last := es[..|es| - 1], es[|es| - 1];
      InsertKeeps(most, e);
      assert es == most + [last];
    }
  }

  lemma {:induction false} SortKeeps(es: seq<Envelope>)
    ensures multiset(Sort(es)) == multiset(es) && |Sort(es)| == |es|
  {
    if es != [] {
      var most, last := es[..|es| - 1], es[|es| - 1];
      hide Insert;
      SortKeeps(most);
      InsertKeeps(Sort(most), last);
      assert multiset(es) == multiset(most) + multiset{last} by { assert es == most + [last]; }
    }
  }

  ghost predicate Rising(es: seq<Envelope>) { forall i, k :: 0 <= i < k < |es| ==> !Less(es[k].shard, es[i].shard) }

  lemma {:induction false} InsertRises(es: seq<Envelope>, e: Envelope)
    requires Rising(es)
    ensures Rising(Insert(es, e))
  {
    hide Less;
    if es == [] {
    } else if !KeyLess(e, es[|es| - 1]) {
      LessTotal(es[|es| - 1].shard, es[|es| - 1].shard);
      forall i | 0 <= i < |es| ensures !Less(e.shard, es[i].shard) {
        NotBelow(e.shard, es[|es| - 1].shard, es[i].shard);
      }
    } else {
      var most, last := es[..|es| - 1], es[|es| - 1];
      InsertRises(most, e);
      InsertKeeps(most, e);
      var more := Insert(most, e);
      LessTotal(e.shard, last.shard);
      forall i | 0 <= i < |more| ensures !Less(last.shard, more[i].shard) {
        assert more[i] in multiset(more);
        assert more[i] in most || more[i] == e;
      }
    }
  }

  /** Not below the last, and the last not below another: not below that one either. */
  lemma NotBelow(a: string, b: string, c: string)
    requires !Less(a, b) && !Less(b, c)
    ensures !Less(a, c)
  {
    hide Less;
    LessTotal(a, b);
    LessTotal(b, c);
    LessTotal(a, c);
    if Less(b, a) && Less(c, b) { LessTransitive(c, b, a); }
  }

  lemma {:induction false} SortRises(es: seq<Envelope>)
    ensures Rising(Sort(es))
  {
    if es != [] {
      SortRises(es[..|es| - 1]);
      InsertRises(Sort(es[..|es| - 1]), es[|es| - 1]);
    }
  }

  /** With one envelope a shard, sorting by shard leaves no choice. */
  lemma {:induction false} SortedOneWay(a: seq<Envelope>, b: seq<Envelope>)
    requires multiset(a) == multiset(b) && Rising(a) && Rising(b) && OnePerShard(a) && OnePerShard(b)
    ensures a == b
    decreases |a|
  {
    SameLength(a, b);
    if a != [] {
      SameLast(a, b);
      var ma, mb := a[..|a| - 1], b[..|b| - 1];
      assert a == ma + [a[|a| - 1]] && b == mb + [b[|b| - 1]];
      MostOf(a);
      MostOf(b);
      hide Rising, OnePerShard;
      SortedOneWay(ma, mb);
    }
  }

  lemma MostOf(a: seq<Envelope>)
    requires a != []
    ensures multiset(a[..|a| - 1]) == multiset(a) - multiset{a[|a| - 1]}
    ensures Rising(a) ==> Rising(a[..|a| - 1])
    ensures OnePerShard(a) ==> OnePerShard(a[..|a| - 1])
  {
    hide Less;
    assert a == a[..|a| - 1] + [a[|a| - 1]];
  }

  lemma SameLength(a: seq<Envelope>, b: seq<Envelope>)
    requires multiset(a) == multiset(b)
    ensures |a| == |b|
  {
    assert |a| == |multiset(a)| == |b|;
  }

  lemma SameLast(a: seq<Envelope>, b: seq<Envelope>)
    requires multiset(a) == multiset(b) && Rising(a) && Rising(b) && OnePerShard(b) && a != [] && b != []
    ensures a[|a| - 1] == b[|b| - 1]
  {
    hide Less;
    var x, y := a[|a| - 1], b[|b| - 1];
    LastIsGreatest(a, b);
    LastIsGreatest(b, a);
    LessTotal(x.shard, y.shard);
    assert x in multiset(a);
    assert x in b && y in b;
    hide Rising, OnePerShard;
    SameShardSame(b, x, y);
  }

  lemma LastIsGreatest(a: seq<Envelope>, b: seq<Envelope>)
    requires multiset(a) == multiset(b) && Rising(b) && a != [] && b != []
    ensures !Less(b[|b| - 1].shard, a[|a| - 1].shard)
  {
    hide Less;
    var x := a[|a| - 1];
    assert x in multiset(a) && x in b;
    var i :| 0 <= i < |b| && b[i] == x;
    LessTotal(x.shard, x.shard);
  }

  lemma SameShardSame(b: seq<Envelope>, x: Envelope, y: Envelope)
    requires OnePerShard(b) && x in b && y in b && x.shard == y.shard
    ensures x == y
  {
    var i :| 0 <= i < |b| && b[i] == x;
    var k :| 0 <= k < |b| && b[k] == y;
    assert i == k;
  }

  // ---- what an accepted merge reports --------------------------------------------------------------------

  ghost predicate HasResult(rs: seq<Envelope>, shard: string) { exists k :: 0 <= k < |rs| && rs[k].shard == shard }

  /** An accepted merge lists exactly the shards with results, the shards with failures (with their envelopes) and
      the expected shards with neither, the first two in order, and counts results for a quorum. */
  lemma AcceptedReports(parent: string, expected: seq<string>, rs: seq<Envelope>, fs: seq<Envelope>, policy: Policy)
    requires OneJob(parent, rs + fs) && OnePerShard(rs + fs)
    ensures var d := Merge(parent, expected, rs, fs, policy);
      && (forall id :: id in d.merged <==> HasResult(rs, id)) && |d.merged| == |rs|
      && (forall id :: id in d.failed <==> HasResult(fs, id)) && |d.failed| == |fs|
      && Rises(d.merged) && Rises(d.failed)
      && multiset(d.failures) == multiset(fs) && Rising(d.failures)
      && (forall id :: id in d.missing <==> id in expected && !HasResult(rs, id) && !HasResult(fs, id))
      && (policy.Quorum? ==> (d.code == QuorumSatisfied <==> |rs| >= policy.min))
  {
    RejectedExactly(parent, expected, rs, fs, policy);
    SortKeeps(rs);
    SortKeeps(fs);
    SortRises(fs);
    SortRises(rs);
    PartsOfOnePerShard(rs, fs);
    OnePerShardOfBag(rs, Sort(rs));
    OnePerShardOfBag(fs, Sort(fs));
    ShardsInOrder(Sort(rs));
    ShardsInOrder(Sort(fs));
    SameShards(Sort(rs), rs);
    SameShards(Sort(fs), fs);
    ShardsJoin(Sort(rs), Sort(fs));
    UnseenExactly(expected, Shards(Sort(rs) + Sort(fs)));
    ProblemExactly(parent, Sort(rs) + Sort(fs));
    LengthOfShards(Sort(rs));
    LengthOfShards(Sort(fs));
    hide Sort, FirstProblem, Unseen, Shards, HasResult, OneJob, OnePerShard, Rising, Rises;
  }

  lemma ShardsInOrder(es: seq<Envelope>)
    requires Rising(es) && OnePerShard(es)
    ensures Rises(Shards(es))
  {
    hide Less;
    forall i, k | 0 <= i < k < |es| ensures Less(es[i].shard, es[k].shard) { LessTotal(es[i].shard, es[k].shard); }
  }

  lemma ShardsJoin(a: seq<Envelope>, b: seq<Envelope>)
    ensures Shards(a + b) == Shards(a) + Shards(b)
  {}

  // ---- order does not matter -------------------------------------------------------------------------------

  /** Both conditions depend only on which envelopes there are. */
  lemma OneJobOfBag(parent: string, a: seq<Envelope>, b: seq<Envelope>)
    requires multiset(a) == multiset(b) && OneJob(parent, a)
    ensures OneJob(parent, b)
  {
    forall i | 0 <= i < |b| ensures b[i].parent == parent {
      assert b[i] in multiset(b);
      assert b[i] in a;
    }
  }

  lemma OnePerShardOfBag(a: seq<Envelope>, b: seq<Envelope>)
    requires multiset(a) == multiset(b) && OnePerShard(a)
    ensures OnePerShard(b)
  {
    forall i, k | 0 <= i < k < |b| ensures b[i].shard != b[k].shard {
      if b[i].shard == b[k].shard {
        assert b[i] in multiset(b) && b[k] in multiset(b);
        assert b[i] in a && b[k] in a;
        SameShardSame(a, b[i], b[k]);
        Twice(b, i, k);
        Once(a, b[i]);
      }
    }
  }

  lemma Twice(b: seq<Envelope>, i: nat, k: nat)
    requires i < k < |b| && b[i] == b[k]
    ensures multiset(b)[b[i]] >= 2
  {
    assert b == b[..k] + [b[k]] + b[k + 1..];
    assert b[i] in b[..k];
  }

  lemma Once(a: seq<Envelope>, x: Envelope)
    requires OnePerShard(a)
    ensures multiset(a)[x] <= 1
  {
    if x in a {
      var i :| 0 <= i < |a| && a[i] == x;
      assert a == a[..i] + [a[i]] + a[i + 1..];
      assert x !in a[..i] && x !in a[i + 1..];
    }
  }

  lemma BagsJoin(a: seq<Envelope>, b: seq<Envelope>)
    ensures multiset(Sort(a) + Sort(b)) == multiset(a + b)
  {
    SortKeeps(a);
    SortKeeps(b);
  }

  /** A merge is rejected exactly when some envelope belongs to another job or some shard has two. */
  lemma RejectedExactly(parent: string, expected: seq<string>, rs: seq<Envelope>, fs: seq<Envelope>, policy: Policy)
    ensures Rejected(Merge(parent, expected, rs, fs, policy)) <==> !(OneJob(parent, rs + fs) && OnePerShard(rs + fs))
    ensures OneJob(parent, rs + fs) && !OnePerShard(rs + fs) ==>
      Merge(parent, expected, rs, fs, policy).code == DuplicateShardEnvelope
  {
    var sorted := Sort(rs) + Sort(fs);
    BagsJoin(rs, fs);
    hide Sort, FirstProblem, Unseen, Shards;
    ProblemExactly(parent, sorted);
    if OneJob(parent, sorted) { OneJobOfBag(parent, sorted, rs + fs); }
    if OneJob(parent, rs + fs) { OneJobOfBag(parent, rs + fs, sorted); }
    if OnePerShard(sorted) { OnePerShardOfBag(sorted, rs + fs); }
    if OnePerShard(rs + fs) { OnePerShardOfBag(rs + fs, sorted); }
  }

  lemma PartsOfOnePerShard(a: seq<Envelope>, b: seq<Envelope>)
    requires OnePerShard(a + b)
    ensures OnePerShard(a) && OnePerShard(b)
  {
    assert forall i :: 0 <= i < |a| ==> (a + b)[i] == a[i];
    forall i, k | 0 <= i < k < |b| ensures b[i].shard != b[k].shard {
      assert (a + b)[|a| + i] == b[i] && (a + b)[|a| + k] == b[k];
    }
  }

  lemma SortOfBag(a: seq<Envelope>, b: seq<Envelope>)
    requires multiset(a) == multiset(b) && OnePerShard(a)
    ensures Sort(a) == Sort(b)
  {
    hide Sort;
    SortKeeps(a);
    SortKeeps(b);
    SortRises(a);
    SortRises(b);
    OnePerShardOfBag(a, Sort(a));
    OnePerShardOfBag(a, Sort(b));
    SortedOneWay(Sort(a), Sort(b));
  }

  /** For envelopes of one job the decision does not depend on the order in which they arrive. */
  lemma OrderDoesNotMatter(parent: string, expected: seq<string>, rs: seq<Envelope>, fs: seq<Envelope>,
                           rs2: seq<Envelope>, fs2: seq<Envelope>, policy: Policy)
    requires multiset(rs) == multiset(rs2) && multiset(fs) == multiset(fs2) && OneJob(parent, rs + fs)
    ensures Merge(parent, expected, rs, fs, policy) == Merge(parent, expected, rs2, fs2, policy)
  {
    assert multiset(rs + fs) == multiset(rs2 + fs2);
    if OnePerShard(rs + fs) {
      PartsOfOnePerShard(rs, fs);
      hide Sort, Decide;
      SortOfBag(rs, rs2);
      SortOfBag(fs, fs2);
    } else {
      OneJobOfBag(parent, rs + fs, rs2 + fs2);
      if OnePerShard(rs2 + fs2) { OnePerShardOfBag(rs2 + fs2, rs + fs); }
      hide Sort, FirstProblem, Unseen, Shards, OnePerShard, OneJob;
      RejectedExactly(parent, expected, rs, fs, policy);
      RejectedExactly(parent, expected, rs2, fs2, policy);
      RejectionSaysNothing(parent, expected, Sort(rs), Sort(fs), policy);
      RejectionSaysNothing(parent, expected, Sort(rs2), Sort(fs2), policy);
    }
  }

  lemma RejectionSaysNothing(parent: string, expected: seq<string>, rs: seq<Envelope>, fs: seq<Envelope>,
                             policy: Policy)
    requires Rejected(Decide(parent, expected, rs, fs, policy))
    ensures var d := Decide(parent, expected, rs, fs, policy); d == Decision(d.code, [], [], expected, [])
  {
    hide FirstProblem, Unseen, Shards;
  }

  // ---- split, then merge -------------------------------------------------------------------------------------

  lemma {:induction false} UnseenExactly(expected: seq<string>, seen: seq<string>)
    ensures Unseen(expected, seen) == [] <==> forall i :: 0 <= i < |expected| ==> expected[i] in seen
    ensures forall id :: id in Unseen(expected, seen) <==> id in expected && id !in seen
  {
    if expected != [] {
      var most, last := expected[..|expected| - 1], expected[|expected| - 1];
      UnseenExactly(most, seen);
      assert expected == most + [last];
    }
  }

  /** The missing ids keep the order in which they were expected. */
  lemma {:induction false} UnseenJoins(a: seq<string>, b: seq<string>, seen: seq<string>)
    ensures Unseen(a + b, seen) == Unseen(a, seen) + Unseen(b, seen)
    decreases |b|
  {
    if b == [] {
      assert a + b == a;
    } else {
      var most := b[..|b| - 1];
      assert (a + b)[..|a + b| - 1] == a + most;
      UnseenJoins(a, most, seen);
    }
  }

  function PlannedIds(shards: seq<SplitPlan.Shard>): seq<string> {
    seq(|shards|, i requires 0 <= i < |shards| => shards[i].id)
  }

  lemma NothingMissing(shards: seq<SplitPlan.Shard>, rs: seq<Envelope>)
    ensures Unseen(PlannedIds(shards), Shards(Sort(rs))) == [] <==>
      forall i :: 0 <= i < |shards| ==> HasResult(rs, shards[i].id)
  {
    var expected, srs := PlannedIds(shards), Sort(rs);
    UnseenExactly(expected, Shards(srs));
    SortKeeps(rs);
    SameShards(srs, rs);
    hide Sort, Unseen, HasResult, Shards;
    assert forall i :: 0 <= i < |shards| ==> expected[i] == shards[i].id;
  }

  /** Merging the outcomes of a plan reports that everything merged exactly when every planned shard has a result,
      nothing failed, every envelope is of this job and no shard has two. */
  lemma AllMergedExactly(parent: string, shards: seq<SplitPlan.Shard>, rs: seq<Envelope>, fs: seq<Envelope>)
    ensures Merge(parent, PlannedIds(shards), rs, fs, AllShardsRequired).code == AllShardsMerged <==>
      && fs == [] && OneJob(parent, rs) && OnePerShard(rs)
      && forall i :: 0 <= i < |shards| ==> HasResult(rs, shards[i].id)
  {
    var expected := PlannedIds(shards);
    RejectedExactly(parent, expected, rs, fs, AllShardsRequired);
    SortKeeps(fs);
    ProblemExactly(parent, Sort(rs) + Sort(fs));
    if fs == [] {
      assert rs + fs == rs && Sort(fs) == [] && Sort(rs) + Sort(fs) == Sort(rs);
      NothingMissing(shards, rs);
    }
    hide Sort, FirstProblem, Unseen, OneJob, OnePerShard, HasResult, Shards, PlannedIds;
  }

  lemma SameShards(a: seq<Envelope>, b: seq<Envelope>)
    requires multiset(a) == multiset(b)
    ensures forall id :: id in Shards(a) <==> HasResult(b, id)
  {
    forall id ensures id in Shards(a) <==> HasResult(b, id) {
      if id in Shards(a) {
        var i :| 0 <= i < |a| && Shards(a)[i] == id;
        assert a[i] in multiset(a);
        assert a[i] in b;
      }
      if k :| 0 <= k < |b| && b[k].shard == id {
        assert b[k] in multiset(b);
        assert b[k] in a;
        var i :| 0 <= i < |a| && a[i] == b[k];
        assert Shards(a)[i] == id;
      }
    }
  }
}
