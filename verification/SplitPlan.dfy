/** The split planner: tasks grouped by the least back-end each can run on, one shard a back-end. */
module SplitPlan {
  import opened Text

  datatype Task = Task(id: string, compatible: seq<string>)

  datatype Shard = Shard(id: string, backend: string, taskIds: seq<string>)

  datatype Error =
    | EmptyParentJobId
    | EmptyTaskSet
    | EmptyTraceId
    | EmptyCompatibleBackends(taskId: string)
    | TooManyShards(requested: nat, allowed: nat)

  datatype Plan = Planned(shards: seq<Shard>) | Refused(error: Error)

  // ---- what the plan should be -------------------------------------------------------------------

  function Backends(t: Task): set<string> { set b | b in t.compatible && Trim(b) != "" :: Trim(b) }

  /** The back-end a task goes to: the least of those it can run on. */
  ghost function Choice(t: Task): (b: string)
    requires Backends(t) != {}
    ensures IsLeast(b, Backends(t))
  {
    LeastExists(Backends(t));
    var b :| IsLeast(b, Backends(t));
    b
  }

  /** The back-end chosen is one the task names, up to blank space; it is not blank, and none it names comes before. */
  lemma ChoiceNamed(t: Task)
    requires Backends(t) != {}
    ensures Trimmed(Choice(t)) && Choice(t) != "" && exists c :: c in t.compatible && Trim(c) == Choice(t)
    ensures forall c :: c in t.compatible && Trim(c) != "" ==> !Less(Trim(c), Choice(t))
  {
    hide Less;
    var c :| c in t.compatible && Trim(c) == Choice(t);
    TrimLaws(c);
    forall x | x in t.compatible && Trim(x) != "" ensures !Less(Trim(x), Choice(t)) {
      assert Trim(x) in Backends(t);
      LessTotal(Trim(x), Choice(t));
    }
  }

  ghost predicate Placeable(tasks: seq<Task>) { forall i :: 0 <= i < |tasks| ==> Backends(tasks[i]) != {} }

  /** The tasks that go to `b`, in order. */
  ghost function Assigned(tasks: seq<Task>, b: string): seq<string>
    requires Placeable(tasks)
  {
    if tasks == [] then []
    else
      var last := tasks[|tasks| - 1];
      Assigned(tasks[..|tasks| - 1], b) + if Choice(last) == b then [last.id] else []
  }

  ghost function Chosen(tasks: seq<Task>): set<string>
    requires Placeable(tasks)
  {
    set i | 0 <= i < |tasks| :: Choice(tasks[i])
  }

  function ShardId(parent: string, n: nat): string { parent + "-shard" + "-" + ZeroPad(n, 3) }

  ghost function ShardsFor(parent: string, tasks: seq<Task>, bs: seq<string>): seq<Shard>
    requires Placeable(tasks)
  {
    seq(|bs|, i requires 0 <= i < |bs| => Shard(ShardId(parent, i + 1), bs[i], Assigned(tasks, bs[i])))
  }

  // ---- sorting -------------------------------------------------------------------------------------

  method LeastOf(ks: set<string>) returns (k: string)
    requires ks != {}
    ensures IsLeast(k, ks)
  {
    hide Less;
    LeastExists(ks);
    ghost var least :| IsLeast(least, ks);
    assert least in ks && forall x :: x in ks && x != least ==> Less(least, x);
    k :| k in ks && forall x :: x in ks && x != k ==> Less(k, x);
  }

  method SortKeys(ks: set<string>) returns (r: seq<string>)
    ensures r == Sorted(ks)
  {
    r := [];
    var rest := ks;
    while rest != {}
      invariant r + Sorted(rest) == Sorted(ks)
      decreases rest
    {
      var k := LeastOf(rest);
      SortedStep(rest, k);
      hide Sorted, IsLeast;
      Reassociate(r, [k], Sorted(rest - {k}));
      r, rest := r + [k], rest - {k};
    }
  }

  lemma Reassociate(a: seq<string>, b: seq<string>, c: seq<string>)
    ensures a + (b + c) == (a + b) + c
  {}

  lemma {:induction false} SortedDistinct(ks: set<string>)
    ensures forall i, k :: 0 <= i < k < |Sorted(ks)| ==> Sorted(ks)[i] != Sorted(ks)[k]
  {
    if ks != {} {
      LeastExists(ks);
      var k :| IsLeast(k, ks);
      SortedStep(ks, k);
      SortedDistinct(ks - {k});
    }
  }

  // ---- the planner -----------------------------------------------------------------------------------

  method SelectBackend(t: Task) returns (found: bool, b: string)
    ensures found <==> Backends(t) != {}
    ensures found ==> b == Choice(t)
  {
    var normalized := SortKeys(Backends(t));
    found, b := normalized != [], "";
    if found {
      b := normalized[0];
      SortedStep(Backends(t), Choice(t));
    }
  }

  ghost predicate Grouped(groups: map<string, seq<string>>, tasks: seq<Task>)
    requires Placeable(tasks)
  {
    groups.Keys == Chosen(tasks) && forall b :: b in groups ==> groups[b] == Assigned(tasks, b)
  }

  lemma NoneAssigned(tasks: seq<Task>, b: string)
    requires Placeable(tasks) && b !in Chosen(tasks)
    ensures Assigned(tasks, b) == []
  {
    if tasks != [] {
      var most := tasks[..|tasks| - 1];
      assert forall i :: 0 <= i < |most| ==> most[i] == tasks[i];
      assert b !in Chosen(most);
      NoneAssigned(most, b);
      assert Choice(tasks[|tasks| - 1]) in Chosen(tasks);
    }
  }

  lemma GroupOne(groups: map<string, seq<string>>, tasks: seq<Task>, t: Task)
    requires Placeable(tasks) && Grouped(groups, tasks) && Backends(t) != {}
    ensures Placeable(tasks + [t])
    ensures var b := Choice(t);
      Grouped(groups[b := (if b in groups then groups[b] else []) + [t.id]], tasks + [t])
  {
    var b, more := Choice(t), tasks + [t];
    assert more[..|tasks|] == tasks && more[|tasks|] == t;
    ChosenOne(tasks, t);
    NoneAssignedUnless(tasks, b);
    hide Choice, Chosen;
  }

  lemma NoneAssignedUnless(tasks: seq<Task>, b: string)
    requires Placeable(tasks)
    ensures b !in Chosen(tasks) ==> Assigned(tasks, b) == []
  {
    if b !in Chosen(tasks) { NoneAssigned(tasks, b); }
  }

  lemma ChosenOne(tasks: seq<Task>, t: Task)
    requires Placeable(tasks) && Backends(t) != {}
    ensures Placeable(tasks + [t]) && Chosen(tasks + [t]) == Chosen(tasks) + {Choice(t)}
  {
    var more := tasks + [t];
    assert forall i :: 0 <= i < |tasks| ==> more[i] == tasks[i];
    assert more[|tasks|] == t;
    assert Choice(more[|tasks|]) in Chosen(more);
    forall b | b in Chosen(tasks) ensures b in Chosen(more) {
      var i :| 0 <= i < |tasks| && Choice(tasks[i]) == b;
      assert Choice(more[i]) == b;
    }
  }

  ghost predicate Rejects(tasks: seq<Task>, id: string) {
    exists i :: 0 <= i < |tasks| && Backends(tasks[i]) == {} && tasks[i].id == id && Placeable(tasks[..i])
  }

  lemma NothingGrouped()
    ensures Placeable([]) && Grouped(map[], [])
  {}

  method GroupTasks(tasks: seq<Task>) returns (groups: map<string, seq<string>>, bad: seq<Task>)
    ensures bad == [] <==> Placeable(tasks)
    ensures bad == [] ==> Grouped(groups, tasks)
    ensures bad != [] ==> Rejects(tasks, bad[0].id)
  {
    hide Choice, Backends, Assigned, Chosen;
    groups, bad := map[], [];
    NothingGrouped();
    for i := 0 to |tasks|
      invariant Placeable(tasks[..i]) && Grouped(groups, tasks[..i])
    {
      var found, b := SelectBackend(tasks[i]);
      if !found {
        bad := [tasks[i]];
        return;
      }
      GroupOne(groups, tasks[..i], tasks[i]);
      assert tasks[..i + 1] == tasks[..i] + [tasks[i]];
      groups := groups[b := (if b in groups then groups[b] else []) + [tasks[i].id]];
    }
    assert tasks[..|tasks|] == tasks;
  }

  method BuildShards(parent: string, ghost tasks: seq<Task>, order: seq<string>, groups: map<string, seq<string>>)
    returns (shards: seq<Shard>)
    requires Placeable(tasks) && Grouped(groups, tasks) && forall b :: b in order ==> b in groups
    ensures shards == ShardsFor(parent, tasks, order)
  {
    hide ZeroPad, Choice, Placeable, Chosen, Assigned;
    shards := [];
    for i := 0 to |order|
      invariant shards == ShardsFor(parent, tasks, order[..i])
    {
      assert order[i] in order && order[..i + 1] == order[..i] + [order[i]];
      shards := shards + [Shard(ShardId(parent, i + 1), order[i], groups[order[i]])];
    }
    assert order[..|order|] == order;
  }

  /** Either one of the errors, in the order the checks are made, or one shard for each chosen back-end in order. */
  method PlanSplit(parent: string, tasks: seq<Task>, maxShards: nat, traceId: string) returns (r: Plan)
    ensures Trim(parent) == "" ==> r == Refused(EmptyParentJobId)
    ensures Trim(parent) != "" && tasks == [] ==> r == Refused(EmptyTaskSet)
    ensures Trim(parent) != "" && tasks != [] && Trim(traceId) == "" ==> r == Refused(EmptyTraceId)
    ensures Trim(parent) != "" && tasks != [] && Trim(traceId) != "" ==>
      if maxShards == 0 then r == Refused(TooManyShards(1, 0))
      else if !Placeable(tasks) then
        r.Refused? && r.error.EmptyCompatibleBackends? && Rejects(tasks, r.error.taskId)
      else if |Chosen(tasks)| > maxShards then r == Refused(TooManyShards(|Chosen(tasks)|, maxShards))
      else r == Planned(ShardsFor(parent, tasks, Sorted(Chosen(tasks))))
    ensures r.Planned? ==> 1 <= |r.shards| <= maxShards
  {
    hide Trim, Sorted, ShardsFor, Placeable, Chosen, Assigned, Rejects;
    if Trim(parent) == "" { return Refused(EmptyParentJobId); }
    if tasks == [] { return Refused(EmptyTaskSet); }
    if Trim(traceId) == "" { return Refused(EmptyTraceId); }
    if maxShards == 0 { return Refused(TooManyShards(1, 0)); }
    var groups, bad := GroupTasks(tasks);
    if bad != [] { return Refused(EmptyCompatibleBackends(bad[0].id)); }
    if |groups.Keys| > maxShards { return Refused(TooManyShards(|groups.Keys|, maxShards)); }
    var order := SortKeys(groups.Keys);
    var shards := BuildShards(parent, tasks, order, groups);
    PlanSize(parent, tasks);
    r := Planned(shards);
  }

  lemma PlanSize(parent: string, tasks: seq<Task>)
    requires Placeable(tasks)
    ensures |ShardsFor(parent, tasks, Sorted(Chosen(tasks)))| == |Chosen(tasks)|
    ensures tasks != [] ==> |Chosen(tasks)| > 0
  {
    hide Sorted, Choice, Assigned;
    if tasks != [] { assert Choice(tasks[0]) in Chosen(tasks); }
  }

  // ---- what a plan promises ------------------------------------------------------------------------------

  /** The ids of the tasks whose back-end is in `s`. */
  ghost function Going(tasks: seq<Task>, s: set<string>): multiset<string>
    requires Placeable(tasks)
  {
    if tasks == [] then multiset{}
    else
      var last := tasks[|tasks| - 1];
      Going(tasks[..|tasks| - 1], s) + if Choice(last) in s then multiset{last.id} else multiset{}
  }

  ghost function Ids(tasks: seq<Task>): multiset<string> {
    if tasks == [] then multiset{} else Ids(tasks[..|tasks| - 1]) + multiset{tasks[|tasks| - 1].id}
  }

  ghost function Shipped(shards: seq<Shard>): multiset<string> {
    if shards == [] then multiset{} else Shipped(shards[..|shards| - 1]) + multiset(shards[|shards| - 1].taskIds)
  }

  lemma {:induction false} GoingSplits(tasks: seq<Task>, s: set<string>, b: string)
    requires Placeable(tasks) && b !in s
    ensures Going(tasks, s + {b}) == Going(tasks, s) + multiset(Assigned(tasks, b))
  {
    if tasks != [] {
      var most, last := tasks[..|tasks| - 1], tasks[|tasks| - 1];
      GoingSplits(most, s, b);
      var c := Choice(last);
      hide Choice;
      var here := Assigned(most, b);
      if c == b {
        assert Going(tasks, s + {b}) == Going(most, s + {b}) + multiset{last.id};
        assert multiset(Assigned(tasks, b)) == multiset(here) + multiset{last.id};
      } else {
        assert Going(tasks, s + {b}) == Going(most, s + {b}) + (if c in s then multiset{last.id} else multiset{});
        assert Assigned(tasks, b) == here;
      }
    }
  }

  lemma {:induction false} GoingAll(tasks: seq<Task>, s: set<string>)
    requires Placeable(tasks) && Chosen(tasks) <= s
    ensures Going(tasks, s) == Ids(tasks)
  {
    if tasks != [] {
      var most, last := tasks[..|tasks| - 1], tasks[|tasks| - 1];
      assert tasks == most + [last];
      ChosenOne(most, last);
      GoingAll(most, s);
    }
  }

  lemma {:induction false} GoingNowhere(tasks: seq<Task>)
    requires Placeable(tasks)
    ensures Going(tasks, {}) == multiset{}
  {
    if tasks != [] { GoingNowhere(tasks[..|tasks| - 1]); }
  }

  ghost function Elements(bs: seq<string>): set<string> { set b | b in bs }

  lemma {:induction false} ShippedIs(parent: string, tasks: seq<Task>, bs: seq<string>)
    requires Placeable(tasks) && forall i, k :: 0 <= i < k < |bs| ==> bs[i] != bs[k]
    ensures Shipped(ShardsFor(parent, tasks, bs)) == Going(tasks, Elements(bs))
  {
    var shards := ShardsFor(parent, tasks, bs);
    if bs == [] {
      GoingNowhere(tasks);
      assert Elements(bs) == {};
    } else {
      var most, b := bs[..|bs| - 1], bs[|bs| - 1];
      ShippedIs(parent, tasks, most);
      assert shards[..|bs| - 1] == ShardsFor(parent, tasks, most);
      assert bs == most + [b] && Elements(bs) == Elements(most) + {b} && b !in Elements(most);
      GoingSplits(tasks, Elements(most), b);
    }
  }

  lemma PlanShips(parent: string, tasks: seq<Task>)
    requires Placeable(tasks)
    ensures Shipped(ShardsFor(parent, tasks, Sorted(Chosen(tasks)))) == Ids(tasks)
  {
    var bs := Sorted(Chosen(tasks));
    SortedDistinct(Chosen(tasks));
    hide Sorted, Going, Shipped, Ids, Chosen, ShardsFor;
    ShippedIs(parent, tasks, bs);
    assert Elements(bs) == Chosen(tasks);
    GoingAll(tasks, Elements(bs));
  }

  lemma {:induction false} AssignedIsGoing(tasks: seq<Task>, b: string)
    requires Placeable(tasks)
    ensures multiset(Assigned(tasks, b)) == Going(tasks, {b})
  {
    GoingNowhere(tasks);
    GoingSplits(tasks, {}, b);
    assert {} + {b} == {b};
  }

  lemma {:induction false} AssignedHas(tasks: seq<Task>, i: nat)
    requires Placeable(tasks) && i < |tasks|
    ensures tasks[i].id in Assigned(tasks, Choice(tasks[i]))
  {
    hide Choice;
    var most := tasks[..|tasks| - 1];
    if i < |most| {
      assert most[i] == tasks[i];
      AssignedHas(most, i);
    }
  }

  /** The one shard on the task's own back-end, a back-end it can run on, holds the task. */
  ghost predicate Placed(shards: seq<Shard>, t: Task)
    requires Backends(t) != {}
  {
    && Choice(t) in Backends(t)
    && exists k :: 0 <= k < |shards| && shards[k].backend == Choice(t) && t.id in shards[k].taskIds
  }

  lemma ShardFor(parent: string, tasks: seq<Task>, bs: seq<string>, b: string) returns (k: nat)
    requires Placeable(tasks) && b in bs
    ensures k < |bs| && ShardsFor(parent, tasks, bs)[k].backend == b
    ensures ShardsFor(parent, tasks, bs)[k].taskIds == Assigned(tasks, b)
  {
    hide Assigned, ShardId;
    k :| 0 <= k < |bs| && bs[k] == b;
  }

  lemma PlanPlaces(parent: string, tasks: seq<Task>, i: nat)
    requires Placeable(tasks) && i < |tasks|
    ensures Placed(ShardsFor(parent, tasks, Sorted(Chosen(tasks))), tasks[i])
  {
    assert Choice(tasks[i]) in Chosen(tasks);
    AssignedHas(tasks, i);
    hide Sorted, Choice, Chosen, Assigned;
    var bs := Sorted(Chosen(tasks));
    var k := ShardFor(parent, tasks, bs, Choice(tasks[i]));
    var shards := ShardsFor(parent, tasks, bs);
    hide ShardsFor;
    assert shards[k].backend == Choice(tasks[i]) && tasks[i].id in shards[k].taskIds;
  }

  /** Every shard holds exactly the tasks whose back-end it is on, each as often as it occurs. */
  ghost predicate HoldsItsOwn(shards: seq<Shard>, tasks: seq<Task>)
    requires Placeable(tasks)
  {
    forall k :: 0 <= k < |shards| ==>
      shards[k].taskIds != [] && multiset(shards[k].taskIds) == Going(tasks, {shards[k].backend})
  }

  lemma PlanHoldsItsOwn(parent: string, tasks: seq<Task>)
    requires Placeable(tasks)
    ensures HoldsItsOwn(ShardsFor(parent, tasks, Sorted(Chosen(tasks))), tasks)
  {
    var bs := Sorted(Chosen(tasks));
    var shards := ShardsFor(parent, tasks, bs);
    hide Sorted, Going;
    forall k | 0 <= k < |shards|
      ensures shards[k].taskIds != [] && multiset(shards[k].taskIds) == Going(tasks, {shards[k].backend})
    {
      AssignedIsGoing(tasks, bs[k]);
      assert bs[k] in bs;
      ChosenHasTask(tasks, bs[k]);
    }
  }

  lemma ChosenHasTask(tasks: seq<Task>, b: string)
    requires Placeable(tasks) && b in Chosen(tasks)
    ensures Assigned(tasks, b) != []
  {
    var i :| 0 <= i < |tasks| && Choice(tasks[i]) == b;
    AssignedHas(tasks, i);
  }

  lemma AssignedLast(tasks: seq<Task>, last: Task, b: string)
    requires Placeable(tasks) && Backends(last) != {}
    ensures Placeable(tasks + [last])
    ensures Assigned(tasks + [last], b) == Assigned(tasks, b) + if Choice(last) == b then [last.id] else []
  {
    assert (tasks + [last])[..|tasks|] == tasks;
  }

  /** A shard lists its tasks in the order in which they were given. */
  lemma {:induction false} AssignedJoins(xs: seq<Task>, ys: seq<Task>, b: string)
    requires Placeable(xs) && Placeable(ys)
    ensures Placeable(xs + ys) && Assigned(xs + ys, b) == Assigned(xs, b) + Assigned(ys, b)
    decreases |ys|
  {
    hide Choice, Backends;
    if ys == [] {
      assert xs + ys == xs;
    } else {
      var most, last := ys[..|ys| - 1], ys[|ys| - 1];
      AssignedJoins(xs, most, b);
      assert xs + ys == (xs + most) + [last] && ys == most + [last];
      AssignedLast(xs + most, last, b);
      AssignedLast(most, last, b);
      hide Assigned, Placeable;
    }
  }

  lemma ShardIdIs(parent: string, n: nat)
    ensures ShardId(parent, n) == parent + "-shard-" + ZeroPad(n, 3)
  {
    hide ZeroPad;
  }

  lemma NumberedInOrder(parent: string, tasks: seq<Task>, bs: seq<string>, k: nat)
    requires Placeable(tasks) && Rises(bs) && k < |bs|
    ensures var shards := ShardsFor(parent, tasks, bs);
      shards[k].id == ShardId(parent, k + 1) && forall i :: 0 <= i < k ==> Less(shards[i].backend, shards[k].backend)
  {
    hide Assigned, ShardId, Less;
  }

  /** Shards are numbered from one, to three digits, in the order of their back-ends. */
  lemma PlanIsNumbered(parent: string, tasks: seq<Task>, k: nat)
    requires Placeable(tasks) && k < |Chosen(tasks)|
    ensures var shards := ShardsFor(parent, tasks, Sorted(Chosen(tasks)));
      && |shards| == |Chosen(tasks)| && shards[k].id == parent + "-shard-" + ZeroPad(k + 1, 3)
      && forall i :: 0 <= i < k ==> Less(shards[i].backend, shards[k].backend)
  {
    SortedRises(Chosen(tasks));
    hide Sorted, Chosen, Assigned, ZeroPad, Less, ShardId, Rises;
    NumberedInOrder(parent, tasks, Sorted(Chosen(tasks)), k);
    ShardIdIs(parent, k + 1);
  }

  /** Ids and back-ends tell the shards apart. */
  ghost predicate Distinct(shards: seq<Shard>) {
    forall i, k :: 0 <= i < k < |shards| ==> shards[i].id != shards[k].id && shards[i].backend != shards[k].backend
  }

  lemma PlanIsDistinct(parent: string, tasks: seq<Task>)
    requires Placeable(tasks)
    ensures Distinct(ShardsFor(parent, tasks, Sorted(Chosen(tasks))))
  {
    var bs := Sorted(Chosen(tasks));
    SortedDistinct(Chosen(tasks));
    var shards := ShardsFor(parent, tasks, bs);
    hide Sorted, Chosen, Assigned, ShardId;
    forall i, k | 0 <= i < k < |shards| ensures shards[i].id != shards[k].id && shards[i].backend != shards[k].backend {
      ShardIdsDiffer(parent, i + 1, k + 1);
    }
  }

  /** A plan places every task occurrence exactly once: each shard holds exactly the tasks whose least compatible
      back-end it is on, ids and back-ends are pairwise distinct, and there is one shard for each back-end used. */
  lemma PlanPlacesEveryTask(parent: string, tasks: seq<Task>)
    requires Placeable(tasks)
    ensures var shards := ShardsFor(parent, tasks, Sorted(Chosen(tasks)));
      && Shipped(shards) == Ids(tasks)
      && |shards| == |Chosen(tasks)|
      && Distinct(shards)
      && HoldsItsOwn(shards, tasks)
      && (forall i :: 0 <= i < |tasks| ==> Placed(shards, tasks[i]))
  {
    PlanShips(parent, tasks);
    PlanIsDistinct(parent, tasks);
    PlanHoldsItsOwn(parent, tasks);
    forall i | 0 <= i < |tasks| ensures Placed(ShardsFor(parent, tasks, Sorted(Chosen(tasks))), tasks[i]) {
      PlanPlaces(parent, tasks, i);
    }
    hide Sorted, Chosen, Assigned, ShardId, Distinct, Shipped, Ids, Choice, HoldsItsOwn, Placed;
  }

  lemma ShardIdsDiffer(parent: string, m: nat, n: nat)
    requires m != n
    ensures ShardId(parent, m) != ShardId(parent, n)
  {
    hide ZeroPad;
    if ShardId(parent, m) == ShardId(parent, n) { NumberedIdsInjective(parent + "-shard", m, parent + "-shard", n, 3); }
  }
}
