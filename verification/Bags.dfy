/** Counting the members of a multiset that satisfy a predicate. */
module Bags {

  ghost function Count<T(!new)>(bag: multiset<T>, p: T -> bool): nat {
    if bag == multiset{} then 0 else
      var x :| x in bag;
      (if p(x) then 1 else 0) + Count(bag - multiset{x}, p)
  }

  lemma {:induction false} CountRemove<T(!new)>(bag: multiset<T>, p: T -> bool, x: T)
    requires x in bag
    ensures Count(bag, p) == (if p(x) then 1 else 0) + Count(bag - multiset{x}, p)
    decreases |bag|
  {
    var y :| y in bag && Count(bag, p) == (if p(y) then 1 else 0) + Count(bag - multiset{y}, p);
    if y != x {
      CountRemove(bag - multiset{y}, p, x);
      CountRemove(bag - multiset{x}, p, y);
      assert bag - multiset{y} - multiset{x} == bag - multiset{x} - multiset{y};
    }
  }

  lemma CountAdd<T(!new)>(bag: multiset<T>, p: T -> bool, x: T)
    ensures Count(bag + multiset{x}, p) == Count(bag, p) + (if p(x) then 1 else 0)
  {
    CountRemove(bag + multiset{x}, p, x);
    assert bag + multiset{x} - multiset{x} == bag;
  }

  lemma {:induction false} CountPositive<T(!new)>(bag: multiset<T>, p: T -> bool)
    ensures Count(bag, p) > 0 <==> exists x :: x in bag && p(x)
    decreases |bag|
  {
    if bag != multiset{} {
      var y :| y in bag && Count(bag, p) == (if p(y) then 1 else 0) + Count(bag - multiset{y}, p);
      CountPositive(bag - multiset{y}, p);
      if x :| x in bag && p(x) && !p(y) {
        assert x in bag - multiset{y};
      }
    }
  }

  lemma {:induction false} CountAll<T(!new)>(bag: multiset<T>, p: T -> bool)
    requires forall x :: x in bag ==> p(x)
    ensures Count(bag, p) == |bag|
    decreases |bag|
  {
    if bag != multiset{} {
      var y :| y in bag && Count(bag, p) == (if p(y) then 1 else 0) + Count(bag - multiset{y}, p);
      CountAll(bag - multiset{y}, p);
    }
  }

  /** Members satisfying `p` that are laid out in a list number exactly its length. */
  lemma {:induction false} CountListed<T(!new)>(bag: multiset<T>, p: T -> bool, items: seq<T>)
    requires forall x :: p(x) ==> bag[x] == multiset(items)[x]
    requires forall x :: x in items ==> p(x)
    ensures Count(bag, p) == |items|
    decreases |items|
  {
    if items == [] {
      CountPositive(bag, p);
    } else {
      var x, rest := items[0], items[1..];
      assert items == [x] + rest;
      assert p(x) && x in multiset(items);
      assert x in bag;
      CountRemove(bag, p, x);
      CountListed(bag - multiset{x}, p, rest);
    }
  }

  /** Disjoint predicates add up. */
  lemma {:induction false} CountSplit<T(!new)>(bag: multiset<T>, p: T -> bool, q: T -> bool, both: T -> bool)
    requires forall x :: both(x) <==> p(x) || q(x)
    requires forall x :: !(p(x) && q(x))
    ensures Count(bag, both) == Count(bag, p) + Count(bag, q)
    decreases |bag|
  {
    if bag != multiset{} {
      var y :| y in bag;
      CountRemove(bag, both, y);
      CountRemove(bag, p, y);
      CountRemove(bag, q, y);
      CountSplit(bag - multiset{y}, p, q, both);
    }
  }

  lemma {:induction false} CountSame<T(!new)>(bag: multiset<T>, p: T -> bool, q: T -> bool)
    requires forall x :: x in bag ==> (p(x) <==> q(x))
    ensures Count(bag, p) == Count(bag, q)
    decreases |bag|
  {
    if bag != multiset{} {
      var y :| y in bag;
      CountRemove(bag, p, y);
      CountRemove(bag, q, y);
      CountSame(bag - multiset{y}, p, q);
    }
  }
}
