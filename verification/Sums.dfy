/** Sums over the values of finite maps. */
module Sums {

  function Get<K>(m: map<K, nat>, k: K): nat { if k in m then m[k] else 0 }

  ghost function Sum<K(!new)>(m: map<K, nat>, es: set<K>): nat {
    if es == {} then 0 else var e :| e in es; Get(m, e) + Sum(m, es - {e})
  }

  ghost function Total<K(!new)>(m: map<K, nat>): nat { Sum(m, m.Keys) }

  lemma {:induction false} SumRemove<K(!new)>(m: map<K, nat>, es: set<K>, x: K)
    requires x in es
    ensures Sum(m, es) == Get(m, x) + Sum(m, es - {x})
    decreases es
  {
    var e :| e in es && Sum(m, es) == Get(m, e) + Sum(m, es - {e});
    if e != x {
      SumRemove(m, es - {e}, x);
      SumRemove(m, es - {x}, e);
      assert es - {e} - {x} == es - {x} - {e};
    }
  }

  lemma {:induction false} SumAgree<K(!new)>(m: map<K, nat>, n: map<K, nat>, es: set<K>)
    requires forall e :: e in es ==> Get(m, e) == Get(n, e)
    ensures Sum(m, es) == Sum(n, es)
    decreases es
  {
    if es != {} {
      var e :| e in es;
      SumRemove(m, es, e);
      SumRemove(n, es, e);
      SumAgree(m, n, es - {e});
    }
  }

  lemma {:induction false} SumZero<K(!new)>(m: map<K, nat>, es: set<K>)
    requires forall e :: e in es ==> Get(m, e) == 0
    ensures Sum(m, es) == 0
    decreases es
  {
    if es != {} {
      var e :| e in es;
      SumRemove(m, es, e);
      SumZero(m, es - {e});
    }
  }

  lemma SumUpdate<K(!new)>(m: map<K, nat>, es: set<K>, x: K, v: nat)
    requires x in es
    ensures Sum(m[x := v], es) == Sum(m, es) - Get(m, x) + v
  {
    SumRemove(m, es, x);
    SumRemove(m[x := v], es, x);
    SumAgree(m, m[x := v], es - {x});
  }

  lemma TotalDrop<K(!new)>(m: map<K, nat>, x: K)
    ensures Total(m - {x}) == Total(m) - Get(m, x)
  {
    if x in m {
      SumRemove(m, m.Keys, x);
      assert (m - {x}).Keys == m.Keys - {x};
      SumAgree(m, m - {x}, m.Keys - {x});
    } else {
      assert m - {x} == m;
    }
  }

  lemma TotalPut<K(!new)>(m: map<K, nat>, x: K, v: nat)
    ensures Total(m[x := v]) == Total(m) - Get(m, x) + v
  {
    TotalDrop(m[x := v], x);
    TotalDrop(m, x);
    assert m[x := v] - {x} == m - {x};
  }
}
