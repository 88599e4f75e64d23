/** Sums of an integer-valued function over a finite set of keys.
    The store is a map, so the karma ledger and the daily count are sums over
    its key set; the sum is defined by picking any element, and the lemmas
    here show the choice does not matter. */
module Sums {

  ghost function SumOver<K>(s: set<K>, f: K -> int): int
    decreases s
  {
    if s == {} then 0 else var k :| k in s; f(k) + SumOver(s - {k}, f)
  }

  /** Any element can be split off the sum, whichever one the definition picked. */
  lemma {:induction false} SumOverRemove<K>(s: set<K>, f: K -> int, k: K)
    requires k in s
    ensures SumOver(s, f) == f(k) + SumOver(s - {k}, f)
    decreases s
  {
    var j :| j in s && SumOver(s, f) == f(j) + SumOver(s - {j}, f);
    if j != k {
      SumOverRemove(s - {j}, f, k);
      SumOverRemove(s - {k}, f, j);
      assert s - {j} - {k} == s - {k} - {j};
    }
  }

  /** Adding a fresh element adds its value. */
  lemma SumOverInsert<K>(s: set<K>, f: K -> int, k: K)
    requires k !in s
    ensures SumOver(s + {k}, f) == SumOver(s, f) + f(k)
  {
    SumOverRemove(s + {k}, f, k);
    assert s + {k} - {k} == s;
  }

  /** Two functions that agree on the set have the same sum over it. */
  lemma {:induction false} SumOverAgree<K>(s: set<K>, f: K -> int, g: K -> int)
    requires forall k :: k in s ==> f(k) == g(k)
    ensures SumOver(s, f) == SumOver(s, g)
    decreases s
  {
    if s != {} {
      var k :| k in s;
      SumOverRemove(s, f, k);
      SumOverRemove(s, g, k);
      SumOverAgree(s - {k}, f, g);
    }
  }

  /** A function that is zero on the set sums to zero. */
  lemma {:induction false} SumOverZero<K>(s: set<K>, f: K -> int)
    requires forall k :: k in s ==> f(k) == 0
    ensures SumOver(s, f) == 0
    decreases s
  {
    if s != {} {
      var k :| k in s;
      SumOverRemove(s, f, k);
      SumOverZero(s - {k}, f);
    }
  }
}
