/** Finite sums over maps, for the termination measures. */
module Sums {

  ghost function Sum(m: map<nat, nat>): nat {
    if m == map[] then 0 else var k :| k in m; m[k] + Sum(m - {k})
  }

  lemma {:induction false} SumRemove(m: map<nat, nat>, k: nat)
    requires k in m
    ensures Sum(m) == m[k] + Sum(m - {k})
    decreases |m|
  {
    var pick: nat :| pick in m && Sum(m) == m[pick] + Sum(m - {pick});
    if pick != k {
      SumRemove(m - {pick}, k);
      SumRemove(m - {k}, pick);
      assert m - {pick} - {k} == m - {k} - {pick};
    }
  }

  lemma SumPut(m: map<nat, nat>, k: nat, v: nat)
    ensures Sum(m[k := v]) == Sum(m) - (if k in m then m[k] else 0) + v
  {
    SumRemove(m[k := v], k);
    assert m[k := v] - {k} == m - {k};
    if k in m {
      SumRemove(m, k);
    } else {
      assert m - {k} == m;
    }
  }

  lemma {:induction false} SumLe(m: map<nat, nat>, n: map<nat, nat>)
    requires n.Keys == m.Keys && forall k :: k in m ==> n[k] <= m[k]
    ensures Sum(n) <= Sum(m)
    decreases |m|
  {
    if m == map[] {
      assert n == map[];
    } else {
      var k :| k in m;
      SumRemove(m, k);
      SumRemove(n, k);
      SumLe(m - {k}, n - {k});
    }
  }

  lemma SumLess(m: map<nat, nat>, n: map<nat, nat>, k: nat)
    requires n.Keys == m.Keys && k in m && n[k] < m[k] && forall x :: x in m ==> n[x] <= m[x]
    ensures Sum(n) < Sum(m)
  {
    SumRemove(m, k);
    SumRemove(n, k);
    SumLe(m - {k}, n - {k});
  }

  lemma SumAdd(m: map<nat, nat>, n: map<nat, nat>, k: nat)
    requires k !in m && n.Keys == m.Keys + {k} && forall x :: x in m ==> n[x] <= m[x]
    ensures Sum(n) <= Sum(m) + n[k]
  {
    SumRemove(n, k);
    SumLe(m, n - {k});
  }

  /** Ids never run out: a number above all of s. */
  ghost function Fresh(s: set<nat>): (n: nat)
    ensures forall k :: k in s ==> k < n
  {
    if s == {} then 0
    else
      var x :| x in s;
      var n := Fresh(s - {x});
      assert forall k :: k in s ==> k == x || k in s - {x};
      if n <= x then x + 1 else n
  }
}
