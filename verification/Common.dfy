/** Shared vocabulary: optional values, error results and Go's "map of sets". */
module Common {

  datatype Option<+T> = None | Some(value: T)

  datatype Result<+T, +E> = Ok(value: T) | Err(error: E)

  type ProfileId = string

  /** Reading a missing key of a Go map of sets yields the empty set. */
  function Lookup<K, V>(m: map<K, set<V>>, k: K): set<V> {
    if k in m then m[k] else {}
  }

  function Insert<K(!new), V>(m: map<K, set<V>>, k: K, v: V): (r: map<K, set<V>>)
    ensures forall q :: Lookup(r, q) == if q == k then Lookup(m, q) + {v} else Lookup(m, q)
    ensures NoEmptySets(m) ==> NoEmptySets(r)
  {
    m[k := Lookup(m, k) + {v}]
  }

  /** Removes v under k, and k itself once nothing is left under it. */
  function Discard<K(!new), V>(m: map<K, set<V>>, k: K, v: V): (r: map<K, set<V>>)
    ensures forall q :: Lookup(r, q) == if q == k then Lookup(m, q) - {v} else Lookup(m, q)
    ensures NoEmptySets(m) ==> NoEmptySets(r)
  {
    var rest := Lookup(m, k) - {v};
    if rest == {} then m - {k} else m[k := rest]
  }

  ghost predicate NoEmptySets<K(!new), V>(m: map<K, set<V>>) {
    forall k :: k in m ==> m[k] != {}
  }

  /** Without empty sets, a map of sets is determined by what Lookup sees. */
  lemma SameSets<K(!new), V>(m: map<K, set<V>>, n: map<K, set<V>>)
    requires NoEmptySets(m) && NoEmptySets(n)
    requires forall k :: Lookup(m, k) == Lookup(n, k)
    ensures m == n
  {
    assert forall k :: k in m <==> Lookup(m, k) != {};
    assert forall k :: k in n <==> Lookup(n, k) != {};
    assert forall k :: k in m ==> m[k] == Lookup(m, k) == Lookup(n, k) == n[k];
  }
}
