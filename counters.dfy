/** A metrics counter seen as a map from label keys to counts: what both
    metrics backends store. */
module Counters {

  /** The count at `k`; a series that was never touched reads as 0. */
  function Get<K>(m: map<K, nat>, k: K): nat {
    if k in m then m[k] else 0
  }

  /** Adding `n` at `k`: the series exists afterwards, and only it changes. */
  function Add<K>(m: map<K, nat>, k: K, n: nat): (r: map<K, nat>)
    ensures r.Keys == m.Keys + {k}
    ensures r[k] == Get(m, k) + n
    ensures forall j :: j in m && j != k ==> r[j] == m[j]
  {
    m[k := Get(m, k) + n]
  }

  /** Every key of `keys` registered at zero: new series start at 0, existing
      ones keep their count. */
  function Registered<K>(m: map<K, nat>, keys: set<K>): (r: map<K, nat>)
    ensures r.Keys == m.Keys + keys
    ensures forall k :: k in m ==> r[k] == m[k]
    ensures forall k :: k in keys && k !in m ==> r[k] == 0
  {
    map k | k in m.Keys + keys :: Get(m, k)
  }

  /** Adding 0 at one more key is registering it too. */
  lemma RegisteredAddZero<K>(m: map<K, nat>, keys: set<K>, k: K)
    ensures Add(Registered(m, keys), k, 0) == Registered(m, keys + {k})
  {
    var lhs := Add(Registered(m, keys), k, 0);
    var rhs := Registered(m, keys + {k});
    assert lhs.Keys == rhs.Keys;
    forall j | j in lhs.Keys
      ensures lhs[j] == rhs[j]
    {
    }
  }
}
