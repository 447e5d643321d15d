// Failure and absence, in the shape every other module shares.
module Wrappers {

  datatype Option<+T> = None | Some(value: T)

  datatype Result<+T, +E> = Ok(value: T) | Err(error: E)

  // A map entry seen as an option: absent keys are None.
  function Lookup<K, V>(m: map<K, V>, k: K): Option<V> {
    if k in m then Some(m[k]) else None
  }

  // m with k bound to what v holds, or unbound when v holds nothing.
  function Assign<K, V>(m: map<K, V>, k: K, v: Option<V>): map<K, V> {
    match v
    case Some(x) => m[k := x]
    case None => m - {k}
  }

  lemma AssignAt<K, V>(m: map<K, V>, k: K, v: Option<V>, j: K)
    ensures Lookup(Assign(m, k, v), j) == if j == k then v else Lookup(m, j)
  {
  }

  // Two maps that agree at every key are the same map.
  lemma SameEntries<K(!new), V>(a: map<K, V>, b: map<K, V>)
    requires forall k :: Lookup(a, k) == Lookup(b, k)
    ensures a == b
  {
    forall k
      ensures k in a <==> k in b
      ensures k in a && k in b ==> a[k] == b[k]
    {
      assert Lookup(a, k) == Lookup(b, k);
    }
  }
}
