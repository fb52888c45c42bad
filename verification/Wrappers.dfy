/** Values that may be absent, operations that may be refused, shared identities, and the size of finite sets. */
module Wrappers {
  /** The random id of one connection. */
  type LinkId = nat

  /** Chosen by a client for one of its runs. */
  type InstanceId = seq<nat>

  datatype Option<+T> = None | Some(value: T)

  datatype Result<+T, +E> = Ok(value: T) | Err(error: E)

  function Get<K, V>(m: map<K, V>, k: K): Option<V> {
    if k in m then Some(m[k]) else None
  }

  lemma SubsetSize<T>(a: set<T>, b: set<T>)
    requires a <= b
    ensures |a| <= |b|
    ensures |a| == |b| ==> a == b
  {
    assert b == a + (b - a);
  }
}
