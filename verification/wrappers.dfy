/** Optional values, standing in for JavaScript's `undefined`. */
module Wrappers {

  /** A value that may be absent. */
  datatype Option<+T> = None | Some(value: T) {

    /** The carried value, or `default` when absent. */
    function GetOr(default: T): T {
      if Some? then value else default
    }
  }

  /** `Map.prototype.get` and object field access: the value at `k`, or None. */
  function Find<K, V>(m: map<K, V>, k: K): (r: Option<V>)
    ensures r.Some? <==> k in m
    ensures r.Some? ==> m[k] == r.value
  {
    if k in m then Some(m[k]) else None
  }

  /** Two maps that answer every lookup alike are equal. */
  lemma FindExtensional<K, V>(m1: map<K, V>, m2: map<K, V>)
    requires forall k :: Find(m1, k) == Find(m2, k)
    ensures m1 == m2
  {
    forall k | k in m1
      ensures k in m2 && m1[k] == m2[k]
    {
      assert Find(m1, k) == Find(m2, k);
    }
    forall k | k in m2
      ensures k in m1
    {
      assert Find(m1, k) == Find(m2, k);
    }
  }
}
