/**
 * A Python dict as the program uses it: entries in insertion order, each key
 * once. Iterating over `.items()` or `.values()` visits the entries in order.
 */
module Dict {
  import opened Traces

  /** The keys of `d`, in insertion order. */
  function Keys<K, V>(d: seq<(K, V)>): (ks: seq<K>)
    ensures |ks| == |d| && forall i :: 0 <= i < |d| ==> ks[i] == d[i].0
  {
    seq(|d|, i requires 0 <= i < |d| => d[i].0)
  }

  /** The values of `d`, in insertion order. */
  function Values<K, V>(d: seq<(K, V)>): (vs: seq<V>)
    ensures |vs| == |d| && forall i :: 0 <= i < |d| ==> vs[i] == d[i].1
  {
    seq(|d|, i requires 0 <= i < |d| => d[i].1)
  }

  /** A well-formed dict holds each key once. */
  predicate UniqueKeys<K(==), V>(d: seq<(K, V)>) {
    Distinct(Keys(d))
  }

  /** The dict as a finite map. */
  function ToMap<K(==, !new), V>(d: seq<(K, V)>): (m: map<K, V>)
    requires UniqueKeys(d)
    ensures forall k :: k in m <==> k in Keys(d)
    ensures forall i :: 0 <= i < |d| ==> m[d[i].0] == d[i].1
  {
    map i | 0 <= i < |d| :: d[i].0 := d[i].1
  }
}
