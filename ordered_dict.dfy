/** A Python `dict` as the association list it behaves like: insertion-ordered,
    one entry per key, and assigning to an existing key replaces its value
    where it stands. */
module OrderedDict {
  import opened Wrappers

  function Keys<K(==), V>(d: seq<(K, V)>): (r: set<K>)
  {
    if |d| == 0 then {} else {d[0].0} + Keys(d[1..])
  }

  predicate UniqueKeys<K(==), V>(d: seq<(K, V)>)
  {
    |d| == 0 || (d[0].0 !in Keys(d[1..]) && UniqueKeys(d[1..]))
  }

  /** `d.get(k)`. */
  function Get<K(==), V>(d: seq<(K, V)>, k: K): (r: Option<V>)
    ensures r.Some? <==> k in Keys(d)
  {
    if |d| == 0 then None
    else if d[0].0 == k then Some(d[0].1)
    else Get(d[1..], k)
  }

  /** `d[k] = v`. */
  function Put<K(==,!new), V>(d: seq<(K, V)>, k: K, v: V): (r: seq<(K, V)>)
    ensures Get(r, k) == Some(v)
    ensures forall k' :: k' != k ==> Get(r, k') == Get(d, k')
    ensures Keys(r) == Keys(d) + {k}
    ensures UniqueKeys(d) ==> UniqueKeys(r)
    ensures k in Keys(d) ==> |r| == |d| && forall i :: 0 <= i < |d| ==> r[i].0 == d[i].0
    ensures k !in Keys(d) ==> r == d + [(k, v)]
  {
    if |d| == 0 then [(k, v)]
    else if d[0].0 == k then [(k, v)] + d[1..]
    else [d[0]] + Put(d[1..], k, v)
  }
}
