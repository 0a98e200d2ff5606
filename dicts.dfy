/**
 * A Python `dict` loaded from a JSON object: its (key, value) pairs in
 * insertion order. Python keeps keys distinct; the subset type says so.
 */
module Dicts {

  predicate DistinctKeys<V>(d: seq<(string, V)>)
  {
    forall i, j :: 0 <= i < j < |d| ==> d[i].0 != d[j].0
  }

  type Dict<V> = d: seq<(string, V)> | DistinctKeys(d) witness []

  /** `d.get(key, default)`: the value stored under `key`, or `default` when the key is absent. */
  function Get<V>(d: Dict<V>, key: string, default: V): (r: V)
    ensures forall i :: 0 <= i < |d| && d[i].0 == key ==> r == d[i].1
    ensures (forall i :: 0 <= i < |d| ==> d[i].0 != key) ==> r == default
  {
    if d == [] then default
    else if d[0].0 == key then d[0].1
    else
      var rest: Dict<V> := d[1..];
      assert forall i :: 1 <= i < |d| ==> d[i] == rest[i - 1];
      Get(rest, key, default)
  }
}
