/**
 * Python's insertion-ordered dictionaries with string keys, as sequences of
 * entries: their keys in order, and lookup by key.
 */
module Dicts {

  /** An insertion-ordered dictionary with string keys, as a sequence of entries. */
  type Dict<V> = seq<(string, V)>

  /** The keys of a dictionary, in order. */
  function Keys<V>(d: Dict<V>): (ks: seq<string>)
    ensures |ks| == |d|
    ensures forall i :: 0 <= i < |d| ==> ks[i] == d[i].0
  {
    if d == [] then [] else [d[0].0] + Keys(d[1..])
  }

  /** No key occurs twice, as in every Python dict. */
  predicate DistinctKeys<V>(d: Dict<V>)
  {
    forall i, j :: 0 <= i < j < |d| ==> d[i].0 != d[j].0
  }

  /** The position of the first entry with the given key. */
  function IndexOf<V>(d: Dict<V>, key: string): (i: nat)
    requires key in Keys(d)
    ensures i < |d| && d[i].0 == key
    ensures forall j :: 0 <= j < i ==> d[j].0 != key
  {
    if d[0].0 == key then 0 else 1 + IndexOf(d[1..], key)
  }

  /** `d[key]`; the key must be present. With distinct keys it is the value of the entry carrying `key`. */
  function Lookup<V>(d: Dict<V>, key: string): (v: V)
    requires key in Keys(d)
    ensures DistinctKeys(d) ==> forall i :: 0 <= i < |d| && d[i].0 == key ==> v == d[i].1
  {
    d[IndexOf(d, key)].1
  }

  /** In a dictionary with distinct keys, looking up an entry's key yields that entry. */
  lemma LookupEntry<V>(d: Dict<V>, i: int)
    requires DistinctKeys(d) && 0 <= i < |d|
    ensures d[i].0 in Keys(d) && IndexOf(d, d[i].0) == i && Lookup(d, d[i].0) == d[i].1
  {
  }

  /** Two dictionaries whose entries carry the same keys position by position have the same keys. */
  lemma SameKeys<U, V>(a: Dict<U>, b: Dict<V>)
    requires |a| == |b| && forall i :: 0 <= i < |a| ==> a[i].0 == b[i].0
    ensures Keys(a) == Keys(b)
    ensures DistinctKeys(a) ==> DistinctKeys(b)
  {
  }
}
