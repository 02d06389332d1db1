/**
 * Python's dict with string keys: an insertion-ordered sequence of key/value
 * pairs. Assigning to a present key replaces its value where it stands;
 * assigning to a new key appends it; `del` removes it.
 */
module Dicts {
  import opened Wrappers

  type Dict<V> = seq<(string, V)>

  function Keys<V>(d: Dict<V>): (ks: seq<string>)
    ensures |ks| == |d|
    ensures forall i :: 0 <= i < |d| ==> ks[i] == d[i].0
  {
    if |d| == 0 then [] else [d[0].0] + Keys(d[1..])
  }

  predicate HasKey<V>(d: Dict<V>, k: string) {
    k in Keys(d)
  }

  predicate Distinct(ks: seq<string>) {
    forall i, j :: 0 <= i < j < |ks| ==> ks[i] != ks[j]
  }

  /** Every key appears once, as in every dict Python builds. */
  predicate Wf<V>(d: Dict<V>) {
    Distinct(Keys(d))
  }

  lemma DistinctAppend(ks: seq<string>, k: string)
    requires Distinct(ks) && k !in ks
    ensures Distinct(ks + [k])
  {
  }

  /** d[k] / d.get(k): the value stored under `k`, if any. */
  function Get<V>(d: Dict<V>, k: string): (r: Option<V>)
    ensures r.None? <==> !HasKey(d, k)
  {
    if |d| == 0 then None
    else if d[0].0 == k then Some(d[0].1)
    else Get(d[1..], k)
  }

  lemma GetCons<V>(p: (string, V), t: Dict<V>, k: string)
    ensures Get([p] + t, k) == if p.0 == k then Some(p.1) else Get(t, k)
  {
    assert ([p] + t)[1..] == t;
  }

  /** What d[k] finds is an entry of d. */
  lemma {:induction false} GetIn<V>(d: Dict<V>, k: string)
    requires HasKey(d, k)
    ensures (k, Get(d, k).value) in d
  {
    if d[0].0 != k {
      GetIn(d[1..], k);
    }
  }

  /** d.get(k, default). */
  function Lookup<V>(d: Dict<V>, k: string, default: V): V {
    Get(d, k).GetOr(default)
  }

  /** d[k] = v: the value under `k` becomes `v`; every other key keeps its value (and, by SetKeys, its position). */
  function Set<V>(d: Dict<V>, k: string, v: V): (r: Dict<V>)
    ensures Get(r, k) == Some(v)
    ensures forall k' :: k' != k ==> Get(r, k') == Get(d, k')
  {
    if |d| == 0 then [(k, v)]
    else if d[0].0 == k then
      var r := [(k, v)] + d[1..];
      assert r[1..] == d[1..];
      r
    else
      var tail := Set(d[1..], k, v);
      var r := [d[0]] + tail;
      assert r[1..] == tail;
      r
  }

  /** Assigning keeps the order of the keys: a present key stays where it is, a new one goes last. */
  lemma {:induction false} SetKeys<V>(d: Dict<V>, k: string, v: V)
    ensures HasKey(d, k) ==> Keys(Set(d, k, v)) == Keys(d)
    ensures !HasKey(d, k) ==> Keys(Set(d, k, v)) == Keys(d) + [k]
  {
    if |d| > 0 && d[0].0 != k {
      SetKeys(d[1..], k, v);
      var tail := Set(d[1..], k, v);
      assert Set(d, k, v) == [d[0]] + tail;
      assert Keys([d[0]] + tail) == [d[0].0] + Keys(tail);
      assert Keys(d) == [d[0].0] + Keys(d[1..]);
      assert !HasKey(d, k) ==> Keys(Set(d, k, v)) == ([d[0].0] + Keys(d[1..])) + [k];
    } else if |d| > 0 {
      assert Keys(Set(d, k, v)) == [k] + Keys(d[1..]);
    }
  }

  /** Assigning keeps the keys distinct. */
  lemma SetWf<V>(d: Dict<V>, k: string, v: V)
    requires Wf(d)
    ensures Wf(Set(d, k, v))
  {
    SetKeys(d, k, v);
    if !HasKey(d, k) {
      DistinctAppend(Keys(d), k);
    }
  }

  /** del d[k] (when present): `k` is gone, every other key keeps its value and order. */
  function Delete<V>(d: Dict<V>, k: string): (r: Dict<V>)
    ensures Get(r, k) == None
    ensures forall k' :: k' != k ==> Get(r, k') == Get(d, k')
    ensures !HasKey(d, k) ==> r == d
  {
    if |d| == 0 then []
    else if d[0].0 == k then Delete(d[1..], k)
    else
      var tail := Delete(d[1..], k);
      var r := [d[0]] + tail;
      assert r[1..] == tail;
      assert d == [d[0]] + d[1..];
      r
  }

  /** Assigning a key the value it already holds changes nothing. */
  lemma {:induction false} SetPresent<V>(d: Dict<V>, k: string, v: V)
    requires Get(d, k) == Some(v)
    ensures Set(d, k, v) == d
  {
    if d[0].0 == k {
      assert d == [(k, v)] + d[1..];
    } else {
      SetPresent(d[1..], k, v);
    }
  }

  /**
   * Adding a new key and deleting it again gives back the original dict,
   * contents and order.
   */
  lemma {:induction false} DeleteSetNew<V>(d: Dict<V>, k: string, v: V)
    requires !HasKey(d, k)
    ensures Delete(Set(d, k, v), k) == d
  {
    if |d| > 0 {
      assert d[0].0 != k;
      DeleteSetNew(d[1..], k, v);
      assert Set(d, k, v) == [d[0]] + Set(d[1..], k, v);
    }
  }
}
