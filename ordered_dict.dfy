/**
  An insertion-ordered dictionary, as a Python `dict` is: a sequence of
  key/value pairs in the order their keys were first inserted, with no key
  twice. Assigning to a key that is present replaces its value where it
  stands; assigning to a new key appends; deleting removes the pair and
  closes the gap.
 */
module OrderedDict {
  import opened Wrappers

  type Dict<K, V> = seq<(K, V)>

  /** No key occurs twice: the representation invariant of every dictionary. */
  ghost predicate DistinctKeys<K, V>(d: Dict<K, V>) {
    forall i, j :: 0 <= i < j < |d| ==> d[i].0 != d[j].0
  }

  /** `k in d`. */
  predicate HasKey<K(==), V>(d: Dict<K, V>, k: K) {
    exists i :: 0 <= i < |d| && d[i].0 == k
  }

  /** The position of the first pair whose key is `k`, if any. */
  function IndexOf<K(==), V>(d: Dict<K, V>, k: K): (r: Option<nat>)
    ensures r.Some? ==> r.value < |d| && d[r.value].0 == k
    ensures r.Some? ==> forall j :: 0 <= j < r.value ==> d[j].0 != k
    ensures r.None? <==> !HasKey(d, k)
  {
    if d == [] then None
    else if d[0].0 == k then Some(0)
    else
      match IndexOf(d[1..], k)
      case None => None
      case Some(i) => Some(i + 1)
  }

  /** `d.get(k)`: the value stored under `k`, if any. */
  function Get<K(==), V>(d: Dict<K, V>, k: K): (r: Option<V>)
    ensures r.Some? <==> HasKey(d, k)
    ensures DistinctKeys(d) ==> forall i :: 0 <= i < |d| && d[i].0 == k ==> r == Some(d[i].1)
  {
    match IndexOf(d, k)
    case None => None
    case Some(i) => Some(d[i].1)
  }

  /** `d[k] = v`: replaces the value in place when `k` is present, appends otherwise. */
  function Assign<K(==), V>(d: Dict<K, V>, k: K, v: V): (r: Dict<K, V>)
    requires DistinctKeys(d)
    ensures !HasKey(d, k) ==> r == d + [(k, v)]
    ensures HasKey(d, k) ==> |r| == |d| && forall i :: 0 <= i < |d| ==>
      r[i] == if d[i].0 == k then (k, v) else d[i]
    ensures DistinctKeys(r)
  {
    match IndexOf(d, k)
    case None => d + [(k, v)]
    case Some(i) => d[i := (k, v)]
  }

  /** `del d[k]`: Python raises KeyError for a missing key, so `k` must be present. */
  function Delete<K(==), V>(d: Dict<K, V>, k: K): (r: Dict<K, V>)
    requires DistinctKeys(d) && HasKey(d, k)
    ensures forall i :: 0 <= i < |d| && d[i].0 == k ==> r == d[..i] + d[i + 1..]
    ensures DistinctKeys(r) && !HasKey(r, k)
  {
    var i := IndexOf(d, k).value;
    var r := d[..i] + d[i + 1..];
    assert forall j :: 0 <= j < |r| ==> r[j] == if j < i then d[j] else d[j + 1];
    r
  }

  /** After `d[k] = v`, looking up `k` gives `v` and every other key reads as before. */
  lemma {:induction false} AssignGet<K, V>(d: Dict<K, V>, k: K, v: V, k': K)
    requires DistinctKeys(d)
    ensures Get(Assign(d, k, v), k') == if k' == k then Some(v) else Get(d, k')
  {
    var r := Assign(d, k, v);
    if k' == k {
      if HasKey(d, k) {
        var i := IndexOf(d, k).value;
        assert r[i].0 == k;
      } else {
        assert r[|d|].0 == k;
      }
    } else {
      assert |d| <= |r|;
      assert forall i :: 0 <= i < |d| ==> (r[i].0 == k' <==> d[i].0 == k');
      if HasKey(d, k') {
        var i := IndexOf(d, k').value;
        assert r[i] == d[i];
      }
    }
  }

  /** After `del d[k]`, `k` is gone and every other key reads as before. */
  lemma {:induction false} DeleteGet<K, V>(d: Dict<K, V>, k: K, k': K)
    requires DistinctKeys(d) && HasKey(d, k)
    ensures Get(Delete(d, k), k') == if k' == k then None else Get(d, k')
  {
    var i := IndexOf(d, k).value;
    var r := Delete(d, k);
    assert r == d[..i] + d[i + 1..];
    assert forall j :: 0 <= j < |r| ==> r[j] == if j < i then d[j] else d[j + 1];
    if k' != k {
      if HasKey(d, k') {
        var j := IndexOf(d, k').value;
        assert j != i;
        if j < i { assert r[j] == d[j]; } else { assert r[j - 1] == d[j]; }
      }
    }
  }
}
