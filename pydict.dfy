/** Python's `dict` as an association list: keys keep the position of their first
    insertion, and assigning to a present key replaces its value in place. */
module PyDict {
  import opened Wrappers

  type Dict<K(==), V> = seq<(K, V)>

  function Keys<K(==), V>(d: Dict<K, V>): (ks: seq<K>)
    ensures |ks| == |d|
  {
    seq(|d|, i requires 0 <= i < |d| => d[i].0)
  }

  function Values<K(==), V>(d: Dict<K, V>): (vs: seq<V>)
    ensures |vs| == |d|
  {
    seq(|d|, i requires 0 <= i < |d| => d[i].1)
  }

  predicate UniqueKeys<K(==), V>(d: Dict<K, V>) {
    forall i, j :: 0 <= i < j < |d| ==> d[i].0 != d[j].0
  }

  /** The first position at or after `from` that holds key `k`. */
  function IndexFrom<K(==), V>(d: Dict<K, V>, k: K, from: nat): (r: Option<nat>)
    ensures r.Some? ==> from <= r.value < |d| && d[r.value].0 == k
    ensures r.Some? ==> forall j :: from <= j < r.value ==> d[j].0 != k
    ensures r.None? ==> forall j :: from <= j < |d| ==> d[j].0 != k
    decreases |d| - from
  {
    if from >= |d| then None
    else if d[from].0 == k then Some(from)
    else IndexFrom(d, k, from + 1)
  }

  function IndexOf<K(==), V>(d: Dict<K, V>, k: K): (r: Option<nat>)
    ensures r.Some? <==> k in Keys(d)
    ensures r.Some? ==> r.value < |d| && d[r.value].0 == k
    ensures r.Some? ==> forall j :: 0 <= j < r.value ==> d[j].0 != k
  {
    var r := IndexFrom(d, k, 0);
    assert r.Some? ==> Keys(d)[r.value] == k;
    r
  }

  /** `d.get(k)`: the value stored under `k`, or None. */
  function Get<K(==), V>(d: Dict<K, V>, k: K): (r: Option<V>)
    ensures r.Some? <==> k in Keys(d)
    ensures r.Some? ==> r.value == d[IndexOf(d, k).value].1
  {
    match IndexOf(d, k)
    case Some(i) => Some(d[i].1)
    case None => None
  }

  /** `d[k] = v`. */
  function Set<K(==), V>(d: Dict<K, V>, k: K, v: V): (r: Dict<K, V>)
    ensures k in Keys(d) ==> Keys(r) == Keys(d)
    ensures k !in Keys(d) ==> Keys(r) == Keys(d) + [k]
  {
    match IndexOf(d, k)
    case Some(i) => d[i := (k, v)]
    case None => d + [(k, v)]
  }

  /** Looking up in `a + b` finds the entry of `a` first. */
  lemma GetAppend<K, V>(a: Dict<K, V>, b: Dict<K, V>, k: K)
    ensures Get(a + b, k) == if k in Keys(a) then Get(a, k) else Get(b, k)
  {
    var ab := a + b;
    assert forall j :: 0 <= j < |a| ==> ab[j] == a[j];
    assert forall j :: 0 <= j < |b| ==> ab[|a| + j] == b[j];
    if k in Keys(a) {
      var i := IndexOf(a, k).value;
      assert Keys(ab)[i] == k;
    } else {
      assert forall j :: 0 <= j < |a| ==> Keys(a)[j] == a[j].0;
      if k in Keys(b) {
        var i := IndexOf(b, k).value;
        assert Keys(ab)[|a| + i] == k;
      } else {
        assert forall j :: 0 <= j < |b| ==> Keys(b)[j] == b[j].0;
      }
    }
  }

  lemma GetUnique<K, V>(d: Dict<K, V>, i: nat)
    requires UniqueKeys(d) && i < |d|
    ensures Get(d, d[i].0) == Some(d[i].1)
  {
  }

  lemma SetGet<K, V>(d: Dict<K, V>, k: K, v: V, k': K)
    ensures Get(Set(d, k, v), k') == if k' == k then Some(v) else Get(d, k')
  {
    var r := Set(d, k, v);
    if k' != k && IndexOf(d, k').Some? {
      var j := IndexOf(d, k').value;
      assert IndexFrom(r, k', 0) == Some(j) by {
        assert r[j].0 == k';
        assert forall m :: 0 <= m < j ==> r[m].0 != k' by {
          assert forall m :: 0 <= m < j ==> d[m].0 != k';
        }
      }
    }
    if k' != k && IndexOf(d, k').None? {
      assert forall m :: 0 <= m < |r| ==> r[m].0 != k' by {
        assert forall m :: 0 <= m < |d| ==> d[m].0 != k';
      }
    }
    if k' == k {
      var j := IndexOf(r, k).value;
      match IndexOf(d, k)
      case Some(i) =>
        assert r[i].0 == k;
        assert forall m :: 0 <= m < i ==> d[m].0 != k;
      case None =>
        assert forall m :: 0 <= m < |d| ==> d[m].0 != k;
    }
  }

  lemma SetUnique<K, V>(d: Dict<K, V>, k: K, v: V)
    requires UniqueKeys(d)
    ensures UniqueKeys(Set(d, k, v))
  {
    if IndexOf(d, k).None? {
      assert forall m :: 0 <= m < |d| ==> d[m].0 != k by {
        forall m | 0 <= m < |d| ensures d[m].0 != k {
          assert Keys(d)[m] == d[m].0;
        }
      }
    }
  }
}
