/** Python's `dict` as Jenna uses it: a sequence of (key, value) pairs in
    insertion order, where assigning to a key that is already present replaces
    its value in place and assigning to a new key appends it at the end. */
module OrderedDict {
  import opened Wrappers

  function Keys<K, V>(d: seq<(K, V)>): (ks: seq<K>)
    ensures |ks| == |d|
    ensures forall i :: 0 <= i < |d| ==> ks[i] == d[i].0
  {
    if |d| == 0 then [] else [d[0].0] + Keys(d[1..])
  }

  /** No key occurs twice: the invariant every Python dict keeps. */
  predicate DistinctKeys<K(==), V>(d: seq<(K, V)>)
  {
    forall i, j :: 0 <= i < j < |d| ==> d[i].0 != d[j].0
  }

  /** `d[k]`, or None when `k` is absent. */
  function Get<K(==), V>(d: seq<(K, V)>, k: K): (r: Option<V>)
    ensures r.None? <==> k !in Keys(d)
    ensures r.Some? ==> (k, r.value) in d
  {
    if |d| == 0 then None
    else if d[0].0 == k then Some(d[0].1)
    else Get(d[1..], k)
  }

  /** A present key looks up the value of its first occurrence. */
  lemma {:induction false} GetFirstOccurrence<K, V>(d: seq<(K, V)>, k: K, i: nat)
    requires i < |d| && d[i].0 == k && k !in Keys(d[..i])
    ensures Get(d, k) == Some(d[i].1)
  {
    if i > 0 {
      var before := Keys(d[..i]);
      var rest := Keys(d[1..][..i - 1]);
      assert before[0] == d[0].0;
      forall j | 0 <= j < i - 1 ensures rest[j] != k {
        assert rest[j] == d[j + 1].0 == before[j + 1];
      }
      GetFirstOccurrence(d[1..], k, i - 1);
    }
  }

  /** With distinct keys, every entry is what its key looks up. */
  lemma GetDistinct<K, V>(d: seq<(K, V)>, i: nat)
    requires DistinctKeys(d) && i < |d|
    ensures Get(d, d[i].0) == Some(d[i].1)
  {
    forall j | 0 <= j < i ensures Keys(d[..i])[j] != d[i].0 {
      assert Keys(d[..i])[j] == d[j].0;
    }
    GetFirstOccurrence(d, d[i].0, i);
  }

  /** `d[k] = v`. */
  function Put<K(==), V>(d: seq<(K, V)>, k: K, v: V): (r: seq<(K, V)>)
    ensures k in Keys(d) ==> Keys(r) == Keys(d)
    ensures k !in Keys(d) ==> r == d + [(k, v)]
  {
    if |d| == 0 then [(k, v)]
    else if d[0].0 == k then [(k, v)] + d[1..]
    else [d[0]] + Put(d[1..], k, v)
  }

  /** Last write wins: after `d[k] = v`, `d[k]` is `v`. */
  lemma {:induction false} PutThenGet<K, V>(d: seq<(K, V)>, k: K, v: V)
    ensures Get(Put(d, k, v), k) == Some(v)
  {
    if |d| > 0 && d[0].0 != k {
      PutThenGet(d[1..], k, v);
      assert Put(d, k, v)[1..] == Put(d[1..], k, v);
    }
  }

  /** Writing one key leaves every other key's value as it was. */
  lemma {:induction false} PutOtherKey<K, V>(d: seq<(K, V)>, k: K, v: V, k': K)
    requires k' != k
    ensures Get(Put(d, k, v), k') == Get(d, k')
  {
    if |d| == 0 {
    } else if d[0].0 == k {
      assert Put(d, k, v)[1..] == d[1..];
    } else {
      PutOtherKey(d[1..], k, v, k');
      assert Put(d, k, v)[1..] == Put(d[1..], k, v);
    }
  }

  /** Writes never create a duplicate key. */
  lemma {:induction false} PutKeepsDistinct<K, V>(d: seq<(K, V)>, k: K, v: V)
    requires DistinctKeys(d)
    ensures DistinctKeys(Put(d, k, v))
  {
    var r := Put(d, k, v);
    if k in Keys(d) {
      forall i, j | 0 <= i < j < |r| ensures r[i].0 != r[j].0 {
        assert Keys(r)[i] == Keys(d)[i] && Keys(r)[j] == Keys(d)[j];
      }
    } else {
      forall i, j | 0 <= i < j < |r| ensures r[i].0 != r[j].0 {
        if j == |d| {
          assert r[i].0 == Keys(d)[i];
        }
      }
    }
  }
}
