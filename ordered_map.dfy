/**
 * Insertion-ordered maps as association lists, the way a Python `dict` behaves:
 * iteration follows insertion order, and assigning to a key that is already
 * present replaces its value where it stands.
 */
module OrderedMap {
  import opened Wrappers

  type Map<K, V> = seq<(K, V)>

  function Keys<K, V>(m: Map<K, V>): (ks: seq<K>)
    ensures |ks| == |m|
  {
    if |m| == 0 then [] else [m[0].0] + Keys(m[1..])
  }

  function Values<K, V>(m: Map<K, V>): (vs: seq<V>)
    ensures |vs| == |m|
  {
    if |m| == 0 then [] else [m[0].1] + Values(m[1..])
  }

  /** No key occurs twice. */
  predicate Distinct<K(==)>(ks: seq<K>) {
    |ks| == 0 || (ks[0] !in ks[1..] && Distinct(ks[1..]))
  }

  /** `d[k]` / `d.get(k)`: the value stored under `k`, if any. */
  function Get<K(==), V>(m: Map<K, V>, k: K): (r: Option<V>)
    ensures r.None? <==> k !in Keys(m)
  {
    if |m| == 0 then None
    else if m[0].0 == k then Some(m[0].1)
    else
      var r := Get(m[1..], k);
      r
  }

  /** The value found for `k` is the one stored at the first entry with key `k`. */
  lemma {:induction false} GetAt<K, V>(m: Map<K, V>, k: K, i: nat)
    requires i < |m| && m[i].0 == k
    requires forall j :: 0 <= j < i ==> m[j].0 != k
    ensures Get(m, k) == Some(m[i].1)
    decreases i
  {
    if i > 0 {
      GetAt(m[1..], k, i - 1);
    }
  }

  /** The `i`-th key is the key of the `i`-th entry. */
  lemma {:induction false} KeysAt<K, V>(m: Map<K, V>, i: nat)
    requires i < |m|
    ensures Keys(m)[i] == m[i].0
    decreases i
  {
    if i > 0 {
      KeysAt(m[1..], i - 1);
    }
  }

  /** The value of the last entry with key `k`: what a loop assigning every entry in turn leaves. */
  function Last<K(==), V>(m: Map<K, V>, k: K): Option<V>
    decreases |m|
  {
    if |m| == 0 then None
    else if m[|m| - 1].0 == k then Some(m[|m| - 1].1)
    else Last(m[..|m| - 1], k)
  }

  /** `d[k] = v`: a new key goes at the end, an existing key keeps its place. */
  function Put<K(==,!new), V>(m: Map<K, V>, k: K, v: V): (r: Map<K, V>)
    ensures Get(r, k) == Some(v)
    ensures forall j :: j != k ==> Get(r, j) == Get(m, j)
    ensures Keys(r) == if k in Keys(m) then Keys(m) else Keys(m) + [k]
  {
    if |m| == 0 then [(k, v)]
    else if m[0].0 == k then
      var r := [(k, v)] + m[1..];
      assert r[1..] == m[1..];
      r
    else
      var rest := Put(m[1..], k, v);
      var r := [m[0]] + rest;
      assert r[1..] == rest;
      r
  }

  /** `m.update(other)`: assigning every entry of `other`, in its order. */
  function PutAll<K(==,!new), V>(m: Map<K, V>, other: Map<K, V>): Map<K, V>
    decreases |other|
  {
    if other == [] then m else PutAll(Put(m, other[0].0, other[0].1), other[1..])
  }

  /** Assigning one more entry after the others. */
  lemma {:induction false} PutAllAppend<K(!new), V>(m: Map<K, V>, other: Map<K, V>, k: K, v: V)
    ensures PutAll(m, other + [(k, v)]) == Put(PutAll(m, other), k, v)
    decreases |other|
  {
    if other == [] {
      assert ([] + [(k, v)])[1..] == [];
    } else {
      assert (other + [(k, v)])[1..] == other[1..] + [(k, v)];
      PutAllAppend(Put(m, other[0].0, other[0].1), other[1..], k, v);
    }
  }

  /** After assigning a sequence of entries, a key holds the last value assigned to it, if any. */
  lemma {:induction false} PutAllLast<K(!new), V>(m: Map<K, V>, other: Map<K, V>, k: K)
    ensures Get(PutAll(m, other), k) == if Last(other, k).Some? then Last(other, k) else Get(m, k)
    decreases |other|
  {
    if other != [] {
      var n := |other| - 1;
      var init := other[..n];
      assert other == init + [other[n]];
      PutAllAppend(m, init, other[n].0, other[n].1);
      PutAllLast(m, init, k);
    }
  }

  /** Dropping the first entry keeps the keys distinct. */
  lemma DistinctTail<K, V>(m: Map<K, V>)
    requires |m| > 0 && Distinct(Keys(m))
    ensures Distinct(Keys(m[1..])) && m[0].0 !in Keys(m[1..])
  {
    assert Keys(m)[1..] == Keys(m[1..]);
  }

  /** Assigning a key keeps the keys distinct. */
  lemma {:induction false} PutKeepsDistinct<K(!new), V>(m: Map<K, V>, k: K, v: V)
    requires Distinct(Keys(m))
    ensures Distinct(Keys(Put(m, k, v)))
    decreases |m|
  {
    if |m| > 0 && m[0].0 != k {
      var rest := Put(m[1..], k, v);
      var r := [m[0]] + rest;
      assert r == Put(m, k, v);
      DistinctTail(m);
      PutKeepsDistinct(m[1..], k, v);
      assert r[1..] == rest;
      assert Keys(r)[1..] == Keys(rest);
    } else if |m| == 0 {
      assert Keys(Put(m, k, v)) == [k];
      assert [k][1..] == [];
    }
  }
}
