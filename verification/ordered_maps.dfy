/** Python dictionaries. A dict remembers the order in which
    its keys were first inserted; assigning to an existing key replaces the
    value in place and does not move the key. The model is an association
    list kept in that order. */
module OrderedMaps {
  import opened Wrappers

  type OMap<K, V> = seq<(K, V)>

  /** `list(d)`: the keys in insertion order. */
  function Keys<K(==), V>(m: OMap<K, V>): (ks: seq<K>)
    ensures |ks| == |m|
    ensures forall i :: 0 <= i < |m| ==> ks[i] == m[i].0
  {
    if |m| == 0 then [] else [m[0].0] + Keys(m[1..])
  }

  predicate Distinct<K(==)>(ks: seq<K>) {
    forall i, j :: 0 <= i < j < |ks| ==> ks[i] != ks[j]
  }

  /** Every key occurs once, as in any dict. */
  predicate WellFormed<K(==), V>(m: OMap<K, V>) {
    Distinct(Keys(m))
  }

  /** `d[k]` when `k in d`, `None` otherwise. */
  function Lookup<K(==), V>(m: OMap<K, V>, k: K): (r: Option<V>)
    ensures r.Some? <==> k in Keys(m)
    ensures r.Some? ==> (k, r.value) in m
  {
    if |m| == 0 then None
    else if m[0].0 == k then Some(m[0].1)
    else
      assert Keys(m) == [m[0].0] + Keys(m[1..]);
      Lookup(m[1..], k)
  }

  /** `d[k] = v`. */
  function Put<K(==), V>(m: OMap<K, V>, k: K, v: V): (r: OMap<K, V>)
    ensures Keys(r) == if k in Keys(m) then Keys(m) else Keys(m) + [k]
  {
    if |m| == 0 then [(k, v)]
    else if m[0].0 == k then [(k, v)] + m[1..]
    else
      assert Keys(m) == [m[0].0] + Keys(m[1..]);
      [m[0]] + Put(m[1..], k, v)
  }

  /** After `d[k] = v`, `d[k]` is `v` and every other key keeps its value. */
  lemma {:induction false} LookupPut<K, V>(m: OMap<K, V>, k: K, v: V, k2: K)
    ensures Lookup(Put(m, k, v), k2) == if k2 == k then Some(v) else Lookup(m, k2)
  {
    if |m| > 0 && m[0].0 != k {
      LookupPut(m[1..], k, v, k2);
      assert Put(m, k, v)[1..] == Put(m[1..], k, v);
    } else if |m| > 0 {
      assert Put(m, k, v)[1..] == m[1..];
    }
  }

  lemma LookupPutAll<K, V>(m: OMap<K, V>, k: K, v: V)
    ensures forall k2 :: Lookup(Put(m, k, v), k2) == if k2 == k then Some(v) else Lookup(m, k2)
  {
    forall k2 ensures Lookup(Put(m, k, v), k2) == if k2 == k then Some(v) else Lookup(m, k2) {
      LookupPut(m, k, v, k2);
    }
  }

  /** Concatenating two dicts with disjoint keys: a key is looked up in the
      first part and, failing that, in the second. */
  lemma {:induction false} LookupAppend<K, V>(m1: OMap<K, V>, m2: OMap<K, V>, k: K)
    ensures Lookup(m1 + m2, k) == if k in Keys(m1) then Lookup(m1, k) else Lookup(m2, k)
  {
    if |m1| > 0 {
      assert (m1 + m2)[1..] == m1[1..] + m2;
      assert Keys(m1) == [m1[0].0] + Keys(m1[1..]);
      LookupAppend(m1[1..], m2, k);
    } else {
      assert m1 + m2 == m2;
    }
  }

  lemma KeysAppend<K, V>(m1: OMap<K, V>, m2: OMap<K, V>)
    ensures Keys(m1 + m2) == Keys(m1) + Keys(m2)
  {
  }

  /** Assignment keeps a dict's keys distinct. */
  lemma PutWellFormed<K, V>(m: OMap<K, V>, k: K, v: V)
    requires WellFormed(m)
    ensures WellFormed(Put(m, k, v))
  {
    var ks := Keys(m);
    if k !in ks {
      var r := ks + [k];
      assert Keys(Put(m, k, v)) == r;
      forall i, j | 0 <= i < j < |r|
        ensures r[i] != r[j]
      {
        if j == |ks| {
          assert r[i] == ks[i] && r[j] == k;
        } else {
          assert r[i] == ks[i] && r[j] == ks[j];
        }
      }
    }
  }
}
