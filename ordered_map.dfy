/**
 * A JavaScript `Map` as the list of its entries in insertion order, and
 * `new Map(pairs)`: each pair is `set` in turn, a key seen again keeps its
 * place and takes the new value.
 */
module OrderedMap {
  import Seqs

  function Keys<K, V>(m: seq<(K, V)>): (ks: seq<K>)
    ensures |ks| == |m| && forall i :: 0 <= i < |m| ==> ks[i] == m[i].0
  {
    seq(|m|, i requires 0 <= i < |m| => m[i].0)
  }

  /** `Array.from(map.values())`. */
  function Values<K, V>(m: seq<(K, V)>): (vs: seq<V>)
    ensures |vs| == |m| && forall i :: 0 <= i < |m| ==> vs[i] == m[i].1
  {
    seq(|m|, i requires 0 <= i < |m| => m[i].1)
  }

  /** `map.set(k, v)`: a present key keeps its position and gets the new value; a new key goes last. */
  function Set<K(==), V>(m: seq<(K, V)>, k: K, v: V): seq<(K, V)> {
    if k in Keys(m) then seq(|m|, i requires 0 <= i < |m| => if m[i].0 == k then (k, v) else m[i])
    else m + [(k, v)]
  }

  /** `new Map(pairs)`. */
  function FromPairs<K(==), V>(pairs: seq<(K, V)>): seq<(K, V)>
    decreases |pairs|
  {
    if pairs == [] then []
    else Set(FromPairs(pairs[..|pairs| - 1]), pairs[|pairs| - 1].0, pairs[|pairs| - 1].1)
  }

  /** `e` is a pair of `pairs` and no later pair has its key. */
  ghost predicate IsLastFor<K, V>(pairs: seq<(K, V)>, e: (K, V)) {
    exists p :: 0 <= p < |pairs| && pairs[p] == e && forall q :: p < q < |pairs| ==> pairs[q].0 != e.0
  }

  /** Key `a` occurs in `pairs` before the first occurrence of key `b`. */
  ghost predicate OccursBefore<K, V>(pairs: seq<(K, V)>, a: K, b: K) {
    exists p :: 0 <= p < |pairs| && pairs[p].0 == a && forall q :: 0 <= q <= p ==> pairs[q].0 != b
  }

  /** What `new Map(pairs)` is, stated without the insertion procedure. */
  ghost predicate IsMapOf<K, V>(pairs: seq<(K, V)>, m: seq<(K, V)>) {
    && Seqs.Distinct(Keys(m))
    && (forall p :: 0 <= p < |pairs| ==> pairs[p].0 in Keys(m))
    && (forall i :: 0 <= i < |m| ==> IsLastFor(pairs, m[i]))
    && (forall i, j :: 0 <= i < j < |m| ==> OccursBefore(pairs, m[i].0, m[j].0))
  }

  /** A last occurrence stays last when a pair with another key is added. */
  lemma LastLifts<K, V>(init: seq<(K, V)>, kv: (K, V), e: (K, V))
    requires IsLastFor(init, e) && e.0 != kv.0
    ensures IsLastFor(init + [kv], e)
  {
    var p :| 0 <= p < |init| && init[p] == e && forall q :: p < q < |init| ==> init[q].0 != e.0;
    assert (init + [kv])[p] == e;
  }

  /** An order of first occurrences is kept when a pair is added at the end. */
  lemma BeforeLifts<K, V>(init: seq<(K, V)>, kv: (K, V), a: K, b: K)
    requires OccursBefore(init, a, b)
    ensures OccursBefore(init + [kv], a, b)
  {
    var p :| 0 <= p < |init| && init[p].0 == a && forall q :: 0 <= q <= p ==> init[q].0 != b;
    assert (init + [kv])[p].0 == a;
  }

  /** Setting a key that is present keeps the map a map of the extended pairs. */
  lemma SetPresent<K, V>(init: seq<(K, V)>, m0: seq<(K, V)>, k: K, v: V)
    requires IsMapOf(init, m0) && k in Keys(m0)
    ensures IsMapOf(init + [(k, v)], Set(m0, k, v))
  {
    var pairs, m := init + [(k, v)], Set(m0, k, v);
    assert Keys(m) == Keys(m0);
    forall p | 0 <= p < |pairs| ensures pairs[p].0 in Keys(m) {
      if p < |init| { assert pairs[p] == init[p]; }
    }
    forall i | 0 <= i < |m| ensures IsLastFor(pairs, m[i]) {
      if m0[i].0 == k {
        assert pairs[|init|] == m[i];
      } else {
        LastLifts(init, (k, v), m0[i]);
      }
    }
    forall i, j | 0 <= i < j < |m| ensures OccursBefore(pairs, m[i].0, m[j].0) {
      BeforeLifts(init, (k, v), m0[i].0, m0[j].0);
    }
  }

  /** A key absent from the map so far occurs after every key already in it. */
  lemma AbsentKeyComesAfter<K, V>(init: seq<(K, V)>, m0: seq<(K, V)>, k: K, v: V, i: int)
    requires IsMapOf(init, m0) && k !in Keys(m0) && 0 <= i < |m0|
    ensures OccursBefore(init + [(k, v)], m0[i].0, k)
  {
    var pairs := init + [(k, v)];
    assert IsLastFor(init, m0[i]);
    var p :| 0 <= p < |init| && init[p] == m0[i] && forall q :: p < q < |init| ==> init[q].0 != m0[i].0;
    forall q | 0 <= q <= p ensures pairs[q].0 != k {
      assert pairs[q] == init[q];
      assert init[q].0 in Keys(m0);
    }
    assert pairs[p].0 == m0[i].0;
  }

  /** Setting a new key appends it at the end. */
  lemma SetAbsentAppends<K, V>(m0: seq<(K, V)>, k: K, v: V)
    requires k !in Keys(m0)
    ensures Set(m0, k, v) == m0 + [(k, v)]
    ensures Keys(Set(m0, k, v)) == Keys(m0) + [k]
  {
  }

  /** After appending a new key, keys stay distinct and every key of the pairs is present. */
  lemma SetAbsentKeys<K, V>(init: seq<(K, V)>, m0: seq<(K, V)>, k: K, v: V)
    requires IsMapOf(init, m0) && k !in Keys(m0)
    ensures Seqs.Distinct(Keys(m0) + [k])
    ensures forall p :: 0 <= p < |init + [(k, v)]| ==> (init + [(k, v)])[p].0 in Keys(m0) + [k]
  {
    var pairs := init + [(k, v)];
    forall p | 0 <= p < |pairs| ensures pairs[p].0 in Keys(m0) + [k] {
      if p < |init| { assert pairs[p] == init[p]; }
    }
  }

  /** After appending a new key, every entry is the last pair for its key. */
  lemma SetAbsentLast<K, V>(init: seq<(K, V)>, m0: seq<(K, V)>, k: K, v: V)
    requires IsMapOf(init, m0) && k !in Keys(m0)
    ensures forall i :: 0 <= i < |m0 + [(k, v)]| ==> IsLastFor(init + [(k, v)], (m0 + [(k, v)])[i])
  {
    var pairs, m := init + [(k, v)], m0 + [(k, v)];
    forall i | 0 <= i < |m| ensures IsLastFor(pairs, m[i]) {
      if i < |m0| {
        assert m0[i].0 in Keys(m0);
        LastLifts(init, (k, v), m0[i]);
      } else {
        assert pairs[|init|] == m[i];
      }
    }
  }

  /** After appending a new key, entries keep the order of first occurrence. */
  lemma SetAbsentOrder<K, V>(init: seq<(K, V)>, m0: seq<(K, V)>, k: K, v: V)
    requires IsMapOf(init, m0) && k !in Keys(m0)
    ensures forall i, j :: 0 <= i < j < |m0 + [(k, v)]| ==> OccursBefore(init + [(k, v)], (m0 + [(k, v)])[i].0, (m0 + [(k, v)])[j].0)
  {
    var pairs, m := init + [(k, v)], m0 + [(k, v)];
    forall i, j | 0 <= i < j < |m| ensures OccursBefore(pairs, m[i].0, m[j].0) {
      if j < |m0| {
        BeforeLifts(init, (k, v), m0[i].0, m0[j].0);
      } else {
        AbsentKeyComesAfter(init, m0, k, v, i);
      }
    }
  }

  /** Setting a new key appends it, and it occurs after every key already there. */
  lemma SetAbsent<K, V>(init: seq<(K, V)>, m0: seq<(K, V)>, k: K, v: V)
    requires IsMapOf(init, m0) && k !in Keys(m0)
    ensures IsMapOf(init + [(k, v)], Set(m0, k, v))
  {
    SetAbsentAppends(m0, k, v);
    SetAbsentKeys(init, m0, k, v);
    SetAbsentLast(init, m0, k, v);
    SetAbsentOrder(init, m0, k, v);
  }

  /**
   * `new Map(pairs)` has one entry per distinct key; every key of `pairs` is
   * present; each entry holds the last value given for its key; and the keys
   * are in the order of their first occurrence.
   */
  lemma {:induction false} FromPairsIsMap<K, V>(pairs: seq<(K, V)>)
    ensures IsMapOf(pairs, FromPairs(pairs))
    decreases |pairs|
  {
    if pairs != [] {
      var n := |pairs|;
      var init := pairs[..n - 1];
      FromPairsIsMap(init);
      assert pairs == init + [(pairs[n - 1].0, pairs[n - 1].1)];
      if pairs[n - 1].0 in Keys(FromPairs(init)) {
        SetPresent(init, FromPairs(init), pairs[n - 1].0, pairs[n - 1].1);
      } else {
        SetAbsent(init, FromPairs(init), pairs[n - 1].0, pairs[n - 1].1);
      }
    }
  }

  /** `new Map(pairs).size` is the number of distinct keys among the pairs. */
  lemma SizeIsDistinctKeys<K, V>(pairs: seq<(K, V)>)
    ensures |FromPairs(pairs)| == |set p | 0 <= p < |pairs| :: pairs[p].0|
  {
    var m := FromPairs(pairs);
    FromPairsIsMap(pairs);
    var ks := set p | 0 <= p < |pairs| :: pairs[p].0;
    forall x | x in Keys(m) ensures x in ks {
      var i :| 0 <= i < |m| && Keys(m)[i] == x;
      assert IsLastFor(pairs, m[i]);
    }
    assert (set x | x in Keys(m)) == ks;
    Seqs.DistinctCardinality(Keys(m));
  }
}
