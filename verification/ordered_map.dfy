/**
 * An insertion-ordered dictionary, as a Python 3.7+ `dict` behaves: a
 * sequence of (key, value) entries with distinct keys. Assigning to a
 * present key replaces its value in place; a new key goes at the end.
 */
module OrderedMap {
  import opened Wrappers
  import opened Sequences

  function Keys<K, V>(m: seq<(K, V)>): (ks: seq<K>)
    ensures |ks| == |m|
    ensures forall i :: 0 <= i < |m| ==> ks[i] == m[i].0
  {
    seq(|m|, i requires 0 <= i < |m| => m[i].0)
  }

  predicate DistinctKeys<K(==), V>(m: seq<(K, V)>)
  {
    Distinct(Keys(m))
  }

  /** Looking up k in the dictionary m: its value, or None when k is absent. */
  function Find<K(==), V>(m: seq<(K, V)>, k: K): (r: Option<V>)
    ensures r.None? <==> k !in Keys(m)
  {
    if k in Keys(m) then Some(m[FirstIndex(Keys(m), k)].1) else None
  }

  /** `m[k] = v`. */
  function Put<K(==), V>(m: seq<(K, V)>, k: K, v: V): (r: seq<(K, V)>)
    ensures k in Keys(m) ==> Keys(r) == Keys(m)
    ensures k !in Keys(m) ==> Keys(r) == Keys(m) + [k]
    ensures DistinctKeys(m) ==> DistinctKeys(r)
  {
    if k in Keys(m) then
      var r := m[FirstIndex(Keys(m), k) := (k, v)];
      assert Keys(r) == Keys(m);
      r
    else
      var r := m + [(k, v)];
      assert Keys(r) == Keys(m) + [k];
      r
  }

  /** After `m[k] = v`, `k` holds `v` and every other key holds what it held. */
  lemma PutFind<K, V>(m: seq<(K, V)>, k: K, v: V, k': K)
    ensures Find(Put(m, k, v), k') == if k' == k then Some(v) else Find(m, k')
  {
    var r := Put(m, k, v);
    if k !in Keys(m) {
      if k' == k {
        FirstIndexAppendNew(Keys(m), k);
      } else if k' in Keys(m) {
        FirstIndexPrefix(Keys(m), [k], k');
      }
    }
  }

  /** `dict` built by assigning the entries in order. */
  function FromEntries<K(==), V>(es: seq<(K, V)>): (m: seq<(K, V)>)
    ensures DistinctKeys(m)
  {
    if |es| == 0 then []
    else
      var last := es[|es| - 1];
      Put(FromEntries(es[..|es| - 1]), last.0, last.1)
  }

  /** Value of the last entry for `k`: the assignment that wins. */
  function LastValue<K(==), V>(es: seq<(K, V)>, k: K): Option<V>
  {
    if |es| == 0 then None
    else if es[|es| - 1].0 == k then Some(es[|es| - 1].1)
    else LastValue(es[..|es| - 1], k)
  }

  /** A dictionary built from entries has exactly the keys of the entries. */
  lemma {:induction false} FromEntriesKeys<K, V>(es: seq<(K, V)>)
    ensures forall k :: k in Keys(FromEntries(es)) <==> k in Keys(es)
  {
    if |es| > 0 {
      FromEntriesKeys(es[..|es| - 1]);
      assert Keys(es) == Keys(es[..|es| - 1]) + [es[|es| - 1].0];
    }
  }

  /** Each key of a dictionary built from entries holds the value it was last given. */
  lemma {:induction false} FromEntriesFind<K, V>(es: seq<(K, V)>, k: K)
    ensures Find(FromEntries(es), k) == LastValue(es, k)
  {
    if |es| > 0 {
      var last := es[|es| - 1];
      FromEntriesFind(es[..|es| - 1], k);
      PutFind(FromEntries(es[..|es| - 1]), last.0, last.1, k);
    }
  }

  /**
   * `ks` lists keys drawn from `src`, ordered by where each first appears
   * in `src`.
   */
  predicate InFirstSeenOrder<K(==)>(ks: seq<K>, src: seq<K>)
  {
    && (forall i :: 0 <= i < |ks| ==> ks[i] in src)
    && (forall i, j :: 0 <= i < j < |ks| ==> FirstIndex(src, ks[i]) < FirstIndex(src, ks[j]))
  }

  /** A dictionary built from entries lists its keys in the order they first appear. */
  lemma {:induction false} FromEntriesOrder<K, V>(es: seq<(K, V)>)
    ensures InFirstSeenOrder(Keys(FromEntries(es)), Keys(es))
  {
    if |es| > 0 {
      var init := es[..|es| - 1];
      var last := es[|es| - 1];
      FromEntriesOrder(init);
      FromEntriesKeys(init);
      PutOrder(FromEntries(init), Keys(init), last.0, last.1);
      assert Keys(es) == Keys(init) + [last.0];
    }
  }

  /** Assigning to a dictionary whose keys are in first-seen order keeps that order. */
  lemma PutOrder<K, V>(p: seq<(K, V)>, src: seq<K>, x: K, v: V)
    requires InFirstSeenOrder(Keys(p), src)
    requires forall k :: k in Keys(p) <==> k in src
    ensures InFirstSeenOrder(Keys(Put(p, x, v)), src + [x])
  {
    OrderExtend(Keys(p), src, x);
    if x !in src {
      OrderAppendNew(Keys(p), src, x);
    }
  }

  /** Appending to the source keeps an order by first appearance. */
  lemma OrderExtend<K>(ks: seq<K>, src: seq<K>, x: K)
    requires InFirstSeenOrder(ks, src)
    ensures InFirstSeenOrder(ks, src + [x])
  {
    forall k | k in src ensures FirstIndex(src + [x], k) == FirstIndex(src, k) {
      FirstIndexPrefix(src, [x], k);
    }
  }

  /** A key new to the source, appended to both, comes last in the order. */
  lemma OrderAppendNew<K>(ks: seq<K>, src: seq<K>, x: K)
    requires InFirstSeenOrder(ks, src)
    requires x !in src
    ensures InFirstSeenOrder(ks + [x], src + [x])
  {
    OrderExtend(ks, src, x);
    FirstIndexAppendNew(src, x);
    var s := src + [x];
    var r := ks + [x];
    forall i, j | 0 <= i < j < |r| ensures FirstIndex(s, r[i]) < FirstIndex(s, r[j]) {
      if j == |ks| {
        assert r[i] == ks[i] && ks[i] in src;
      }
    }
  }

  /** Entries with distinct keys are already a dictionary, order kept. */
  lemma {:induction false} FromDistinctEntries<K, V>(es: seq<(K, V)>)
    requires DistinctKeys(es)
    ensures FromEntries(es) == es
  {
    if |es| > 0 {
      var n := |es| - 1;
      var init := es[..n];
      FreshKey(es, n);
      assert DistinctKeys(init) by {
        assert forall i :: 0 <= i < n ==> Keys(init)[i] == Keys(es)[i];
      }
      FromDistinctEntries(init);
      PutNew(init, es[n].0, es[n].1);
      var last := es[n];
      assert (last.0, last.1) == last;
      FrontLast(es);
    }
  }

  /** Assigning a key that is not present appends it. */
  lemma PutNew<K, V>(m: seq<(K, V)>, k: K, v: V)
    requires k !in Keys(m)
    ensures Put(m, k, v) == m + [(k, v)]
  {
  }

  /** With distinct keys, the key of entry `i` is not among those before it. */
  lemma FreshKey<K, V>(es: seq<(K, V)>, i: nat)
    requires DistinctKeys(es) && i < |es|
    ensures es[i].0 !in Keys(es[..i])
    ensures Keys(es[..i + 1]) == Keys(es[..i]) + [es[i].0]
  {
    assert forall j :: 0 <= j < i ==> Keys(es[..i])[j] == Keys(es)[j];
    assert Keys(es[..i + 1]) == Keys(es[..i]) + [es[i].0];
  }
}
