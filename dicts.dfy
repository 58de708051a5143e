/** Python dictionaries as the pipeline uses them: insertion-ordered, one
    entry per key, `d.get(k, default)`, `d[k] = v`, and the
    `setdefault(k, []).append(v)` / `counts[k] += 1` grouping idioms. */
module Dicts {
  import opened Outcomes

  /** The entries of a dict in insertion order. */
  type Dict<K, V> = seq<(K, V)>

  /** Every key occurs once, as in any Python dict. */
  predicate DistinctKeys<K(==), V>(d: Dict<K, V>)
  {
    forall i, j :: 0 <= i < j < |d| ==> d[i].0 != d[j].0
  }

  /** The keys, in insertion order (`list(d)`). */
  function Keys<K, V>(d: Dict<K, V>): (ks: seq<K>)
    ensures |ks| == |d|
    ensures forall i :: 0 <= i < |d| ==> ks[i] == d[i].0
  {
    if d == [] then [] else [d[0].0] + Keys(d[1..])
  }

  /** Position of key `k`, or `|d|` when it is absent. */
  function IndexOf<K(==), V>(d: Dict<K, V>, k: K): (i: nat)
    ensures i <= |d|
    ensures i < |d| ==> d[i].0 == k
    ensures forall j :: 0 <= j < i ==> d[j].0 != k
  {
    if d == [] then 0 else if d[0].0 == k then 0 else 1 + IndexOf(d[1..], k)
  }

  /** `k in d` */
  predicate HasKey<K(==), V>(d: Dict<K, V>, k: K)
  {
    IndexOf(d, k) < |d|
  }

  /** `d.get(k)` */
  function Get<K(==), V>(d: Dict<K, V>, k: K): (r: Option<V>)
    ensures r.Some? <==> HasKey(d, k)
    ensures r.Some? ==> (k, r.value) in d
  {
    var i := IndexOf(d, k);
    if i < |d| then Some(d[i].1) else None
  }

  /** `d.get(k, default)` */
  function GetOr<K(==), V>(d: Dict<K, V>, k: K, default: V): V
  {
    Get(d, k).GetOr(default)
  }

  /** `d[k] = v`: an existing key keeps its place, a new key goes last. */
  function Put<K(==), V>(d: Dict<K, V>, k: K, v: V): (r: Dict<K, V>)
    ensures HasKey(d, k) ==> |r| == |d|
    ensures !HasKey(d, k) ==> r == d + [(k, v)]
    ensures forall i :: 0 <= i < |d| ==> r[i].0 == d[i].0
  {
    var i := IndexOf(d, k);
    if i < |d| then d[i := (k, v)] else d + [(k, v)]
  }

  /** What `d[k] = v` does to lookups, and that it keeps keys distinct. */
  lemma PutGet<K, V>(d: Dict<K, V>, k: K, v: V, k': K)
    ensures DistinctKeys(d) ==> DistinctKeys(Put(d, k, v))
    ensures Get(Put(d, k, v), k') == if k' == k then Some(v) else Get(d, k')
  {
    var r := Put(d, k, v);
    var i := IndexOf(d, k);
    var j := IndexOf(r, k');
    if k' == k {
      if i < |d| {
        assert r[i].0 == k;
        assert forall m :: 0 <= m < i ==> r[m].0 == d[m].0;
        assert j == i;
      } else {
        assert forall m :: 0 <= m < |d| ==> r[m].0 == d[m].0;
        assert r[|d|].0 == k;
        assert j == |d|;
      }
    }
    if k' != k && j < |r| {
      assert j < |d| && d[j].0 == k';
      assert IndexOf(d, k') == j;
    }
  }

  /** Looking up in a dict with one more entry at the end. */
  lemma {:induction false} GetSnoc<K, V>(d: Dict<K, V>, k: K, v: V, k': K)
    ensures Get(d + [(k, v)], k') == if HasKey(d, k') then Get(d, k') else if k' == k then Some(v) else None
    decreases |d|
  {
    if d != [] && d[0].0 != k' {
      assert (d + [(k, v)])[1..] == d[1..] + [(k, v)];
      GetSnoc(d[1..], k, v, k');
    } else if d == [] {
      assert [] + [(k, v)] == [(k, v)];
    }
  }

  /** Looking up in a non-empty dict, split at its last entry. */
  lemma GetInitLast<K, V>(d: Dict<K, V>, k: K)
    requires d != []
    ensures Get(d, k) == if HasKey(d[..|d| - 1], k) then Get(d[..|d| - 1], k)
                         else if k == d[|d| - 1].0 then Some(d[|d| - 1].1) else None
    ensures DistinctKeys(d) ==> DistinctKeys(d[..|d| - 1]) && !HasKey(d[..|d| - 1], d[|d| - 1].0)
  {
    assert d == d[..|d| - 1] + [d[|d| - 1]];
    GetSnoc(d[..|d| - 1], d[|d| - 1].0, d[|d| - 1].1, k);
  }

  /** The set of keys of a dict. */
  function KeySet<K, V>(d: Dict<K, V>): set<K>
  {
    set i | 0 <= i < |d| :: d[i].0
  }

  /** The values `v` of the pairs `(k, v)` in `pairs`, in order. */
  function ValuesFor<K(==), V>(pairs: seq<(K, V)>, k: K): (vs: seq<V>)
    ensures |vs| <= |pairs|
  {
    if pairs == [] then []
    else
      var last := pairs[|pairs| - 1];
      ValuesFor(pairs[..|pairs| - 1], k) + (if last.0 == k then [last.1] else [])
  }

  /** One `grouped.setdefault(k, []).append(v)` step. */
  function GroupAppend<K(==), V>(d: Dict<K, seq<V>>, k: K, v: V): Dict<K, seq<V>>
  {
    Put(d, k, GetOr(d, k, []) + [v])
  }

  /** `setdefault`/`append` over a sequence of pairs, in order. */
  function GroupPairs<K(==), V>(pairs: seq<(K, V)>): Dict<K, seq<V>>
  {
    if pairs == [] then []
    else GroupAppend(GroupPairs(pairs[..|pairs| - 1]), pairs[|pairs| - 1].0, pairs[|pairs| - 1].1)
  }

  /** Grouping gives one entry per distinct key, holding exactly the values
      paired with that key, in their original order; no group is empty. */
  lemma {:induction false} GroupPairsSpec<K, V>(pairs: seq<(K, V)>, k: K)
    ensures DistinctKeys(GroupPairs(pairs))
    ensures Get(GroupPairs(pairs), k) ==
              if ValuesFor(pairs, k) == [] then None else Some(ValuesFor(pairs, k))
    decreases |pairs|
  {
    if pairs != [] {
      var init := pairs[..|pairs| - 1];
      var last := pairs[|pairs| - 1];
      var g := GroupPairs(init);
      GroupPairsSpec(init, k);
      GroupPairsSpec(init, last.0);
      assert GetOr(g, last.0, []) == ValuesFor(init, last.0);
      assert GroupPairs(pairs) == GroupAppend(g, last.0, last.1);
      assert ValuesFor(pairs, k) == ValuesFor(init, k) + (if last.0 == k then [last.1] else []);
      PutGet(g, last.0, GetOr(g, last.0, []) + [last.1], k);
      if k == last.0 {
        assert Get(GroupPairs(pairs), k) == Some(ValuesFor(pairs, k));
      } else {
        assert Get(GroupPairs(pairs), k) == Get(g, k);
        assert ValuesFor(pairs, k) == ValuesFor(init, k);
      }
    }
  }

  /** The keys of `a + b` are those of `a` and those of `b`. */
  lemma KeySetAppend<K, V>(a: Dict<K, V>, b: Dict<K, V>)
    ensures KeySet(a + b) == KeySet(a) + KeySet(b)
  {
    forall x | x in KeySet(a + b) ensures x in KeySet(a) + KeySet(b) {
      var i :| 0 <= i < |a + b| && (a + b)[i].0 == x;
      if i >= |a| { assert b[i - |a|].0 == x; }
    }
    forall x | x in KeySet(a) + KeySet(b) ensures x in KeySet(a + b) {
      if x in KeySet(a) {
        var i :| 0 <= i < |a| && a[i].0 == x;
        assert (a + b)[i].0 == x;
      } else {
        var i :| 0 <= i < |b| && b[i].0 == x;
        assert (a + b)[|a| + i].0 == x;
      }
    }
  }

  lemma KeySetSingleton<K, V>(e: (K, V))
    ensures KeySet([e]) == {e.0}
  {
    assert [e][0].0 == e.0;
  }

  /** The keys of a grouping are exactly the keys of the pairs. */
  lemma {:induction false} GroupPairsKeys<K, V>(pairs: seq<(K, V)>)
    ensures KeySet(GroupPairs(pairs)) == KeySet(pairs)
    decreases |pairs|
  {
    if pairs != [] {
      var init := pairs[..|pairs| - 1];
      var last := pairs[|pairs| - 1];
      GroupPairsKeys(init);
      var g := GroupPairs(init);
      var entry := (last.0, GetOr(g, last.0, []) + [last.1]);
      var r := GroupPairs(pairs);
      assert pairs == init + [last];
      KeySetAppend(init, [last]);
      KeySetSingleton(last);
      if HasKey(g, last.0) {
        var i := IndexOf(g, last.0);
        assert last.0 in KeySet(g) by { assert g[i].0 == last.0; }
        assert KeySet(r) == KeySet(g) by {
          assert forall m :: 0 <= m < |g| ==> r[m].0 == g[m].0;
        }
      } else {
        assert r == g + [entry];
        KeySetAppend(g, [entry]);
        KeySetSingleton(entry);
      }
    }
  }

  /** One `counts[k] += 1` step on a `defaultdict(int)`. */
  function Increment<K(==)>(d: Dict<K, nat>, k: K): Dict<K, nat>
  {
    Put(d, k, GetOr(d, k, 0) + 1)
  }

  /** Counting the keys in order. */
  function Tally<K(==)>(keys: seq<K>): Dict<K, nat>
  {
    if keys == [] then [] else Increment(Tally(keys[..|keys| - 1]), keys[|keys| - 1])
  }

  /** A tally has one entry per distinct key, holding its number of
      occurrences. */
  lemma TallySpec<K>(keys: seq<K>, k: K)
    ensures DistinctKeys(Tally(keys))
    ensures Get(Tally(keys), k) == if k in keys then Some(multiset(keys)[k]) else None
  {
    TallyDistinct(keys);
    TallyGet(keys, k);
    CountMultiplicity(keys, k);
  }

  lemma {:induction false} TallyDistinct<K>(keys: seq<K>)
    ensures DistinctKeys(Tally(keys))
    decreases |keys|
  {
    if keys != [] {
      var t := Tally(keys[..|keys| - 1]);
      TallyDistinct(keys[..|keys| - 1]);
      PutGet(t, keys[|keys| - 1], GetOr(t, keys[|keys| - 1], 0) + 1, keys[0]);
    }
  }

  /** The number of occurrences of `k`, counted from the end. */
  function Count<K(==)>(keys: seq<K>, k: K): nat
  {
    if keys == [] then 0
    else Count(keys[..|keys| - 1], k) + (if keys[|keys| - 1] == k then 1 else 0)
  }

  lemma {:induction false} TallyGet<K>(keys: seq<K>, k: K)
    ensures Get(Tally(keys), k) == if Count(keys, k) > 0 then Some(Count(keys, k)) else None
    decreases |keys|
  {
    if keys != [] {
      TallyGet(keys[..|keys| - 1], k);
      IncrementGet(Tally(keys[..|keys| - 1]), keys[|keys| - 1], k);
    }
  }

  /** What one `counts[k] += 1` does to lookups. */
  lemma IncrementGet<K>(d: Dict<K, nat>, k: K, k': K)
    ensures Get(Increment(d, k), k') == if k' == k then Some(GetOr(d, k, 0) + 1) else Get(d, k')
  {
    PutGet(d, k, GetOr(d, k, 0) + 1, k');
  }

  /** The count is the multiplicity, and positive exactly for a key that occurs. */
  lemma {:induction false} CountMultiplicity<K>(keys: seq<K>, k: K)
    ensures Count(keys, k) == multiset(keys)[k]
    ensures Count(keys, k) > 0 <==> k in keys
    decreases |keys|
  {
    if keys != [] {
      CountMultiplicity(keys[..|keys| - 1], k);
      assert keys == keys[..|keys| - 1] + [keys[|keys| - 1]];
      assert multiset(keys) == multiset(keys[..|keys| - 1]) + multiset{keys[|keys| - 1]};
    }
  }

  /** With distinct keys, an entry is in the dict exactly when looking up
      its key finds its value. */
  lemma GetIn<K, V>(d: Dict<K, V>, k: K, v: V)
    requires DistinctKeys(d)
    ensures (k, v) in d <==> Get(d, k) == Some(v)
  {
    if (k, v) in d {
      var i :| 0 <= i < |d| && d[i] == (k, v);
      assert IndexOf(d, k) == i;
    }
  }

  /** With distinct keys, looking up any entry's key finds its value, and a
      key no entry carries is absent. */
  lemma GetDistinct<K, V>(d: Dict<K, V>)
    requires DistinctKeys(d)
    ensures forall i :: 0 <= i < |d| ==> Get(d, d[i].0) == Some(d[i].1)
  {
    forall i | 0 <= i < |d|
      ensures Get(d, d[i].0) == Some(d[i].1)
    {
      assert IndexOf(d, d[i].0) == i;
    }
  }

  /** Lookups in a three-entry dict literal with distinct keys. */
  lemma GetOfThree<K, V>(a: (K, V), b: (K, V), c: (K, V), k: K)
    requires a.0 != b.0 && a.0 != c.0 && b.0 != c.0
    ensures DistinctKeys([a, b, c])
    ensures Get([a, b, c], k) == if k == a.0 then Some(a.1) else if k == b.0 then Some(b.1)
                                 else if k == c.0 then Some(c.1) else None
  {
    var d := [a, b, c];
    var i := IndexOf(d, k);
    assert d[0] == a && d[1] == b && d[2] == c;
    assert i == if k == a.0 then 0 else if k == b.0 then 1 else if k == c.0 then 2 else 3;
  }

  /** `k in d` holds exactly when some entry carries `k`. */
  lemma HasKeyIff<K, V>(d: Dict<K, V>, k: K)
    ensures HasKey(d, k) <==> exists i :: 0 <= i < |d| && d[i].0 == k
  {
    if exists i :: 0 <= i < |d| && d[i].0 == k {
      var i :| 0 <= i < |d| && d[i].0 == k;
      assert IndexOf(d, k) <= i;
    }
  }

  /** Two dicts with the same keys in the same order find a key at the
      same position. */
  lemma SameKeysIndexOf<K, V, W>(d: Dict<K, V>, e: Dict<K, W>, k: K)
    requires |e| == |d| && forall i :: 0 <= i < |d| ==> e[i].0 == d[i].0
    ensures IndexOf(e, k) == IndexOf(d, k)
    ensures DistinctKeys(d) ==> DistinctKeys(e)
  {
    assert forall m :: 0 <= m < |d| ==> (e[m].0 == k <==> d[m].0 == k);
  }

  /** No group of a grouping is empty. */
  lemma {:induction false} GroupPairsNonEmpty<K, V>(pairs: seq<(K, V)>)
    ensures forall i :: 0 <= i < |GroupPairs(pairs)| ==> GroupPairs(pairs)[i].1 != []
    decreases |pairs|
  {
    if pairs != [] {
      var init, last := pairs[..|pairs| - 1], pairs[|pairs| - 1];
      GroupPairsNonEmpty(init);
    }
  }

  lemma {:induction false} ValuesForAppend<K, V>(a: seq<(K, V)>, b: seq<(K, V)>, k: K)
    ensures ValuesFor(a + b, k) == ValuesFor(a, k) + ValuesFor(b, k)
    decreases |b|
  {
    if b == [] {
      assert a + b == a;
    } else {
      var init, last := b[..|b| - 1], b[|b| - 1];
      assert (a + b)[..|a + b| - 1] == a + init;
      assert (a + b)[|a + b| - 1] == last;
      ValuesForAppend(a, init, k);
    }
  }
}
