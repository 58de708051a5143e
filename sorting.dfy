/** The two sorts the platform calls: Python's stable `list.sort(key=...,
    reverse=True)` (descending by a numeric key, equal keys keep their
    input order) and the key order of `json.dumps(sort_keys=True)` and
    `sorted(d.items())` over string keys. */
module Sorting {
  import opened Text

  /** Keys never increase along `s`. */
  predicate SortedDesc<T>(s: seq<T>, key: T -> real)
  {
    forall i, j :: 0 <= i < j < |s| ==> key(s[i]) >= key(s[j])
  }

  /** No key in `s` exceeds `b`. */
  predicate AllAtMost<T>(s: seq<T>, key: T -> real, b: real)
  {
    forall i :: 0 <= i < |s| ==> key(s[i]) <= b
  }

  /** Puts `x` after every element whose key is at least its own. */
  function InsertDesc<T>(t: seq<T>, x: T, key: T -> real): (r: seq<T>)
    ensures |r| == |t| + 1
    ensures multiset(r) == multiset(t) + multiset{x}
  {
    if t == [] then [x]
    else if key(t[0]) >= key(x) then
      assert t == [t[0]] + t[1..];
      [t[0]] + InsertDesc(t[1..], x, key)
    else [x] + t
  }

  /** Stable descending sort: insertion of each element in input order. */
  function SortDesc<T>(s: seq<T>, key: T -> real): (r: seq<T>)
    ensures |r| == |s|
    ensures multiset(r) == multiset(s)
  {
    if s == [] then []
    else
      assert s == s[..|s| - 1] + [s[|s| - 1]];
      InsertDesc(SortDesc(s[..|s| - 1], key), s[|s| - 1], key)
  }

  lemma {:induction false} InsertDescAtMost<T>(t: seq<T>, x: T, key: T -> real, b: real)
    requires AllAtMost(t, key, b) && key(x) <= b
    ensures AllAtMost(InsertDesc(t, x, key), key, b)
    decreases |t|
  {
    if t != [] && key(t[0]) >= key(x) {
      InsertDescAtMost(t[1..], x, key, b);
    }
  }

  lemma {:induction false} InsertDescSorted<T>(t: seq<T>, x: T, key: T -> real)
    requires SortedDesc(t, key)
    ensures SortedDesc(InsertDesc(t, x, key), key)
    decreases |t|
  {
    if t != [] && key(t[0]) >= key(x) {
      InsertDescSorted(t[1..], x, key);
      InsertDescAtMost(t[1..], x, key, key(t[0]));
    }
  }

  /** The result of `SortDesc` is in descending key order. */
  lemma {:induction false} SortDescSorted<T>(s: seq<T>, key: T -> real)
    ensures SortedDesc(SortDesc(s, key), key)
    decreases |s|
  {
    if s != [] {
      SortDescSorted(s[..|s| - 1], key);
      InsertDescSorted(SortDesc(s[..|s| - 1], key), s[|s| - 1], key);
    }
  }

  /** The elements of `s` whose key is `k`, in order. */
  function WithKey<T>(s: seq<T>, key: T -> real, k: real): seq<T>
  {
    if s == [] then [] else (if key(s[0]) == k then [s[0]] else []) + WithKey(s[1..], key, k)
  }

  lemma {:induction false} WithKeyAppend<T>(a: seq<T>, b: seq<T>, key: T -> real, k: real)
    ensures WithKey(a + b, key, k) == WithKey(a, key, k) + WithKey(b, key, k)
    decreases |a|
  {
    if a != [] {
      assert (a + b)[0] == a[0] && (a + b)[1..] == a[1..] + b;
      WithKeyAppend(a[1..], b, key, k);
      var h := if key(a[0]) == k then [a[0]] else [];
      calc {
        WithKey(a + b, key, k);
        h + WithKey(a[1..] + b, key, k);
        h + (WithKey(a[1..], key, k) + WithKey(b, key, k));
        (h + WithKey(a[1..], key, k)) + WithKey(b, key, k);
      }
    } else {
      assert a + b == b;
    }
  }

  lemma {:induction false} WithKeyBelow<T>(t: seq<T>, key: T -> real, k: real)
    requires forall i :: 0 <= i < |t| ==> key(t[i]) < k
    ensures WithKey(t, key, k) == []
    decreases |t|
  {
    if t != [] { WithKeyBelow(t[1..], key, k); }
  }

  lemma {:induction false} InsertDescWithKey<T>(t: seq<T>, x: T, key: T -> real, k: real)
    requires SortedDesc(t, key)
    ensures WithKey(InsertDesc(t, x, key), key, k) == WithKey(t, key, k) + WithKey([x], key, k)
    decreases |t|
  {
    if t == [] {
    } else if key(t[0]) >= key(x) {
      InsertDescWithKey(t[1..], x, key, k);
      InsertDescBehind(t, x, key, k);
    } else {
      InsertDescFront(t, x, key, k);
    }
  }

  /** Inserting behind the head: the head keeps its place before the
      elements with its key that the rest holds. */
  lemma InsertDescBehind<T>(t: seq<T>, x: T, key: T -> real, k: real)
    requires t != [] && key(t[0]) >= key(x)
    requires WithKey(InsertDesc(t[1..], x, key), key, k) == WithKey(t[1..], key, k) + WithKey([x], key, k)
    ensures WithKey(InsertDesc(t, x, key), key, k) == WithKey(t, key, k) + WithKey([x], key, k)
  {
    var rest := InsertDesc(t[1..], x, key);
    var r := InsertDesc(t, x, key);
    var h := if key(t[0]) == k then [t[0]] else [];
    assert r == [t[0]] + rest;
    assert r[0] == t[0] && r[1..] == rest;
    calc {
      WithKey(r, key, k);
      h + WithKey(rest, key, k);
      h + (WithKey(t[1..], key, k) + WithKey([x], key, k));
      (h + WithKey(t[1..], key, k)) + WithKey([x], key, k);
      WithKey(t, key, k) + WithKey([x], key, k);
    }
  }

  /** Inserting a key above every key of a sorted sequence puts it first,
      which keeps the order among equal keys. */
  lemma InsertDescFront<T>(t: seq<T>, x: T, key: T -> real, k: real)
    requires SortedDesc(t, key) && t != [] && key(t[0]) < key(x)
    ensures WithKey(InsertDesc(t, x, key), key, k) == WithKey(t, key, k) + WithKey([x], key, k)
  {
    assert InsertDesc(t, x, key) == [x] + t;
    WithKeyAppend([x], t, key, k);
    if key(x) == k {
      assert forall i :: 0 <= i < |t| ==> key(t[i]) <= key(t[0]);
      WithKeyBelow(t, key, k);
      assert WithKey(t, key, k) + WithKey([x], key, k) == WithKey([x], key, k);
      assert WithKey([x], key, k) + WithKey(t, key, k) == WithKey([x], key, k);
    } else {
      assert WithKey([x], key, k) == [];
      assert WithKey(t, key, k) + [] == WithKey(t, key, k);
      assert [] + WithKey(t, key, k) == WithKey(t, key, k);
    }
  }

  /** Stability: among elements with equal keys the input order survives. */
  lemma {:induction false} SortDescStable<T>(s: seq<T>, key: T -> real, k: real)
    ensures WithKey(SortDesc(s, key), key, k) == WithKey(s, key, k)
    decreases |s|
  {
    if s != [] {
      var init, last := s[..|s| - 1], s[|s| - 1];
      SortDescStable(init, key, k);
      SortDescSorted(init, key);
      InsertDescWithKey(SortDesc(init, key), last, key, k);
      assert s == init + [last];
      WithKeyAppend(init, [last], key, k);
    }
  }

  function Negate(x: real): real
  {
    -x
  }

  /** `sorted(xs)` on numbers: ascending. */
  function SortAsc(xs: seq<real>): (r: seq<real>)
    ensures |r| == |xs|
    ensures multiset(r) == multiset(xs)
  {
    SortDesc(xs, Negate)
  }

  lemma SortAscSorted(xs: seq<real>)
    ensures forall i, j :: 0 <= i < j < |SortAsc(xs)| ==> SortAsc(xs)[i] <= SortAsc(xs)[j]
  {
    SortDescSorted(xs, Negate);
  }

  /** Keys strictly increase in code-point order along `d`. */
  predicate LexSorted<V>(d: seq<(string, V)>)
  {
    forall i, j :: 0 <= i < j < |d| ==> LexLess(d[i].0, d[j].0)
  }

  /** Every key of `d` comes after `b`. */
  predicate AllAfter<V>(d: seq<(string, V)>, b: string)
  {
    forall i :: 0 <= i < |d| ==> LexLess(b, d[i].0)
  }

  function InsertByKey<V>(t: seq<(string, V)>, x: (string, V)): (r: seq<(string, V)>)
    ensures |r| == |t| + 1
    ensures multiset(r) == multiset(t) + multiset{x}
  {
    if t == [] then [x]
    else if LexLess(t[0].0, x.0) then
      assert t == [t[0]] + t[1..];
      [t[0]] + InsertByKey(t[1..], x)
    else [x] + t
  }

  /** The entries of `d` in code-point order of their keys. */
  function SortByKey<V>(d: seq<(string, V)>): (r: seq<(string, V)>)
    ensures |r| == |d|
    ensures multiset(r) == multiset(d)
  {
    if d == [] then []
    else
      assert d == d[..|d| - 1] + [d[|d| - 1]];
      InsertByKey(SortByKey(d[..|d| - 1]), d[|d| - 1])
  }

  lemma {:induction false} InsertByKeyAfter<V>(t: seq<(string, V)>, x: (string, V), b: string)
    requires AllAfter(t, b) && LexLess(b, x.0)
    ensures AllAfter(InsertByKey(t, x), b)
    decreases |t|
  {
    if t != [] && LexLess(t[0].0, x.0) {
      InsertByKeyAfter(t[1..], x, b);
    }
  }

  lemma {:induction false} InsertByKeySorted<V>(t: seq<(string, V)>, x: (string, V))
    requires LexSorted(t)
    requires forall i :: 0 <= i < |t| ==> t[i].0 != x.0
    ensures LexSorted(InsertByKey(t, x))
    decreases |t|
  {
    if t != [] {
      if LexLess(t[0].0, x.0) {
        InsertByKeySorted(t[1..], x);
        InsertByKeyAfter(t[1..], x, t[0].0);
      } else {
        LexLessTotal(t[0].0, x.0);
        forall j | 0 <= j < |t| ensures LexLess(x.0, t[j].0) {
          if j > 0 { LexLessTransitive(x.0, t[0].0, t[j].0); }
        }
      }
    }
  }

  /** With distinct keys, the sorted entries are strictly increasing. */
  lemma {:induction false} SortByKeySorted<V>(d: seq<(string, V)>)
    requires forall i, j :: 0 <= i < j < |d| ==> d[i].0 != d[j].0
    ensures LexSorted(SortByKey(d))
    decreases |d|
  {
    if d != [] {
      var init, last := d[..|d| - 1], d[|d| - 1];
      SortByKeySorted(init);
      var t := SortByKey(init);
      forall i | 0 <= i < |t| ensures t[i].0 != last.0 {
        assert t[i] in multiset(init);
        var j :| 0 <= j < |init| && init[j] == t[i];
      }
      InsertByKeySorted(t, last);
    }
  }

  /** Sorted sequences with the same entries start with the same entry. */
  lemma LexSortedHead<V>(a: seq<(string, V)>, b: seq<(string, V)>)
    requires LexSorted(a) && LexSorted(b) && multiset(a) == multiset(b) && a != []
    ensures b != [] && a[0] == b[0]
  {
    assert a[0] in multiset(b);
    var j :| 0 <= j < |b| && b[j] == a[0];
    assert b[0] in multiset(a);
    var i :| 0 <= i < |a| && a[i] == b[0];
    if j > 0 {
      if i == 0 {
        LexLessIrreflexive(b[0].0);
      } else {
        LexLessTransitive(a[0].0, a[i].0, b[j].0);
        LexLessIrreflexive(a[0].0);
      }
    }
  }

  /** Two strictly key-sorted sequences with the same entries are equal:
      the order of a sorted dict does not depend on its insertion order. */
  lemma {:induction false} LexSortedUnique<V>(a: seq<(string, V)>, b: seq<(string, V)>)
    requires LexSorted(a) && LexSorted(b) && multiset(a) == multiset(b)
    ensures a == b
    decreases |a|
  {
    if a == [] {
      assert |multiset(b)| == 0;
    } else {
      LexSortedHead(a, b);
      assert a == [a[0]] + a[1..] && b == [b[0]] + b[1..];
      calc {
        multiset(a[1..]);
        multiset(a) - multiset{a[0]};
        multiset(b) - multiset{b[0]};
        multiset(b[1..]);
      }
      LexSortedUnique(a[1..], b[1..]);
    }
  }
}
