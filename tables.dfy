/** SQL query semantics over a table kept as its rows in insertion (rowid)
    order: `WHERE` keeps the rows that match, in order; `LIMIT`/`OFFSET`
    take a contiguous slice as SQLite evaluates them. `ORDER BY` is the
    stable sort of the Sorting module. */
module Tables {

  /** The rows that satisfy `keep`, in table order. */
  function Select<T>(rows: seq<T>, keep: T -> bool): (r: seq<T>)
    ensures |r| <= |rows|
    ensures forall i :: 0 <= i < |r| ==> r[i] in rows && keep(r[i])
    ensures forall i :: 0 <= i < |rows| && keep(rows[i]) ==> rows[i] in r
  {
    if rows == [] then []
    else
      var init, last := rows[..|rows| - 1], rows[|rows| - 1];
      assert rows == init + [last];
      Select(init, keep) + (if keep(last) then [last] else [])
  }

  lemma {:induction false} SelectAppend<T>(a: seq<T>, b: seq<T>, keep: T -> bool)
    ensures Select(a + b, keep) == Select(a, keep) + Select(b, keep)
    decreases |b|
  {
    if b == [] {
      assert a + b == a;
    } else {
      var init, last := b[..|b| - 1], b[|b| - 1];
      assert (a + b)[..|a + b| - 1] == a + init;
      SelectAppend(a, init, keep);
    }
  }

  /** When every row matches, nothing is dropped. */
  lemma {:induction false} SelectAll<T>(rows: seq<T>, keep: T -> bool)
    requires forall i :: 0 <= i < |rows| ==> keep(rows[i])
    ensures Select(rows, keep) == rows
    decreases |rows|
  {
    if rows != [] {
      SelectAll(rows[..|rows| - 1], keep);
      assert rows == rows[..|rows| - 1] + [rows[|rows| - 1]];
    }
  }

  /** When no row matches, nothing is kept. */
  lemma SelectNone<T>(rows: seq<T>, keep: T -> bool)
    requires forall i :: 0 <= i < |rows| ==> !keep(rows[i])
    ensures Select(rows, keep) == []
  {
  }

  /** Selecting again by a narrower condition is selecting by it once. */
  lemma {:induction false} SelectNarrower<T>(rows: seq<T>, wide: T -> bool, narrow: T -> bool)
    requires forall x :: narrow(x) ==> wide(x)
    ensures Select(Select(rows, wide), narrow) == Select(rows, narrow)
    decreases |rows|
  {
    if rows != [] {
      var init, last := rows[..|rows| - 1], rows[|rows| - 1];
      SelectNarrower(init, wide, narrow);
      SelectAppend(Select(init, wide), if wide(last) then [last] else [], narrow);
    }
  }

  /** Selecting by a condition the first one excludes keeps nothing. */
  lemma SelectDisjoint<T>(rows: seq<T>, first: T -> bool, second: T -> bool)
    requires forall x :: second(x) ==> !first(x)
    ensures Select(Select(rows, first), second) == []
  {
    var s := Select(rows, first);
    SelectNone(s, second);
  }

  /** SQLite's `OFFSET`: a negative offset counts as zero. */
  function PageStart(offset: int, n: nat): (start: nat)
    ensures start <= n
    ensures offset <= 0 ==> start == 0
    ensures 0 <= offset <= n ==> start == offset
    ensures offset >= n ==> start == n
  {
    if offset <= 0 then 0 else if offset >= n then n else offset
  }

  /** `LIMIT limit OFFSET offset`: a negative limit sets no bound. */
  function Page<T>(rows: seq<T>, limit: int, offset: int): (r: seq<T>)
    ensures var start := PageStart(offset, |rows|);
      start + |r| <= |rows| && r == rows[start..start + |r|]
    ensures limit < 0 ==> |r| == |rows| - PageStart(offset, |rows|)
    ensures limit >= 0 ==> |r| == if limit < |rows| - PageStart(offset, |rows|) then limit
                                  else |rows| - PageStart(offset, |rows|)
  {
    var rest := rows[PageStart(offset, |rows|)..];
    if limit < 0 || limit >= |rest| then rest else rest[..limit]
  }

  /** For a non-negative window, rows remain past the page exactly when
      `offset + limit` is below the row count. */
  lemma PageLeavesMore<T>(rows: seq<T>, limit: int, offset: int)
    requires limit >= 0 && offset >= 0
    ensures PageStart(offset, |rows|) + |Page(rows, limit, offset)| < |rows| <==> offset + limit < |rows|
  {
  }
}
