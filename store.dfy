/** The two query shapes the core uses on the relational store: a filter
    (`.eq(column, value)`, and `Array.filter` on rows already loaded) and
    `.single()`, which yields a row only when exactly one row matched. */
module Store {
  import opened Types

  /** The rows satisfying `p`, in their original order. */
  function Where<T(!new)>(rows: seq<T>, p: T -> bool): (r: seq<T>)
    ensures |r| <= |rows|
    ensures forall x :: x in r ==> x in rows && p(x)
    ensures forall x :: x in rows && p(x) ==> x in r
    ensures forall x :: multiset(r)[x] == if p(x) then multiset(rows)[x] else 0
  {
    if rows == [] then []
    else
      assert rows == [rows[0]] + rows[1..];
      (if p(rows[0]) then [rows[0]] else []) + Where(rows[1..], p)
  }

  /** `.single()`: the only row, or null when there are none or several. */
  function Single<T>(rows: seq<T>): (r: Option<T>)
    ensures r.Some? <==> |rows| == 1
    ensures r.Some? ==> r.value == rows[0]
  {
    if |rows| == 1 then Some(rows[0]) else None
  }

  /** At most one row satisfies `p` (a primary-key filter). */
  ghost predicate AtMostOne<T>(rows: seq<T>, p: T -> bool) {
    forall i, j :: 0 <= i < |rows| && 0 <= j < |rows| && p(rows[i]) && p(rows[j]) ==> i == j
  }

  /** A filter that at most one row can satisfy returns exactly the row that does. */
  lemma {:induction false} WhereUnique<T(!new)>(rows: seq<T>, p: T -> bool, x: T)
    requires x in rows && p(x)
    requires AtMostOne(rows, p)
    ensures Where(rows, p) == [x]
  {
    var k :| 0 <= k < |rows| && rows[k] == x;
    if k == 0 {
      forall y | y in rows[1..] ensures !p(y) {
        var j :| 0 <= j < |rows[1..]| && rows[1..][j] == y;
        assert rows[j + 1] == y;
      }
      WhereNone(rows[1..], p);
    } else {
      assert !p(rows[0]);
      assert rows[1..][k - 1] == x;
      assert AtMostOne(rows[1..], p) by {
        forall i, j | 0 <= i < |rows[1..]| && 0 <= j < |rows[1..]| && p(rows[1..][i]) && p(rows[1..][j])
          ensures i == j
        {
          assert rows[1..][i] == rows[i + 1] && rows[1..][j] == rows[j + 1];
        }
      }
      WhereUnique(rows[1..], p, x);
    }
  }

  /** No row satisfies `p`: the filter is empty. */
  lemma {:induction false} WhereNone<T(!new)>(rows: seq<T>, p: T -> bool)
    requires forall y :: y in rows ==> !p(y)
    ensures Where(rows, p) == []
  {
    if rows != [] {
      assert forall y :: y in rows[1..] ==> y in rows;
      WhereNone(rows[1..], p);
    }
  }

  /** Filtering a list with a new first row. */
  lemma WherePrepend<T(!new)>(x: T, rows: seq<T>, p: T -> bool)
    ensures Where([x] + rows, p) == (if p(x) then [x] else []) + Where(rows, p)
  {
    assert ([x] + rows)[1..] == rows;
  }

  /** Two filters no row satisfies together select at most all rows between them. */
  lemma {:induction false} DisjointWhereBound<T(!new)>(rows: seq<T>, p: T -> bool, q: T -> bool)
    requires forall x :: !(p(x) && q(x))
    ensures |Where(rows, p)| + |Where(rows, q)| <= |rows|
  {
    if rows != [] {
      DisjointWhereBound(rows[1..], p, q);
    }
  }
}
