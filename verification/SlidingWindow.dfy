/** Counting the rows of a subject in a time window, as the `count(*)` queries of the rate limiter do. */
module SlidingWindow {
  datatype Row<S> = Row(subject: S, at: int)

  function Counted<S(==)>(rows: seq<Row<S>>, n: nat, subject: S, since: int): set<nat>
    requires n <= |rows|
  {
    set k: nat | k < n && rows[k].subject == subject && rows[k].at > since
  }

  /** `count(*) .. WHERE subject = $1 AND occurred_at > $2` over the first `n` rows. */
  function Count<S(==)>(rows: seq<Row<S>>, n: nat, subject: S, since: int): nat
    requires n <= |rows|
  {
    |Counted(rows, n, subject, since)|
  }

  lemma {:induction false} CountStable<S>(rows: seq<Row<S>>, more: seq<Row<S>>, n: nat, subject: S, since: int)
    requires n <= |rows|
    ensures Counted(rows + more, n, subject, since) == Counted(rows, n, subject, since)
  {
  }

  lemma {:induction false} SubsetSize<T>(a: set<T>, b: set<T>)
    requires a <= b
    ensures |a| <= |b|
  {
    if a != {} {
      var x :| x in a;
      SubsetSize(a - {x}, b - {x});
    }
  }

  function Range(a: nat, b: nat): (r: set<nat>)
    requires a <= b
    ensures |r| == b - a && forall x :: x in r <==> a <= x < b
    decreases b - a
  {
    if a == b then {} else Range(a + 1, b) + {a}
  }

  lemma {:induction false} SubsetOfSize<T>(a: set<T>, n: nat) returns (b: set<T>)
    requires n <= |a|
    ensures b <= a && |b| == n
  {
    if n == |a| {
      b := a;
    } else {
      var x :| x in a;
      b := SubsetOfSize(a - {x}, n);
    }
  }

  /** These rows are all the subject's, and strictly after `since`. */
  predicate AreRecent<S(==)>(rows: seq<Row<S>>, n: nat, subject: S, since: int, some: set<nat>)
    requires n <= |rows|
  {
    forall k | k in some :: k < n && rows[k].subject == subject && since < rows[k].at
  }

  /**
   A limit is reached exactly when that many rows of the subject lie strictly after
   the window's beginning: older rows and other subjects play no part.
   */
  lemma {:induction false} LimitReached<S>(rows: seq<Row<S>>, n: nat, subject: S, since: int, limit: nat)
    requires n <= |rows|
    ensures Count(rows, n, subject, since) >= limit <==> exists some :: AreRecent(rows, n, subject, since, some) && |some| == limit
  {
    var all := Counted(rows, n, subject, since);
    if |all| >= limit {
      var some := SubsetOfSize(all, limit);
      assert AreRecent(rows, n, subject, since, some);
    }
    if some :| AreRecent(rows, n, subject, since, some) && |some| == limit {
      SubsetSize(some, all);
    }
  }
}
