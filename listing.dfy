/** What a filtered, ordered `select` returns, stated as a specification rather
    than reimplemented: the answer holds exactly the table's rows that pass the
    filter, each as often as in the table, in an order consistent with the
    `order` clauses. A reference sort shows that such an answer always exists. */
module Listing {

  /** `le(a, b)`: `a` may come before `b` under the query's `order` clauses. */
  ghost predicate TotalPreorder<T(!new)>(le: (T, T) -> bool)
  {
    (forall a, b :: le(a, b) || le(b, a)) &&
    (forall a, b, c :: le(a, b) && le(b, c) ==> le(a, c))
  }

  predicate SortedBy<T>(s: seq<T>, le: (T, T) -> bool)
  {
    forall i, j :: 0 <= i < j < |s| ==> le(s[i], s[j])
  }

  /** The rows of `table` that pass `keep`, in table order (the `eq`/`in` filters). */
  function Filter<T>(table: seq<T>, keep: T -> bool): (rows: seq<T>)
    ensures multiset(rows) <= multiset(table)
    ensures forall x :: x in rows ==> keep(x)
    ensures forall x :: x in table && keep(x) ==> multiset(rows)[x] == multiset(table)[x]
  {
    if table == [] then []
    else
      assert table == [table[0]] + table[1..];
      var rest := Filter(table[1..], keep);
      if keep(table[0]) then [table[0]] + rest else rest
  }

  /** A correct answer to the query. */
  ghost predicate IsListing<T>(table: seq<T>, keep: T -> bool, le: (T, T) -> bool, rows: seq<T>)
  {
    multiset(rows) == multiset(Filter(table, keep)) && SortedBy(rows, le)
  }

  /** Every row of a correct answer comes from the table and passes the filter, and every
      table row that passes the filter is in the answer. */
  lemma ListingMembers<T>(table: seq<T>, keep: T -> bool, le: (T, T) -> bool, rows: seq<T>)
    requires IsListing(table, keep, le, rows)
    ensures forall x :: x in rows ==> x in table && keep(x)
    ensures forall x :: x in table && keep(x) ==> x in rows
  {
    var filtered := Filter(table, keep);
    forall x | x in rows
      ensures x in table && keep(x)
    {
      assert x in multiset(rows);
      assert x in multiset(filtered);
    }
    forall x | x in table && keep(x)
      ensures x in rows
    {
      assert x in multiset(table);
      assert x in multiset(rows);
    }
  }

  /** `x` placed before the first element of `s` that it must not precede. */
  function Insert<T>(x: T, s: seq<T>, le: (T, T) -> bool): (r: seq<T>)
    ensures multiset(r) == multiset(s) + multiset{x}
  {
    if s == [] || le(x, s[0]) then [x] + s
    else
      assert s == [s[0]] + s[1..];
      [s[0]] + Insert(x, s[1..], le)
  }

  lemma {:induction false} InsertSorted<T(!new)>(x: T, s: seq<T>, le: (T, T) -> bool)
    requires TotalPreorder(le) && SortedBy(s, le)
    ensures SortedBy(Insert(x, s, le), le)
  {
    if s != [] && !le(x, s[0]) {
      InsertSorted(x, s[1..], le);
      var r := Insert(x, s, le);
      var tail := Insert(x, s[1..], le);
      assert r == [s[0]] + tail;
      forall y | y in tail
        ensures le(s[0], y)
      {
        assert y in multiset(tail);
        if y != x {
          assert y in multiset(s[1..]);
          var k :| 0 <= k < |s[1..]| && s[1..][k] == y;
          assert s[k + 1] == y;
        }
      }
      forall i, j | 0 <= i < j < |r|
        ensures le(r[i], r[j])
      {
        if i == 0 {
          assert r[j] == tail[j - 1];
          assert r[j] in tail;
        } else {
          assert r[i] == tail[i - 1] && r[j] == tail[j - 1];
        }
      }
    }
  }

  /** Insertion sort: a reference ordering of the rows. */
  function Sort<T>(s: seq<T>, le: (T, T) -> bool): (r: seq<T>)
    ensures multiset(r) == multiset(s)
  {
    if s == [] then []
    else
      assert s == [s[0]] + s[1..];
      Insert(s[0], Sort(s[1..], le), le)
  }

  lemma {:induction false} SortSorted<T(!new)>(s: seq<T>, le: (T, T) -> bool)
    requires TotalPreorder(le)
    ensures SortedBy(Sort(s, le), le)
  {
    if s != [] {
      SortSorted(s[1..], le);
      InsertSorted(s[0], Sort(s[1..], le), le);
    }
  }

  /** Whatever the table, the query has a correct answer. */
  lemma ListingExists<T(!new)>(table: seq<T>, keep: T -> bool, le: (T, T) -> bool)
    requires TotalPreorder(le)
    ensures IsListing(table, keep, le, Sort(Filter(table, keep), le))
  {
    SortSorted(Filter(table, keep), le);
  }
}
