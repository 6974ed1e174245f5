/** `orderBy: { date: "desc" }`: rows listed newest first. */
module Ordering {
  import opened Calendar
  import opened Records

  /** No row is dated before a row listed after it. */
  predicate NewestFirst(rows: seq<Txn>) {
    forall i, j :: 0 <= i < j < |rows| ==> AtOrBefore(rows[j].date, rows[i].date)
  }

  /** Insert `t` into a newest-first list. */
  function Insert(t: Txn, rows: seq<Txn>): (r: seq<Txn>)
    requires NewestFirst(rows)
    ensures NewestFirst(r)
    ensures multiset(r) == multiset(rows) + multiset{t}
    ensures |r| == |rows| + 1
  {
    if rows == [] then [t]
    else if AtOrBefore(rows[0].date, t.date) then [t] + rows
    else
      OrderIsTotal(rows[0].date, t.date);
      var rest := Insert(t, rows[1..]);
      assert rows == [rows[0]] + rows[1..];
      assert forall x :: x in rest ==> AtOrBefore(x.date, rows[0].date) by {
        forall x | x in rest ensures AtOrBefore(x.date, rows[0].date) {
          assert x in multiset(rest);
          if x != t {
            assert x in multiset(rows[1..]);
            var j :| 0 <= j < |rows[1..]| && rows[1..][j] == x;
            assert rows[j + 1] == x;
          }
        }
      }
      [rows[0]] + rest
  }

  /** The rows sorted newest first. */
  function SortNewestFirst(rows: seq<Txn>): (r: seq<Txn>)
    ensures NewestFirst(r)
    ensures multiset(r) == multiset(rows)
    ensures |r| == |rows|
  {
    if rows == [] then []
    else
      assert rows == rows[..|rows| - 1] + [rows[|rows| - 1]];
      Insert(rows[|rows| - 1], SortNewestFirst(rows[..|rows| - 1]))
  }

  /** Sorting keeps exactly the rows it was given. */
  lemma SortKeepsRows(rows: seq<Txn>, t: Txn)
    ensures t in SortNewestFirst(rows) <==> t in rows
  {
    var r := SortNewestFirst(rows);
    assert t in r <==> t in multiset(r);
    assert t in rows <==> t in multiset(rows);
  }
}
