/**
 * `getMonthlyStats` (lib/ingest/function.js): the reduce over a user's rows
 * of one month into totals of expenses and income, expenses per category and
 * the number of rows.
 */
module MonthlyStats {
  import opened Calendar
  import opened Records
  import opened Sums

  datatype Stats = Stats(totalExpenses: int, totalIncome: int, byCategory: map<string, int>, transactionCount: nat)

  /** `stats.byCategory[c] || 0`. */
  function CategoryTotal(m: map<string, int>, c: string): int {
    if c in m then m[c] else 0
  }

  /** The reducer: EXPENSE rows add to the expenses and their category, any other row to the income. */
  function Step(s: Stats, t: Txn): Stats {
    if t.kind == Expense then
      s.(totalExpenses := s.totalExpenses + t.amount,
         byCategory := s.byCategory[t.category := CategoryTotal(s.byCategory, t.category) + t.amount])
    else
      s.(totalIncome := s.totalIncome + t.amount)
  }

  /** `rows.reduce(Step, init)`. */
  function Fold(init: Stats, rows: seq<Txn>): Stats {
    if rows == [] then init else Step(Fold(init, rows[..|rows| - 1]), rows[|rows| - 1])
  }

  /** The accumulator starts at zero with `transactionCount: transactions.length`. */
  function Initial(rows: seq<Txn>): Stats {
    Stats(0, 0, map[], |rows|)
  }

  function StatsOf(rows: seq<Txn>): Stats {
    Fold(Initial(rows), rows)
  }

  /** The `where` of `getMonthlyStats`: the user's rows from the 1st of the month of `month` to its last day at midnight. */
  function InStatsWindow(u: UserId, month: Instant): Txn -> bool {
    (t: Txn) => t.userId == u && InMonthWindow(t.date, month)
  }

  /** The reduce, with the accumulator's fields updated row by row. */
  method FoldMonthlyStats(rows: seq<Txn>) returns (stats: Stats)
    ensures stats == StatsOf(rows)
  {
    stats := Stats(0, 0, map[], |rows|);
    var i := 0;
    while i < |rows|
      invariant 0 <= i <= |rows|
      invariant stats == Fold(Initial(rows), rows[..i])
    {
      var t := rows[i];
      if t.kind == Expense {
        stats := stats.(totalExpenses := stats.totalExpenses + t.amount);
        var before := if t.category in stats.byCategory then stats.byCategory[t.category] else 0;
        stats := stats.(byCategory := stats.byCategory[t.category := before + t.amount]);
      } else {
        stats := stats.(totalIncome := stats.totalIncome + t.amount);
      }
      assert rows[..i + 1][..i] == rows[..i];
      i := i + 1;
    }
    assert rows[..i] == rows;
  }

  function Id(x: int): int {
    x
  }

  function ExpenseAmount(t: Txn): int {
    if t.kind == Expense then t.amount else 0
  }

  function IncomeAmount(t: Txn): int {
    if t.kind == Expense then 0 else t.amount
  }

  /** The amount of `t` when it is an expense in category `c`. */
  function ExpenseIn(c: string): Txn -> int {
    (t: Txn) => if t.kind == Expense && t.category == c then t.amount else 0
  }

  /** The totals are the sums of the expense and of the income amounts; the count is never touched. */
  lemma {:induction false} FoldTotals(init: Stats, rows: seq<Txn>)
    ensures Fold(init, rows).totalExpenses == init.totalExpenses + SumSeq(rows, ExpenseAmount)
    ensures Fold(init, rows).totalIncome == init.totalIncome + SumSeq(rows, IncomeAmount)
    ensures Fold(init, rows).transactionCount == init.transactionCount
  {
    if rows != [] {
      FoldTotals(init, rows[..|rows| - 1]);
    }
  }

  /** Each category's total is the sum of the expense amounts in it. */
  lemma {:induction false} FoldCategory(init: Stats, rows: seq<Txn>, c: string)
    ensures CategoryTotal(Fold(init, rows).byCategory, c) == CategoryTotal(init.byCategory, c) + SumSeq(rows, ExpenseIn(c))
  {
    if rows != [] {
      FoldCategory(init, rows[..|rows| - 1], c);
    }
  }

  /** A category appears exactly when some expense row has it. */
  lemma {:induction false} FoldCategoryKeys(init: Stats, rows: seq<Txn>, c: string)
    ensures c in Fold(init, rows).byCategory <==>
            c in init.byCategory || exists i :: 0 <= i < |rows| && rows[i].kind == Expense && rows[i].category == c
  {
    if rows != [] {
      var n := |rows| - 1;
      FoldCategoryKeys(init, rows[..n], c);
      assert forall i :: 0 <= i < n ==> rows[..n][i] == rows[i];
    }
  }

  /** One row adds to the expenses what it adds to the categories. */
  lemma StepKeepsCategorySum(s: Stats, t: Txn)
    ensures Step(s, t).totalExpenses - SumMap(Step(s, t).byCategory, Id)
         == s.totalExpenses - SumMap(s.byCategory, Id)
  {
    if t.kind == Expense {
      var m := s.byCategory;
      if t.category in m {
        SumMapUpdate(m, Id, t.category, m[t.category] + t.amount);
      } else {
        SumMapInsert(m, Id, t.category, t.amount);
      }
    }
  }

  /** What the reduce adds to the expenses it adds to the categories. */
  lemma {:induction false} FoldKeepsCategorySum(init: Stats, rows: seq<Txn>)
    ensures Fold(init, rows).totalExpenses - SumMap(Fold(init, rows).byCategory, Id)
         == init.totalExpenses - SumMap(init.byCategory, Id)
  {
    if rows != [] {
      var n := |rows| - 1;
      FoldKeepsCategorySum(init, rows[..n]);
      StepKeepsCategorySum(Fold(init, rows[..n]), rows[n]);
    }
  }

  /** `totalExpenses` is the sum of the `byCategory` values. */
  lemma ExpensesAreSumOfCategories(rows: seq<Txn>)
    ensures StatsOf(rows).totalExpenses == SumMap(StatsOf(rows).byCategory, Id)
  {
    var none: map<string, int> := map[];
    SumMapEmpty(none, Id);
    FoldKeepsCategorySum(Initial(rows), rows);
  }

  lemma {:induction false} SumSeqByKind(rows: seq<Txn>)
    ensures SumSeq(rows, IncomeAmount) + SumSeq(rows, ExpenseAmount) == SumSeq(rows, Amount)
  {
    if rows != [] {
      SumSeqByKind(rows[..|rows| - 1]);
    }
  }

  /** The three promises of the reduce, for the rows of a window. */
  lemma StatsOfRows(rows: seq<Txn>)
    ensures StatsOf(rows).totalIncome + StatsOf(rows).totalExpenses == SumSeq(rows, Amount)
    ensures StatsOf(rows).totalExpenses == SumMap(StatsOf(rows).byCategory, Id)
    ensures StatsOf(rows).transactionCount == |rows|
    ensures forall c :: CategoryTotal(StatsOf(rows).byCategory, c) == SumSeq(rows, ExpenseIn(c))
  {
    FoldTotals(Initial(rows), rows);
    SumSeqByKind(rows);
    ExpensesAreSumOfCategories(rows);
    forall c ensures CategoryTotal(StatsOf(rows).byCategory, c) == SumSeq(rows, ExpenseIn(c)) {
      FoldCategory(Initial(rows), rows, c);
    }
  }
}
