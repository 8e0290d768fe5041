/**
 * The `transactions` table and the nine operations of its data access
 * object: four reading queries, the category query, and insert, update,
 * delete and delete-all. Queries are functions of the rows; the writes are
 * methods of the table, which owns the rows.
 */
module Dao {
  import opened Wrappers
  import opened Entity

  // ---------------------------------------------------------------------
  // Aggregates: SQL SUM, which is NULL when no row qualifies
  // ---------------------------------------------------------------------

  /** The `CASE WHEN isExpense = 1 THEN -amount ELSE amount END` term of one row. */
  function SignedAmount(t: Transaction): int {
    if t.isExpense then -t.amount else t.amount
  }

  /** Sum of the signed terms of all rows. */
  function SignedSum(rows: seq<Transaction>): int {
    if rows == [] then 0 else SignedAmount(rows[0]) + SignedSum(rows[1..])
  }

  /** Sum of the plain amounts of all rows. */
  function AmountSum(rows: seq<Transaction>): int {
    if rows == [] then 0 else rows[0].amount + AmountSum(rows[1..])
  }

  /** `WHERE isExpense = kind`, keeping the table's order. */
  function OfKind(rows: seq<Transaction>, isExpense: bool): (r: seq<Transaction>)
    ensures forall t :: t in r <==> t in rows && t.isExpense == isExpense
    ensures |r| <= |rows|
  {
    if rows == [] then []
    else
      assert rows == [rows[0]] + rows[1..];
      (if rows[0].isExpense == isExpense then [rows[0]] else []) + OfKind(rows[1..], isExpense)
  }

  /**
   * The selection keeps every row of the wanted kind as often as the table
   * holds it, and no other row.
   */
  lemma {:induction false} OfKindMultiplicity(rows: seq<Transaction>, isExpense: bool)
    ensures forall t :: multiset(OfKind(rows, isExpense))[t]
                          == if t.isExpense == isExpense then multiset(rows)[t] else 0
  {
    if rows != [] {
      OfKindMultiplicity(rows[1..], isExpense);
      assert rows == [rows[0]] + rows[1..];
      var head := if rows[0].isExpense == isExpense then [rows[0]] else [];
      assert OfKind(rows, isExpense) == head + OfKind(rows[1..], isExpense);
      assert multiset(rows) == multiset([rows[0]]) + multiset(rows[1..]);
    }
  }

  /** `SELECT SUM(CASE …) FROM transactions`: the net balance, NULL on an empty table. */
  function TotalBalance(rows: seq<Transaction>): (r: Option<int>)
    ensures r.None? <==> rows == []
  {
    if rows == [] then None else Some(SignedSum(rows))
  }

  /** SQL `SUM(amount)` over the selected rows: NULL when none is selected. */
  function SumOrNull(selected: seq<Transaction>): (r: Option<int>)
    ensures r.None? <==> selected == []
  {
    if selected == [] then None else Some(AmountSum(selected))
  }

  /** `SELECT SUM(amount) FROM transactions WHERE isExpense = 0`. */
  function TotalIncome(rows: seq<Transaction>): (r: Option<int>)
    ensures r.None? <==> forall t :: t in rows ==> t.isExpense
  {
    var income := OfKind(rows, false);
    assert income != [] ==> income[0] in income;
    assert forall t :: t in rows && t.isExpense == false ==> t in income;
    SumOrNull(income)
  }

  /** `SELECT SUM(amount) FROM transactions WHERE isExpense = 1`. */
  function TotalExpenses(rows: seq<Transaction>): (r: Option<int>)
    ensures r.None? <==> forall t :: t in rows ==> !t.isExpense
  {
    var expenses := OfKind(rows, true);
    assert expenses != [] ==> expenses[0] in expenses;
    assert forall t :: t in rows && t.isExpense == true ==> t in expenses;
    SumOrNull(expenses)
  }

  lemma {:induction false} SignedSumSplits(rows: seq<Transaction>)
    ensures SignedSum(rows) == AmountSum(OfKind(rows, false)) - AmountSum(OfKind(rows, true))
  {
    if rows != [] {
      SignedSumSplits(rows[1..]);
      var t := rows[0];
      if t.isExpense {
        assert OfKind(rows, true) == [t] + OfKind(rows[1..], true);
        assert OfKind(rows, false) == OfKind(rows[1..], false);
      } else {
        assert OfKind(rows, false) == [t] + OfKind(rows[1..], false);
        assert OfKind(rows, true) == OfKind(rows[1..], true);
      }
    }
  }

  /**
   * With NULL read as zero, the balance is the income minus the expenses
   * (income 50000 and expenses 10000 give a balance of 40000).
   */
  lemma BalanceIsIncomeMinusExpenses(rows: seq<Transaction>)
    ensures TotalBalance(rows).GetOr(0) == TotalIncome(rows).GetOr(0) - TotalExpenses(rows).GetOr(0)
  {
    SignedSumSplits(rows);
  }

  lemma {:induction false} SignedSumAppend(a: seq<Transaction>, b: seq<Transaction>)
    ensures SignedSum(a + b) == SignedSum(a) + SignedSum(b)
  {
    if a == [] {
      assert a + b == b;
    } else {
      assert (a + b)[0] == a[0] && (a + b)[1..] == a[1..] + b;
      SignedSumAppend(a[1..], b);
    }
  }

  /** Appending a row moves the balance by exactly that row's signed amount. */
  lemma InsertMovesBalance(rows: seq<Transaction>, t: Transaction)
    ensures TotalBalance(rows + [t]) == Some(TotalBalance(rows).GetOr(0) + SignedAmount(t))
  {
    SignedSumAppend(rows, [t]);
    assert SignedSum([t]) == SignedAmount(t) + SignedSum([]);
  }

  lemma {:induction false} OfKindAppend(a: seq<Transaction>, b: seq<Transaction>, isExpense: bool)
    ensures OfKind(a + b, isExpense) == OfKind(a, isExpense) + OfKind(b, isExpense)
  {
    if a == [] {
      assert a + b == b;
    } else {
      var head := if a[0].isExpense == isExpense then [a[0]] else [];
      assert (a + b)[0] == a[0] && (a + b)[1..] == a[1..] + b;
      calc {
        OfKind(a + b, isExpense);
        head + OfKind(a[1..] + b, isExpense);
        { OfKindAppend(a[1..], b, isExpense); }
        head + (OfKind(a[1..], isExpense) + OfKind(b, isExpense));
        (head + OfKind(a[1..], isExpense)) + OfKind(b, isExpense);
        OfKind(a, isExpense) + OfKind(b, isExpense);
      }
    }
  }

  lemma {:induction false} AmountSumAppend(a: seq<Transaction>, b: seq<Transaction>)
    ensures AmountSum(a + b) == AmountSum(a) + AmountSum(b)
  {
    if a == [] {
      assert a + b == b;
    } else {
      assert (a + b)[0] == a[0] && (a + b)[1..] == a[1..] + b;
      AmountSumAppend(a[1..], b);
    }
  }

  /** Selecting one kind after appending `t` appends `t` when it is of that kind. */
  lemma AppendedKind(rows: seq<Transaction>, t: Transaction, isExpense: bool)
    ensures t.isExpense == isExpense ==> OfKind(rows + [t], isExpense) == OfKind(rows, isExpense) + [t]
    ensures t.isExpense != isExpense ==> OfKind(rows + [t], isExpense) == OfKind(rows, isExpense)
  {
    OfKindAppend(rows, [t], isExpense);
    assert [t][1..] == [];
    assert OfKind(rows, isExpense) + [] == OfKind(rows, isExpense);
  }

  /** Adding one selected row moves the sum by its amount and makes it non-NULL. */
  lemma SumOrNullAppend(selected: seq<Transaction>, t: Transaction)
    ensures SumOrNull(selected + [t]) == Some(SumOrNull(selected).GetOr(0) + t.amount)
  {
    AmountSumAppend(selected, [t]);
    assert AmountSum([t]) == t.amount + AmountSum([]);
  }

  /**
   * Appending an income row moves the income by exactly its amount (and
   * makes it non-NULL); an expense row leaves the income as it was.
   */
  lemma InsertMovesIncome(rows: seq<Transaction>, t: Transaction)
    ensures !t.isExpense ==> TotalIncome(rows + [t]) == Some(TotalIncome(rows).GetOr(0) + t.amount)
    ensures t.isExpense ==> TotalIncome(rows + [t]) == TotalIncome(rows)
  {
    var before := OfKind(rows, false);
    AppendedKind(rows, t, false);
    assert TotalIncome(rows) == SumOrNull(before);
    if !t.isExpense {
      assert TotalIncome(rows + [t]) == SumOrNull(before + [t]);
      SumOrNullAppend(before, t);
    }
  }

  /**
   * Appending an expense row moves the expenses by exactly its amount (and
   * makes them non-NULL); an income row leaves the expenses as they were.
   */
  lemma InsertMovesExpenses(rows: seq<Transaction>, t: Transaction)
    ensures t.isExpense ==> TotalExpenses(rows + [t]) == Some(TotalExpenses(rows).GetOr(0) + t.amount)
    ensures !t.isExpense ==> TotalExpenses(rows + [t]) == TotalExpenses(rows)
  {
    var before := OfKind(rows, true);
    AppendedKind(rows, t, true);
    assert TotalExpenses(rows) == SumOrNull(before);
    if t.isExpense {
      assert TotalExpenses(rows + [t]) == SumOrNull(before + [t]);
      SumOrNullAppend(before, t);
    }
  }

  // ---------------------------------------------------------------------
  // Listings: ORDER BY date DESC
  // ---------------------------------------------------------------------

  /** Dates never increase along the sequence. */
  ghost predicate NewestFirst(s: seq<Transaction>) {
    forall i, j :: 0 <= i < j < |s| ==> s[i].date >= s[j].date
  }

  /** Places `t` before the first row that is not newer than it. */
  function InsertByDate(t: Transaction, s: seq<Transaction>): (r: seq<Transaction>)
    ensures multiset(r) == multiset(s) + multiset{t}
  {
    if s == [] || t.date >= s[0].date then
      [t] + s
    else
      assert s == [s[0]] + s[1..];
      [s[0]] + InsertByDate(t, s[1..])
  }

  /** No row of a listing that is newest first is newer than its head. */
  lemma HeadIsNewest(s: seq<Transaction>)
    requires NewestFirst(s) && s != []
    ensures forall x :: x in s ==> x.date <= s[0].date
  {
    forall x | x in s ensures x.date <= s[0].date {
      var k :| 0 <= k < |s| && s[k] == x;
      if k > 0 {
        assert s[0].date >= s[k].date;
      }
    }
  }

  /** A row no older than every row of a newest-first listing may head it. */
  lemma ConsNewestFirst(x: Transaction, s: seq<Transaction>)
    requires NewestFirst(s)
    requires forall y :: y in s ==> y.date <= x.date
    ensures NewestFirst([x] + s)
  {
    var r := [x] + s;
    forall i, j | 0 <= i < j < |r| ensures r[i].date >= r[j].date {
      assert r[j] == s[j - 1];
      if i > 0 {
        assert r[i] == s[i - 1];
      } else {
        assert s[j - 1] in s;
      }
    }
  }

  /** Inserting into a listing that is newest first keeps it newest first. */
  lemma {:induction false} InsertByDateKeepsOrder(t: Transaction, s: seq<Transaction>)
    requires NewestFirst(s)
    ensures NewestFirst(InsertByDate(t, s))
  {
    if s == [] {
      ConsNewestFirst(t, s);
    } else if t.date >= s[0].date {
      HeadIsNewest(s);
      ConsNewestFirst(t, s);
    } else {
      HeadIsNewest(s);
      var tail := s[1..];
      assert forall y :: y in tail ==> y in s;
      assert NewestFirst(tail);
      var rest := InsertByDate(t, tail);
      InsertByDateKeepsOrder(t, tail);
      forall y | y in rest ensures y.date <= s[0].date {
        assert y in multiset(rest);
      }
      ConsNewestFirst(s[0], rest);
    }
  }

  /**
   * `SELECT * FROM transactions ORDER BY date DESC`: exactly the rows, as
   * many times each as the table holds it, newest first. SQL leaves the
   * order of rows with equal dates open; this model keeps table order.
   */
  function AllTransactions(rows: seq<Transaction>): (r: seq<Transaction>)
    ensures NewestFirst(r)
    ensures multiset(r) == multiset(rows)
  {
    if rows == [] then []
    else
      assert rows == [rows[0]] + rows[1..];
      var rest := AllTransactions(rows[1..]);
      InsertByDateKeepsOrder(rows[0], rest);
      InsertByDate(rows[0], rest)
  }

  /** `WHERE category = c` (exact, case-sensitive), keeping the table's order. */
  function InCategory(rows: seq<Transaction>, c: string): (r: seq<Transaction>)
    ensures forall t :: t in r <==> t in rows && t.category == c
    ensures forall t :: multiset(r)[t] == if t.category == c then multiset(rows)[t] else 0
  {
    if rows == [] then []
    else
      assert rows == [rows[0]] + rows[1..];
      (if rows[0].category == c then [rows[0]] else []) + InCategory(rows[1..], c)
  }

  /** `SELECT * FROM transactions WHERE category = :category ORDER BY date DESC`. */
  function TransactionsByCategory(rows: seq<Transaction>, c: string): (r: seq<Transaction>)
    ensures NewestFirst(r)
    ensures forall t :: t in r <==> t in rows && t.category == c
    ensures forall t :: multiset(r)[t] == if t.category == c then multiset(rows)[t] else 0
  {
    AllTransactions(InCategory(rows, c))
  }

  // ---------------------------------------------------------------------
  // Writes by primary key
  // ---------------------------------------------------------------------

  /** `id` is a primary key: no two rows share one. */
  ghost predicate UniqueIds(rows: seq<Transaction>) {
    forall i, j :: 0 <= i < j < |rows| ==> rows[i].id != rows[j].id
  }

  /**
   * `@Update`: every column of the row whose id is `t.id` is overwritten by
   * `t`; no other row changes, and when no row has that id nothing does.
   */
  function ReplaceById(rows: seq<Transaction>, t: Transaction): (r: seq<Transaction>)
    ensures |r| == |rows|
    ensures forall i :: 0 <= i < |rows| ==> r[i] == if rows[i].id == t.id then t else rows[i]
    ensures (forall x :: x in rows ==> x.id != t.id) ==> r == rows
  {
    if rows == [] then []
    else [if rows[0].id == t.id then t else rows[0]] + ReplaceById(rows[1..], t)
  }

  /**
   * `@Delete`: removes the row whose primary key is `id` (the other fields
   * of the passed record play no part); when no row has that id nothing
   * changes.
   */
  function RemoveById(rows: seq<Transaction>, id: int): (r: seq<Transaction>)
    ensures forall x :: multiset(r)[x] == if x.id == id then 0 else multiset(rows)[x]
    ensures forall x :: x in r <==> x in rows && x.id != id
    ensures (forall x :: x in rows ==> x.id != id) ==> r == rows
  {
    if rows == [] then []
    else
      assert rows == [rows[0]] + rows[1..];
      (if rows[0].id == id then [] else [rows[0]]) + RemoveById(rows[1..], id)
  }

  /** Rows that keep their ids position by position keep the primary key unique. */
  lemma SameIdsKeepIdsUnique(rows: seq<Transaction>, r: seq<Transaction>)
    requires UniqueIds(rows) && |r| == |rows|
    requires forall i :: 0 <= i < |rows| ==> r[i].id == rows[i].id
    ensures UniqueIds(r)
  {
  }

  /** Prepending a row whose id no other row has keeps the primary key unique. */
  lemma ConsKeepsIdsUnique(x: Transaction, s: seq<Transaction>)
    requires UniqueIds(s)
    requires forall y :: y in s ==> y.id != x.id
    ensures UniqueIds([x] + s)
  {
    var r := [x] + s;
    forall i, j | 0 <= i < j < |r| ensures r[i].id != r[j].id {
      assert r[j] == s[j - 1];
      if i > 0 {
        assert r[i] == s[i - 1];
      }
    }
  }

  lemma TailKeepsIdsUnique(rows: seq<Transaction>)
    requires rows != [] && UniqueIds(rows)
    ensures UniqueIds(rows[1..])
    ensures forall y :: y in rows[1..] ==> y.id != rows[0].id
  {
    forall y | y in rows[1..] ensures y.id != rows[0].id {
      var k :| 0 <= k < |rows[1..]| && rows[1..][k] == y;
      assert rows[k + 1] == y;
    }
  }

  /** Removing rows keeps the primary key unique. */
  lemma {:induction false} RemoveKeepsIdsUnique(rows: seq<Transaction>, id: int)
    requires UniqueIds(rows)
    ensures UniqueIds(RemoveById(rows, id))
  {
    if rows != [] {
      TailKeepsIdsUnique(rows);
      RemoveKeepsIdsUnique(rows[1..], id);
      var rest := RemoveById(rows[1..], id);
      if rows[0].id != id {
        assert forall y :: y in rest ==> y in rows[1..];
        ConsKeepsIdsUnique(rows[0], rest);
      }
    }
  }

  /** The table, with SQLite's AUTOINCREMENT counter for the next id. */
  class TransactionTable {
    var rows: seq<Transaction>
    /** One more than the largest id ever handed out; deleting rows never lowers it. */
    var nextId: int

    ghost predicate Valid()
      reads this
    {
      && UniqueIds(rows)
      && 1 <= nextId
      && forall t :: t in rows ==> 1 <= t.id < nextId
    }

    constructor ()
      ensures Valid()
      ensures rows == [] && nextId == 1
    {
      rows := [];
      nextId := 1;
    }

    /**
     * `@Insert` of a record whose id is still unassigned: one row is added,
     * carrying a fresh id that no live row has; every other row stays.
     */
    method InsertTransaction(t: Transaction)
      requires Valid()
      requires t.id == Unassigned
      modifies this
      ensures Valid()
      ensures rows == old(rows) + [t.(id := old(nextId))]
      ensures forall x :: x in old(rows) ==> x.id != old(nextId)
      ensures nextId == old(nextId) + 1
    {
      rows := rows + [t.(id := nextId)];
      nextId := nextId + 1;
    }

    /** `@Update`: see ReplaceById; a missing id is a silent no-op. */
    method UpdateTransaction(t: Transaction)
      requires Valid()
      modifies this
      ensures Valid()
      ensures rows == ReplaceById(old(rows), t)
      ensures nextId == old(nextId)
    {
      SameIdsKeepIdsUnique(rows, ReplaceById(rows, t));
      rows := ReplaceById(rows, t);
    }

    /** `@Delete`: see RemoveById; a missing id is a silent no-op. */
    method DeleteTransaction(t: Transaction)
      requires Valid()
      modifies this
      ensures Valid()
      ensures rows == RemoveById(old(rows), t.id)
      ensures nextId == old(nextId)
    {
      RemoveKeepsIdsUnique(rows, t.id);
      rows := RemoveById(rows, t.id);
    }

    /** `DELETE FROM transactions`: the listing is empty and every aggregate is NULL. */
    method DeleteAllTransactions()
      requires Valid()
      modifies this
      ensures Valid()
      ensures rows == [] && nextId == old(nextId)
      ensures AllTransactions(rows) == []
      ensures TotalBalance(rows) == None && TotalIncome(rows) == None && TotalExpenses(rows) == None
    {
      rows := [];
    }
  }
}
