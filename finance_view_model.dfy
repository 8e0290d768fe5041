/**
 * The view model: the latest snapshots of the table's queries, the search
 * query, the filtered list derived from both, and the user actions that
 * write through to the table.
 */
module FinanceViewModel {
  import opened Wrappers
  import opened Text
  import opened Entity
  import opened Dao

  // ---------------------------------------------------------------------
  // Search filter
  // ---------------------------------------------------------------------

  /** `a` is `b` with some elements left out, the rest in their order. */
  ghost predicate IsSubsequence<T>(a: seq<T>, b: seq<T>)
    decreases |b|
  {
    || a == []
    || (b != [] && ((a[0] == b[0] && IsSubsequence(a[1..], b[1..])) || IsSubsequence(a, b[1..])))
  }

  lemma {:induction false} SubsequenceIsNoLonger<T>(a: seq<T>, b: seq<T>)
    requires IsSubsequence(a, b)
    ensures |a| <= |b|
    decreases |b|
  {
    if a != [] {
      if a[0] == b[0] && IsSubsequence(a[1..], b[1..]) {
        SubsequenceIsNoLonger(a[1..], b[1..]);
      } else {
        SubsequenceIsNoLonger(a, b[1..]);
      }
    }
  }

  /** The query occurs, ignoring case, in the title, the category or the note. */
  ghost predicate MentionsQuery(t: Transaction, q: string) {
    Occurs(t.title, q) || Occurs(t.category, q) || Occurs(t.note, q)
  }

  /** The filter lambda: an OR of three `contains(query, ignoreCase = true)`. */
  function MatchesQuery(t: Transaction, q: string): (b: bool)
    ensures b <==> MentionsQuery(t, q)
  {
    || ContainsIgnoringCase(t.title, q)
    || ContainsIgnoringCase(t.category, q)
    || ContainsIgnoringCase(t.note, q)
  }

  /**
   * `list.filter { … }`: the transactions that mention the query, each as
   * many times as the list holds it, in the list's order.
   */
  function MatchingTransactions(list: seq<Transaction>, q: string): (r: seq<Transaction>)
    ensures IsSubsequence(r, list)
    ensures forall t :: multiset(r)[t] == if MentionsQuery(t, q) then multiset(list)[t] else 0
  {
    if list == [] then []
    else
      assert list == [list[0]] + list[1..];
      var rest := MatchingTransactions(list[1..], q);
      if MatchesQuery(list[0], q) then
        assert ([list[0]] + rest)[1..] == rest;
        [list[0]] + rest
      else
        rest
  }

  /**
   * `filteredTransactions`: a blank query shows the whole list unchanged;
   * any other query (used untrimmed) keeps exactly the transactions that
   * mention it, in the list's order.
   */
  function FilterTransactions(list: seq<Transaction>, q: string): (r: seq<Transaction>)
    ensures IsBlank(q) ==> r == list
    ensures !IsBlank(q) ==> forall t :: t in r <==> t in list && MentionsQuery(t, q)
    ensures !IsBlank(q) ==>
              forall t :: multiset(r)[t] == if MentionsQuery(t, q) then multiset(list)[t] else 0
    ensures IsSubsequence(r, list) && |r| <= |list|
  {
    if IsBlank(q) then
      assert IsSubsequence(list, list) by { SubsequenceOfItself(list); }
      list
    else
      var r := MatchingTransactions(list, q);
      assert forall t :: t in r <==> multiset(r)[t] > 0;
      SubsequenceIsNoLonger(r, list);
      r
  }

  lemma {:induction false} SubsequenceOfItself<T>(s: seq<T>)
    ensures IsSubsequence(s, s)
  {
    if s != [] {
      SubsequenceOfItself(s[1..]);
    }
  }

  // ---------------------------------------------------------------------
  // Aggregate snapshots and new records
  // ---------------------------------------------------------------------

  /** `value ?: 0.0`: a NULL aggregate is shown as zero, any other unchanged. */
  function OrZero(v: Option<int>): (r: int)
    ensures v.None? ==> r == 0
    ensures v.Some? ==> r == v.value
  {
    v.GetOr(0)
  }

  /**
   * The record `addTransaction` builds: the given fields, `now` as its
   * date, and the unassigned id the store replaces on insert.
   */
  function NewTransaction(title: string, amount: int, category: string, isExpense: bool,
                          now: int, note: string): (t: Transaction)
    ensures t.id == Unassigned && t.date == now
    ensures t.title == title && t.amount == amount && t.category == category
    ensures t.isExpense == isExpense && t.note == note
  {
    Transaction(title := title, amount := amount, category := category,
                isExpense := isExpense, date := now, note := note)
  }

  // ---------------------------------------------------------------------
  // The state holder
  // ---------------------------------------------------------------------

  class ViewModel {
    /** The table behind the repository, which only forwards to it. */
    const repository: TransactionTable

    var transactions: seq<Transaction>
    var totalBalance: int
    var totalIncome: int
    var totalExpenses: int
    var searchQuery: string

    ghost predicate Valid()
      reads this, repository
    {
      repository.Valid()
    }

    /** Every snapshot is the table's current answer. */
    ghost predicate Synced()
      reads this, repository
    {
      && transactions == AllTransactions(repository.rows)
      && totalBalance == OrZero(TotalBalance(repository.rows))
      && totalIncome == OrZero(TotalIncome(repository.rows))
      && totalExpenses == OrZero(TotalExpenses(repository.rows))
    }

    /** The state before any collector has delivered: all empty or zero. */
    constructor (repository: TransactionTable)
      requires repository.Valid()
      ensures Valid() && this.repository == repository
      ensures transactions == [] && searchQuery == ""
      ensures totalBalance == 0 && totalIncome == 0 && totalExpenses == 0
      ensures FilteredTransactions() == []
    {
      this.repository := repository;
      transactions := [];
      totalBalance, totalIncome, totalExpenses := 0, 0, 0;
      searchQuery := "";
    }

    /** `filteredTransactions`, recomputed from the two snapshots it combines. */
    function FilteredTransactions(): (r: seq<Transaction>)
      reads this
      ensures IsBlank(searchQuery) ==> r == transactions
      ensures !IsBlank(searchQuery) ==>
                forall t :: multiset(r)[t]
                            == if MentionsQuery(t, searchQuery) then multiset(transactions)[t] else 0
      ensures IsSubsequence(r, transactions)
    {
      FilterTransactions(transactions, searchQuery)
    }

    /** The collector of `allTransactions`. */
    method OnTransactions(list: seq<Transaction>)
      modifies this`transactions
      ensures transactions == list
    {
      transactions := list;
    }

    /** The collector of `totalBalance`. */
    method OnTotalBalance(balance: Option<int>)
      modifies this`totalBalance
      ensures totalBalance == OrZero(balance)
    {
      totalBalance := OrZero(balance);
    }

    /** The collector of `totalIncome`. */
    method OnTotalIncome(income: Option<int>)
      modifies this`totalIncome
      ensures totalIncome == OrZero(income)
    {
      totalIncome := OrZero(income);
    }

    /** The collector of `totalExpenses`. */
    method OnTotalExpenses(expenses: Option<int>)
      modifies this`totalExpenses
      ensures totalExpenses == OrZero(expenses)
    {
      totalExpenses := OrZero(expenses);
    }

    /**
     * The four collectors delivering the table's current answers. Afterwards
     * the balance shown is the income shown minus the expenses shown.
     */
    method Collect()
      requires Valid()
      modifies this
      ensures Valid() && Synced()
      ensures searchQuery == old(searchQuery)
      ensures totalBalance == totalIncome - totalExpenses
    {
      OnTransactions(AllTransactions(repository.rows));
      OnTotalBalance(TotalBalance(repository.rows));
      OnTotalIncome(TotalIncome(repository.rows));
      OnTotalExpenses(TotalExpenses(repository.rows));
      BalanceIsIncomeMinusExpenses(repository.rows);
    }

    /**
     * `addTransaction`: inserts the record NewTransaction builds, so the
     * table gains one row with a fresh id. `now` stands for the clock.
     */
    method AddTransaction(title: string, amount: int, category: string, isExpense: bool,
                          now: int, note: string := "")
      requires Valid()
      modifies repository
      ensures Valid()
      ensures repository.rows
              == old(repository.rows) + [NewTransaction(title, amount, category, isExpense, now, note)
                                           .(id := old(repository.nextId))]
      ensures forall x :: x in old(repository.rows) ==> x.id != old(repository.nextId)
    {
      repository.InsertTransaction(NewTransaction(title, amount, category, isExpense, now, note));
    }

    /** `updateTransaction`: forwarded to the table. */
    method UpdateTransaction(t: Transaction)
      requires Valid()
      modifies repository
      ensures Valid()
      ensures repository.rows == ReplaceById(old(repository.rows), t)
    {
      repository.UpdateTransaction(t);
    }

    /** `deleteTransaction`: forwarded to the table. */
    method DeleteTransaction(t: Transaction)
      requires Valid()
      modifies repository
      ensures Valid()
      ensures repository.rows == RemoveById(old(repository.rows), t.id)
    {
      repository.DeleteTransaction(t);
    }

    /** `deleteAllTransactions`: forwarded to the table. */
    method DeleteAllTransactions()
      requires Valid()
      modifies repository
      ensures Valid()
      ensures repository.rows == []
    {
      repository.DeleteAllTransactions();
    }

    /** `updateSearchQuery`: sets the query to exactly `q`, nothing else. */
    method UpdateSearchQuery(q: string)
      modifies this`searchQuery
      ensures searchQuery == q
      ensures FilteredTransactions() == FilterTransactions(transactions, q)
    {
      searchQuery := q;
    }

    /** `clearSearch`: an empty query, so the filtered list is the whole list. */
    method ClearSearch()
      modifies this`searchQuery
      ensures searchQuery == ""
      ensures FilteredTransactions() == transactions
    {
      searchQuery := "";
    }
  }
}
