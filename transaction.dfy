/** The one persisted entity: a row of the `transactions` table. */
module Entity {

  /** The id of a record the store has not numbered yet; `autoGenerate` replaces it on insert. */
  const Unassigned: int := 0

  /**
   * An income or expense record. It is an immutable value: two records are
   * equal exactly when all seven fields are. `amount` is in cents (the
   * entry form admits at most two decimals); `date` is epoch milliseconds;
   * `isExpense` is true for money out and false for money in.
   */
  datatype Transaction = Transaction(
    id: int := 0,
    title: string,
    amount: int,
    category: string,
    isExpense: bool := true,
    date: int,
    note: string := "")

  /** A record built from its required fields only takes the declared defaults. */
  lemma DefaultsOfTransaction(title: string, amount: int, category: string, date: int)
    ensures var t := Transaction(title := title, amount := amount, category := category, date := date);
            t.id == Unassigned && t.isExpense && t.note == ""
  {
  }
}
