/**
 * How the main screen hands a saved form to the view model: a new record
 * when adding, a copy of the selected record when editing.
 */
module MainFinanceScreen {
  import opened Entity
  import opened Dao
  import opened AddTransactionDialog
  import opened FinanceViewModel

  /**
   * `selectedTransaction.copy(title, amount, category, isExpense, note)`:
   * the form's five fields replace the record's, its id and date stay.
   */
  function EditedTransaction(original: Transaction, request: SaveRequest): (t: Transaction)
    ensures t.id == original.id && t.date == original.date
    ensures t.title == request.title && t.amount == request.amount
    ensures t.category == request.category && t.isExpense == request.isExpense
    ensures t.note == request.note
  {
    original.(title := request.title, amount := request.amount, category := request.category,
              isExpense := request.isExpense, note := request.note)
  }

  /**
   * In a table with unique ids, saving an edit of one of its rows changes
   * that row, and that row only, into the edited record.
   */
  lemma EditChangesOnlyThatRow(rows: seq<Transaction>, original: Transaction, request: SaveRequest)
    requires UniqueIds(rows) && original in rows
    ensures var r := ReplaceById(rows, EditedTransaction(original, request));
            && |r| == |rows| && UniqueIds(r)
            && forall i :: 0 <= i < |rows| ==>
                 r[i] == if rows[i] == original then EditedTransaction(original, request) else rows[i]
  {
    var edited := EditedTransaction(original, request);
    var r := ReplaceById(rows, edited);
    var k :| 0 <= k < |rows| && rows[k] == original;
    assert forall i :: 0 <= i < |rows| ==> (rows[i].id == original.id <==> rows[i] == original) by {
      forall i | 0 <= i < |rows| && rows[i].id == original.id ensures rows[i] == original {
        assert i == k;
      }
    }
    SameIdsKeepIdsUnique(rows, r);
  }

  /** The add dialog's `onSave`: `addTransaction` with the saved fields. */
  method SaveAdded(vm: ViewModel, request: SaveRequest, now: int)
    requires vm.Valid()
    modifies vm.repository
    ensures vm.Valid()
    ensures vm.repository.rows
            == old(vm.repository.rows)
               + [NewTransaction(request.title, request.amount, request.category,
                                 request.isExpense, now, request.note).(id := old(vm.repository.nextId))]
  {
    vm.AddTransaction(request.title, request.amount, request.category, request.isExpense, now, request.note);
  }

  /** The edit dialog's `onSave`: `updateTransaction` with the edited copy. */
  method SaveEdited(vm: ViewModel, original: Transaction, request: SaveRequest)
    requires vm.Valid()
    modifies vm.repository
    ensures vm.Valid()
    ensures vm.repository.rows == ReplaceById(old(vm.repository.rows), EditedTransaction(original, request))
  {
    vm.UpdateTransaction(EditedTransaction(original, request));
  }
}
