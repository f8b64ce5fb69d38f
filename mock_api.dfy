/** The in-memory record store: a list of records changed in place by
    add (push), update (overwrite at the first index with the id) and
    delete (reassign to the filtered list). Every call is one atomic step;
    the id of a new record is supplied by the caller. */
module Api {
  import opened Records

  class MockApi {
    var expenses: seq<Expense>

    /** The store starts empty. */
    constructor ()
      ensures expenses == []
    {
      expenses := [];
    }

    /** `getAllExpenses`: a copy of the whole list; the store is untouched. */
    method GetAllExpenses() returns (all: seq<Expense>)
      ensures all == expenses
    {
      all := expenses;
    }

    /** `addExpense`: push the submitted fields with the new id, and return
        the stored record. Ids stay unique when the new id is fresh. */
    method AddExpense(data: ExpenseData, id: Id) returns (added: Expense)
      modifies this
      ensures added == WithId(data, id)
      ensures expenses == old(expenses) + [added]
      ensures UniqueIds(old(expenses)) && id !in Ids(old(expenses)) ==> UniqueIds(expenses)
    {
      added := WithId(data, id);
      expenses := expenses + [added];
      if UniqueIds(old(expenses)) && id !in Ids(old(expenses)) {
        AppendFreshKeepsUnique(old(expenses), added);
      }
    }

    /** `updateExpense`: when some record has `id`, the first such record is
        replaced by the submitted fields carrying that same id, and the new
        record is returned; otherwise nothing changes and nothing is
        returned (`this.expenses[-1]` is `undefined`). */
    method UpdateExpense(id: Id, data: ExpenseData) returns (updated: Option<Expense>)
      modifies this
      ensures id in Ids(old(expenses)) ==>
                updated == Some(WithId(data, id)) &&
                expenses == old(expenses)[FindIndex(old(expenses), id) := WithId(data, id)]
      ensures id !in Ids(old(expenses)) ==> updated == None && expenses == old(expenses)
      ensures |expenses| == |old(expenses)| && Ids(expenses) == Ids(old(expenses))
      ensures UniqueIds(old(expenses)) ==> UniqueIds(expenses)
    {
      var index := FindIndex(expenses, id);
      if index != -1 {
        expenses := expenses[index := WithId(data, id)];
        assert Ids(expenses) == Ids(old(expenses));
      }
      if index == -1 {
        updated := None;
      } else {
        updated := Some(expenses[index]);
      }
    }

    /** `deleteExpense`: keep only the records without `id`, in their order,
        and report success whether or not any record had it. */
    method DeleteExpense(id: Id) returns (ok: bool)
      modifies this
      ensures expenses == RemoveId(old(expenses), id)
      ensures id !in Ids(old(expenses)) ==> expenses == old(expenses)
      ensures UniqueIds(old(expenses)) ==> UniqueIds(expenses)
      ensures ok
    {
      expenses := RemoveId(expenses, id);
      if id !in Ids(old(expenses)) {
        RemoveAbsentId(old(expenses), id);
      }
      if UniqueIds(old(expenses)) {
        RemoveIdKeepsUnique(old(expenses), id);
      }
      ok := true;
    }
  }
}
