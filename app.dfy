/** The App component's state: the list of records it shows and the record
    picked for editing. Each handler makes the store call and then applies
    the matching pure updater to the local list: append for add, replace by
    id for update, remove by id for delete. Every handler is one atomic step
    (the awaited store call and the state update happen together). */
module AppState {
  import opened Records
  import Api

  class App {
    var expenses: seq<Expense>
    var editingExpense: Option<Expense>

    /** `useState([])` and `useState(null)`. */
    constructor ()
      ensures expenses == [] && editingExpense == None
    {
      expenses := [];
      editingExpense := None;
    }

    /** The local list is a copy of the store's list, with unique ids. */
    ghost predicate Mirrors(api: Api.MockApi)
      reads this, api
    {
      expenses == api.expenses && UniqueIds(expenses)
    }

    /** The local list and the store's list hold the same ids, in the same
        order. Every handler keeps this even when ids repeat, and it implies
        the precondition of `HandleUpdateExpense`. */
    ghost predicate SameIds(api: Api.MockApi)
      reads this, api
    {
      Ids(expenses) == Ids(api.expenses)
    }

    /** The mount effect: `getAllExpenses().then(setExpenses)`. */
    method Load(api: Api.MockApi)
      modifies this
      ensures expenses == api.expenses && editingExpense == old(editingExpense)
      ensures SameIds(api)
      ensures UniqueIds(api.expenses) ==> Mirrors(api)
    {
      expenses := api.GetAllExpenses();
    }

    /** `handleAddExpense`: store the record, then append what the store
        returned. The copies stay in step when the new id is fresh. */
    method HandleAddExpense(api: Api.MockApi, data: ExpenseData, id: Id)
      modifies this, api
      ensures api.expenses == old(api.expenses) + [WithId(data, id)]
      ensures expenses == old(expenses) + [WithId(data, id)]
      ensures editingExpense == old(editingExpense)
      ensures old(SameIds(api)) ==> SameIds(api)
      ensures old(Mirrors(api)) && id !in Ids(old(api.expenses)) ==> Mirrors(api)
    {
      var added := api.AddExpense(data, id);
      expenses := expenses + [added];
      IdsAppend(old(expenses), added);
      IdsAppend(old(api.expenses), added);
    }

    /** `handleUpdateExpense`: update the store, then map every local record
        with `id` to the record the store returned. When the store has no
        record with `id` it returns nothing, and by the precondition the
        local list has none either, so the list is left as it was. */
    method HandleUpdateExpense(api: Api.MockApi, id: Id, data: ExpenseData)
      requires id in Ids(expenses) ==> id in Ids(api.expenses)
      modifies this, api
      ensures id in Ids(old(api.expenses)) ==>
                api.expenses == old(api.expenses)[FindIndex(old(api.expenses), id) := WithId(data, id)] &&
                expenses == ReplaceId(old(expenses), id, WithId(data, id))
      ensures id !in Ids(old(api.expenses)) ==>
                api.expenses == old(api.expenses) && expenses == old(expenses)
      ensures editingExpense == old(editingExpense)
      ensures old(SameIds(api)) ==> SameIds(api)
      ensures old(Mirrors(api)) ==> Mirrors(api)
    {
      ghost var wasMirror := Mirrors(api);
      var updated := api.UpdateExpense(id, data);
      match updated
      case Some(r) =>
        expenses := ReplaceId(expenses, id, r);
        ReplaceIdKeepsIds(old(expenses), id, r);
        if wasMirror {
          StoreUpdateIsReplaceId(old(expenses), id, r);
          ReplaceIdKeepsUnique(old(expenses), id, r);
        }
      case None =>
        ReplaceAbsentId(expenses, id, WithId(data, id));
    }

    /** `handleDeleteExpense`: delete from the store, then drop every local
        record with `id`. */
    method HandleDeleteExpense(api: Api.MockApi, id: Id)
      modifies this, api
      ensures api.expenses == RemoveId(old(api.expenses), id)
      ensures expenses == RemoveId(old(expenses), id)
      ensures id !in Ids(expenses)
      ensures editingExpense == old(editingExpense)
      ensures old(SameIds(api)) ==> SameIds(api)
      ensures old(Mirrors(api)) ==> Mirrors(api)
    {
      ghost var wasMirror := Mirrors(api);
      ghost var wasSame := SameIds(api);
      var _ := api.DeleteExpense(id);
      expenses := RemoveId(expenses, id);
      if wasSame {
        RemoveIdSameIds(old(expenses), old(api.expenses), id);
      }
      if wasMirror {
        RemoveIdKeepsUnique(old(expenses), id);
      }
    }

    /** `handleEditExpense`: remember the record to edit; the list is not
        touched. */
    method HandleEditExpense(e: Expense)
      modifies this`editingExpense
      ensures editingExpense == Some(e)
      ensures expenses == old(expenses)
    {
      editingExpense := Some(e);
    }
  }
}
