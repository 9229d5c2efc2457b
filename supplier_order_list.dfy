/** frontend/src/screens/SupplierOrderList.js: the supplier's read-only
    order table.  It reuses the list reducer of the administrator's table
    but has no delete button, so no delete action is ever dispatched. */
module SupplierOrderList {
  import opened Common
  import opened OrderRoutes
  import opened OrderList

  class SupplierOrderPage {
    var state: State
    var dir: SortDir

    /** Without a delete button `successDelete` never becomes true. */
    ghost predicate Valid()
      reads this
    {
      !state.successDelete
    }

    constructor ()
      ensures Valid() && state == Initial && dir == Asc
    {
      state, dir := Initial, Asc;
    }

    /** The effect: with `successDelete` always false, every run fetches
        the orders and shows them sorted by date, or shows the error. */
    method Refresh(data: array<ListedOrder>, ok: bool, error: string)
      requires Valid()
      modifies this, data
      ensures Valid() && dir == old(dir)
      ensures ok ==>
        state == old(state).(orders := data[..], loading := false)
        && SortedByDate(state.orders, dir)
        && multiset(state.orders) == multiset(old(data[..]))
      ensures !ok ==> state == old(state).(loading := false, error := error)
    {
      state := Effect(state, dir, data, ok, error);
    }

    /** The DATE header button. */
    method ToggleSort()
      modifies this
      ensures dir == Toggle(old(dir)) && state == old(state)
    {
      dir := Toggle(dir);
    }
  }
}
