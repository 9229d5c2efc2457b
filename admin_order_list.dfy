/** frontend/src/screens/AdminOrderList.js: the administrator's order
    table, with checkboxes to select orders and a bulk delete. */
module AdminOrderList {
  import opened Common
  import opened Orders
  import opened OrderRoutes
  import opened OrderList

  predicate NoDuplicates(s: seq<Id>)
  {
    forall i, j :: 0 <= i < j < |s| ==> s[i] != s[j]
  }

  /** `handleOrderSelection`: an id already selected is dropped (every
      copy of it), otherwise it is appended. */
  function ToggleSelection(selected: seq<Id>, id: Id): (r: seq<Id>)
    ensures id in r <==> id !in selected
    ensures forall x :: x != id ==> (x in r <==> x in selected)
    ensures NoDuplicates(selected) ==> NoDuplicates(r)
  {
    if id in selected then
      var r := Filter((x: Id) => x != id, selected);
      assert NoDuplicates(selected) ==> NoDuplicates(r) by {
        if NoDuplicates(selected) {
          NoDuplicatesFilter(selected, id);
        }
      }
      r
    else selected + [id]
  }

  /** Removing one id keeps a list free of duplicates. */
  lemma {:induction false} NoDuplicatesFilter(s: seq<Id>, id: Id)
    requires NoDuplicates(s)
    ensures NoDuplicates(Filter((x: Id) => x != id, s))
  {
    if s != [] {
      NoDuplicatesFilter(s[1..], id);
      var rest := Filter((x: Id) => x != id, s[1..]);
      assert s[0] !in s[1..];
      if s[0] != id {
        assert Filter((x: Id) => x != id, s) == [s[0]] + rest;
        assert s[0] !in rest;
      }
    }
  }

  /** Clicking a checkbox twice restores the selection: for a new id the
      list itself comes back, and in every case the set of selected ids
      does. */
  lemma SelectTwice(selected: seq<Id>, id: Id)
    ensures forall x :: x in ToggleSelection(ToggleSelection(selected, id), id) <==> x in selected
    ensures id !in selected ==> ToggleSelection(ToggleSelection(selected, id), id) == selected
  {
    if id !in selected {
      FilterKeepsAll((x: Id) => x != id, selected);
      FilterAppend((x: Id) => x != id, selected, [id]);
      assert Filter((x: Id) => x != id, [id]) == [];
    }
  }

  /** The Delete Orders button is disabled while nothing is selected. */
  predicate DeleteDisabled(selected: seq<Id>)
  {
    |selected| == 0
  }

  const DeletedToast: string := "Selected orders deleted successfully"

  /** The screen's state: the list reducer, the sort direction, the
      selected ids and the toasts shown. */
  class AdminOrderPage {
    var state: State
    var dir: SortDir
    var selected: seq<Id>
    var toasts: seq<string>

    constructor ()
      ensures state == Initial && dir == Asc && selected == [] && toasts == []
    {
      state, dir, selected, toasts := Initial, Asc, [], [];
    }

    /** The effect, run on mount and whenever `successDelete` or the sort
        direction changes. */
    method Refresh(data: array<ListedOrder>, ok: bool, error: string)
      modifies this, data
      ensures selected == old(selected) && dir == old(dir) && toasts == old(toasts)
      ensures old(state.successDelete) ==>
        state == old(state).(loadingDelete := false, successDelete := false) && data[..] == old(data[..])
      ensures !old(state.successDelete) && ok ==>
        state == old(state).(orders := data[..], loading := false)
        && SortedByDate(state.orders, dir)
        && multiset(state.orders) == multiset(old(data[..]))
      ensures !old(state.successDelete) && !ok ==> state == old(state).(loading := false, error := error)
    {
      state := Effect(state, dir, data, ok, error);
    }

    /** The DATE header button. */
    method ToggleSort()
      modifies this
      ensures dir == Toggle(old(dir))
      ensures state == old(state) && selected == old(selected) && toasts == old(toasts)
    {
      dir := Toggle(dir);
    }

    /** A checkbox. */
    method Select(id: Id)
      modifies this
      ensures selected == ToggleSelection(old(selected), id)
      ensures state == old(state) && dir == old(dir) && toasts == old(toasts)
    {
      selected := ToggleSelection(selected, id);
    }

    /** `deleteHandler` against the order store: nothing happens unless the
        user confirms; then `DELETE /api/orders` removes the selected
        orders.  A reply of 200 clears the selection, a 404 (none of them
        existed) keeps it and shows the server's message. */
    method Delete(confirmed: bool, server: OrderStore)
      requires server.Valid()
      modifies this, server
      ensures server.Valid()
      ensures dir == old(dir)
      ensures !confirmed ==>
        server.orders == old(server.orders) && state == old(state)
        && selected == old(selected) && toasts == old(toasts)
      ensures confirmed ==> server.orders == Remaining(old(server.orders), old(selected))
      ensures confirmed && |server.orders| < |old(server.orders)| ==>
        selected == [] && toasts == old(toasts) + [DeletedToast]
        && state == old(state).(loadingDelete := false, successDelete := true)
      ensures confirmed && |server.orders| == |old(server.orders)| ==>
        selected == old(selected) && toasts == old(toasts) + ["No orders were deleted"]
        && state == old(state).(loadingDelete := false, successDelete := false)
    {
      if !confirmed {
        return;
      }
      state := Reduce(state, DeleteRequest);
      var res := server.DeleteMany(Some(selected));
      if res.status == 200 {
        toasts := toasts + [res.message];
        state := Reduce(state, DeleteSuccess);
        selected := [];
      } else {
        toasts := toasts + [res.message];
        state := Reduce(state, DeleteFail);
      }
    }
  }
}
