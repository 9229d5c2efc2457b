/** frontend/src/screens/OrderHistoryScreen.js: the signed-in user's own
    orders, fetched from `GET /api/orders/mine` and sorted by date. */
module OrderHistory {
  import opened Common
  import opened Orders
  import opened OrderRoutes
  import OrderList

  /** The history reducer's state; `orders` starts `undefined`, shown as the
      empty list. */
  datatype State = State(loading: bool, error: string, orders: seq<Order>)

  const Initial: State := State(true, "", [])

  datatype Action = FetchRequest | FetchSuccess(orders: seq<Order>) | FetchFail(error: string) | Other(kind: string)

  /** The three-case reducer: only `FETCH_SUCCESS` replaces the list and
      only `FETCH_FAIL` writes the error, which nothing clears. */
  function Reduce(s: State, a: Action): (r: State)
    ensures r.orders == (if a.FetchSuccess? then a.orders else s.orders)
    ensures r.error == (if a.FetchFail? then a.error else s.error)
    ensures r.loading == (if a.Other? then s.loading else a.FetchRequest?)
  {
    match a
    case FetchRequest => s.(loading := true)
    case FetchSuccess(os) => s.(orders := os, loading := false)
    case FetchFail(e) => s.(loading := false, error := e)
    case Other(_) => s
  }

  /** The history in the order the DATE header asks for. */
  predicate SortedByDate(os: seq<Order>, d: SortDir)
  {
    OrderList.SortedOn(os, (o: Order) => OrderList.DateKey(o.createdAt, d))
  }

  /** The page body. */
  datatype View = Loading | ErrorBox(message: string) | NoHistory | Table(rows: seq<Order>)

  const EmptyHistoryMessage: string := "No items in the history."

  function ViewOf(s: State): (v: View)
    ensures v.Table? ==> |v.rows| > 0 && !s.loading && s.error == ""
    ensures v == NoHistory <==> !s.loading && s.error == "" && s.orders == []
  {
    if s.loading then Loading
    else if s.error != "" then ErrorBox(s.error)
    else if s.orders == [] then NoHistory
    else Table(s.orders)
  }

  /** Once a fetch has failed, later successful fetches (a new sort
      direction, a new sign-in) still show the error. */
  lemma ErrorOutlivesRefetch(s: State, e: string, os: seq<Order>)
    requires e != ""
    ensures var s1 := Reduce(Reduce(s, FetchRequest), FetchFail(e));
      ViewOf(Reduce(Reduce(s1, FetchRequest), FetchSuccess(os))) == ErrorBox(e)
  {
  }

  class OrderHistoryPage {
    var state: State
    var dir: SortDir

    constructor ()
      ensures state == Initial && dir == Asc
    {
      state, dir := Initial, Asc;
    }

    /** The effect, run on mount and whenever the sort direction or the
        user changes: `FETCH_REQUEST`, then `GET /api/orders/mine` against
        the store's orders, sorted in place, or the error. */
    method Refresh(stored: seq<Order>, user: Id, ok: bool, error: string)
      modifies this
      ensures dir == old(dir)
      ensures ok ==>
        !state.loading && state.error == old(state.error)
        && SortedByDate(state.orders, dir)
        && multiset(state.orders) == multiset(Mine(stored, user))
        && forall o :: o in state.orders <==> o in stored && o.user == user
      ensures !ok ==> state == old(state).(loading := false, error := error)
    {
      state := Reduce(state, FetchRequest);
      if !ok {
        state := Reduce(state, FetchFail(error));
        return;
      }
      var mine := Mine(stored, user);
      var data := new Order[|mine|](i requires 0 <= i < |mine| => mine[i]);
      assert data[..] == mine;
      var d := dir;
      OrderList.SortInPlace(data, (o: Order) => OrderList.DateKey(o.createdAt, d));
      state := Reduce(state, FetchSuccess(data[..]));
      assert forall o :: o in state.orders <==> o in multiset(mine);
    }

    /** The DATE header button. */
    method ToggleSort()
      modifies this
      ensures dir == OrderList.Toggle(old(dir)) && state == old(state)
    {
      dir := OrderList.Toggle(dir);
    }
  }
}
