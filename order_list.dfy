/** What the two order tables (frontend/src/screens/AdminOrderList.js and
    frontend/src/screens/SupplierOrderList.js) share, and what the order
    history (frontend/src/screens/OrderHistoryScreen.js) reuses: the list
    reducer, the effect that resets or refetches, the in-place date sort
    with its direction toggle, and the table cells. */
module OrderList {
  import opened Common
  import opened Orders
  import opened OrderRoutes

  /** The list reducer's state; `orders` starts `undefined`, shown here as
      the empty list (it is read only once `loading` is false). */
  datatype State = State(loading: bool, error: string, orders: seq<ListedOrder>,
                         loadingDelete: bool, successDelete: bool)

  const Initial: State := State(true, "", [], false, false)

  datatype Action =
    | FetchRequest | FetchSuccess(orders: seq<ListedOrder>) | FetchFail(error: string)
    | DeleteRequest | DeleteSuccess | DeleteFail | DeleteReset
    | Other(kind: string)

  predicate IsDelete(a: Action)
  {
    a.DeleteRequest? || a.DeleteSuccess? || a.DeleteFail? || a.DeleteReset?
  }

  /** The reducer of both order tables.  The fetch actions touch only the
      list fields and the delete actions only the two delete flags;
      `DELETE_FAIL` leaves `successDelete` alone. */
  function Reduce(s: State, a: Action): (r: State)
    ensures IsDelete(a) || a.Other? ==> r.loading == s.loading && r.error == s.error && r.orders == s.orders
    ensures !IsDelete(a) ==> r.loadingDelete == s.loadingDelete && r.successDelete == s.successDelete
    ensures a.FetchSuccess? ==> r.orders == a.orders && !r.loading && r.error == s.error
    ensures a.FetchFail? ==> r.error == a.error && !r.loading && r.orders == s.orders
    ensures a.FetchRequest? ==> r == s.(loading := true)
    ensures a.DeleteRequest? ==> r.loadingDelete && !r.successDelete
    ensures a.DeleteSuccess? ==> !r.loadingDelete && r.successDelete
    ensures a.DeleteFail? ==> !r.loadingDelete && r.successDelete == s.successDelete
    ensures a.DeleteReset? ==> !r.loadingDelete && !r.successDelete
    ensures a.Other? ==> r == s
  {
    match a
    case FetchRequest => s.(loading := true)
    case FetchSuccess(os) => s.(orders := os, loading := false)
    case FetchFail(e) => s.(loading := false, error := e)
    case DeleteRequest => s.(loadingDelete := true, successDelete := false)
    case DeleteSuccess => s.(loadingDelete := false, successDelete := true)
    case DeleteFail => s.(loadingDelete := false)
    case DeleteReset => s.(loadingDelete := false, successDelete := false)
    case Other(_) => s
  }

  /** What the effect does when it runs: reset after a delete, or fetch. */
  datatype EffectStep = ResetDelete | Refetch

  function StepOf(s: State): EffectStep
  {
    if s.successDelete then ResetDelete else Refetch
  }

  /** The effect runs again when one of its dependencies changes; of the
      reducer's state only `successDelete` is one. */
  predicate EffectDue(before: State, after: State)
  {
    before.successDelete != after.successDelete
  }

  /** A successful delete makes the effect run twice: first it resets the
      flag, and that change runs it again to refetch the list.  A failed
      delete changes no dependency, so the list is not refetched. */
  lemma DeleteThenRefetch(s: State)
    requires !s.successDelete
    ensures var s1 := Reduce(Reduce(s, DeleteRequest), DeleteSuccess);
      EffectDue(s, s1) && StepOf(s1) == ResetDelete
      && var s2 := Reduce(s1, DeleteReset);
      EffectDue(s1, s2) && StepOf(s2) == Refetch && s2.orders == s.orders
    ensures !EffectDue(s, Reduce(s, DeleteRequest))
    ensures var f := Reduce(Reduce(s, DeleteRequest), DeleteFail);
      !EffectDue(s, f) && f.orders == s.orders && !f.loadingDelete
  {
  }

  /** `sortOrder`, toggled by the DATE header button. */
  function Toggle(d: SortDir): (r: SortDir)
    ensures r != d
  {
    if d == Asc then Desc else Asc
  }

  lemma ToggleTwice(d: SortDir)
    ensures Toggle(Toggle(d)) == d
  {
  }

  /** The comparator `new Date(a.createdAt) - new Date(b.createdAt)`, or
      its reverse, as a key: ascending puts earlier orders first,
      descending later ones. */
  function DateKey(createdAt: int, d: SortDir): int
  {
    if d == Asc then createdAt else -createdAt
  }

  predicate SortedOn<T>(s: seq<T>, key: T -> int)
  {
    forall i, j :: 0 <= i < j < |s| ==> key(s[i]) <= key(s[j])
  }

  /** A listed table in the order the DATE header asks for. */
  predicate SortedByDate(s: seq<ListedOrder>, d: SortDir)
  {
    SortedOn(s, (o: ListedOrder) => DateKey(o.order.createdAt, d))
  }

  /** Sorted by the date key means creation times never decrease
      (ascending) or never increase (descending). */
  lemma DateKeyOrder(s: seq<ListedOrder>, d: SortDir)
    ensures SortedByDate(s, d) <==>
      forall i, j :: 0 <= i < j < |s| ==>
        if d == Asc then s[i].order.createdAt <= s[j].order.createdAt
        else s[i].order.createdAt >= s[j].order.createdAt
  {
  }

  function Reverse<T>(s: seq<T>): (r: seq<T>)
    ensures |r| == |s| && forall i :: 0 <= i < |s| ==> r[i] == s[|s| - 1 - i]
  {
    if s == [] then [] else Reverse(s[1..]) + [s[0]]
  }

  /** A list sorted one way, read backwards, is sorted the other way. */
  lemma ReverseSortsOtherWay<T>(s: seq<T>, createdAt: T -> int, d: SortDir)
    requires SortedOn(s, (x: T) => DateKey(createdAt(x), d))
    ensures SortedOn(Reverse(s), (x: T) => DateKey(createdAt(x), Toggle(d)))
  {
    var r := Reverse(s);
    forall i, j | 0 <= i < j < |r|
      ensures DateKey(createdAt(r[i]), Toggle(d)) <= DateKey(createdAt(r[j]), Toggle(d))
    {
      assert DateKey(createdAt(s[|s| - 1 - j]), d) <= DateKey(createdAt(s[|s| - 1 - i]), d);
    }
  }

  /** `data.sort(comparator)`: sorts the fetched array in place. */
  method SortInPlace<T>(a: array<T>, key: T -> int)
    modifies a
    ensures SortedOn(a[..], key)
    ensures multiset(a[..]) == multiset(old(a[..]))
  {
    var i := 0;
    while i < a.Length
      invariant 0 <= i <= a.Length
      invariant SortedOn(a[..i], key)
      invariant multiset(a[..]) == multiset(old(a[..]))
    {
      InsertLast(a, i, key);
      i := i + 1;
    }
    assert a[..a.Length] == a[..];
  }

  /** One insertion step: `a[i]` moves left past the larger keys, so the
      first `i + 1` elements end up sorted and the rest stay where they
      are. */
  method InsertLast<T>(a: array<T>, i: nat, key: T -> int)
    requires i < a.Length && SortedOn(a[..i], key)
    modifies a
    ensures SortedOn(a[..i + 1], key)
    ensures multiset(a[..]) == multiset(old(a[..]))
  {
    var j := i;
    while j > 0 && key(a[j - 1]) > key(a[j])
      invariant 0 <= j <= i
      invariant multiset(a[..]) == multiset(old(a[..]))
      invariant forall p, q :: 0 <= p < q <= i && q != j ==> key(a[p]) <= key(a[q])
      invariant forall p, q :: 0 <= p < j < q <= i ==> key(a[p]) <= key(a[q])
    {
      Swap(a, j);
      j := j - 1;
    }
  }

  /** Exchanges `a[j - 1]` and `a[j]`. */
  method Swap<T>(a: array<T>, j: nat)
    requires 0 < j < a.Length
    modifies a
    ensures a[..] == old(a[..])[j - 1 := old(a[j])][j := old(a[j - 1])]
    ensures multiset(a[..]) == multiset(old(a[..]))
  {
    a[j - 1], a[j] := a[j], a[j - 1];
  }

  /** The fetch half of the effect: `FETCH_REQUEST`, then the sorted list
      or the error.  `data` is the array the request returned; it is
      sorted in place and its contents become the state's list. */
  method LoadOrders(s: State, d: SortDir, data: array<ListedOrder>, ok: bool, error: string)
    returns (r: State)
    modifies data
    ensures ok ==>
      r == s.(orders := data[..], loading := false)
      && SortedByDate(r.orders, d)
      && multiset(r.orders) == multiset(old(data[..]))
    ensures !ok ==> r == s.(loading := false, error := error)
  {
    r := Reduce(s, FetchRequest);
    if ok {
      SortInPlace(data, (o: ListedOrder) => DateKey(o.order.createdAt, d));
      r := Reduce(r, FetchSuccess(data[..]));
    } else {
      r := Reduce(r, FetchFail(error));
    }
  }

  /** The effect, each time it runs: `DELETE_RESET` after a successful
      delete, otherwise the fetch. */
  method Effect(s: State, d: SortDir, data: array<ListedOrder>, ok: bool, error: string)
    returns (r: State)
    modifies data
    ensures s.successDelete ==> r == s.(loadingDelete := false, successDelete := false) && data[..] == old(data[..])
    ensures !s.successDelete && ok ==>
      r == s.(orders := data[..], loading := false)
      && SortedByDate(r.orders, d)
      && multiset(r.orders) == multiset(old(data[..]))
    ensures !s.successDelete && !ok ==> r == s.(loading := false, error := error)
  {
    if s.successDelete {
      r := Reduce(s, DeleteReset);
    } else {
      r := LoadOrders(s, d, data, ok, error);
    }
  }

  /** The page body. */
  datatype View = Loading | ErrorBox(message: string) | NoOrders | Table(rows: seq<ListedOrder>)

  /** `loading ? … : error ? … : orders.length === 0 ? … : table`. */
  function ViewOf(s: State): (v: View)
    ensures v.Table? ==> |v.rows| > 0 && !s.loading && s.error == ""
    ensures v == NoOrders <==> !s.loading && s.error == "" && s.orders == []
  {
    if s.loading then Loading
    else if s.error != "" then ErrorBox(s.error)
    else if s.orders == [] then NoOrders
    else Table(s.orders)
  }

  /** A PAID or DELIVERED cell: a cross, the date part of the timestamp,
      or a render error when the flag is set without its timestamp
      (`substring` of `undefined`). */
  datatype Cell = Cross | DateText(day: int) | RenderError

  function StatusCell(flag: bool, at: Option<int>): (c: Cell)
    ensures c == Cross <==> !flag
    ensures c == RenderError <==> flag && at.None?
    ensures c.DateText? ==> at.Some? && c.day == Day(at.value)
  {
    if !flag then Cross else if at.Some? then DateText(Day(at.value)) else RenderError
  }

  function PaidCell(o: Order): Cell
  {
    StatusCell(o.isPaid, o.paidAt)
  }

  /** The DELIVERED column shows the supplier's shipping flag, not the
      inspector's `markDelivered`. */
  function DeliveredCell(o: Order): Cell
  {
    StatusCell(o.isDelivered, o.deliveredAt)
  }

  /** Orders the routes produce never break the table; an order the
      inspector marked delivered but the supplier never shipped shows a
      cross under DELIVERED, dated with the inspector's time nowhere. */
  lemma CellsOfWellFormedOrders(o: Order)
    requires WellFormed(o)
    ensures PaidCell(o) != RenderError && DeliveredCell(o) != RenderError
    ensures o.isPaid ==> PaidCell(o) == DateText(Day(o.paidAt.value))
    ensures o.markDelivered && !o.isDelivered ==> DeliveredCell(o) == Cross
  {
  }

  /** The USER cell: the populated name, or `DELETED USER`. */
  function UserCell(o: ListedOrder): (s: string)
    ensures o.userName.Some? ==> s == o.userName.value
    ensures o.userName.None? ==> s == "DELETED USER"
  {
    if o.userName.Some? then o.userName.value else "DELETED USER"
  }

  /** A listed order whose user was removed shows `DELETED USER`; one whose
      user exists shows that user's name. */
  lemma UserCellOfListing(os: seq<Order>, users: seq<UserInfo>, i: nat)
    requires i < |os|
    ensures (forall k :: 0 <= k < |users| ==> users[k].id != os[i].user) ==>
      UserCell(AllOrders(os, users)[i]) == "DELETED USER"
    ensures UserCell(AllOrders(os, users)[i]) != "DELETED USER" ==>
      exists k :: 0 <= k < |users| && users[k].id == os[i].user
        && users[k].name == UserCell(AllOrders(os, users)[i])
  {
    var r := AllOrders(os, users);
    assert r[i].userName == NameOf(users, os[i].user);
  }
}
