/** frontend/src/screens/OrderScreen.js: the order page's reducer, the
    effect that decides whether to refetch, the pay, ship-out and
    mark-delivered handlers as sequences of dispatched actions, and the
    predicates that decide which buttons are shown. */
module OrderScreen {
  import opened Common
  import opened Orders
  import OrderRoutes

  /** The reducer's state.  Fields the initial state leaves out start
      `undefined`, which reads as `false` here; `order: {}` (no `_id`) is
      `None`. */
  datatype State = State(
    loading: bool,
    error: string,
    order: Option<Order>,
    successPay: bool,
    loadingPay: bool,
    errorPay: Option<string>,
    loadingDeliver: bool,
    successDeliver: bool,
    loadingMark: bool,
    markDeliver: bool)

  const Initial: State := State(true, "", None, false, false, None, false, false, false, false)

  datatype Action =
    | FetchRequest | FetchSuccess(order: Order) | FetchFail(error: string)
    | PayRequest | PaySuccess | PayFail(error: string) | PayReset
    | DeliverRequest | DeliverSuccess | DeliverFail | DeliverReset
    | MarkRequest | MarkSuccess | MarkFail | MarkReset
    | Other(kind: string)

  predicate IsFetch(a: Action) { a.FetchRequest? || a.FetchSuccess? || a.FetchFail? }
  predicate IsPay(a: Action) { a.PayRequest? || a.PaySuccess? || a.PayFail? || a.PayReset? }
  predicate IsDeliver(a: Action) { a.DeliverRequest? || a.DeliverSuccess? || a.DeliverFail? || a.DeliverReset? }
  predicate IsMark(a: Action) { a.MarkRequest? || a.MarkSuccess? || a.MarkFail? || a.MarkReset? }

  /** The four groups of fields; each action belongs to one group.  Each
      predicate says that `r` and `s` agree on that group. */
  predicate SameFetch(r: State, s: State) { r.loading == s.loading && r.error == s.error && r.order == s.order }
  predicate SamePay(r: State, s: State) { r.successPay == s.successPay && r.loadingPay == s.loadingPay && r.errorPay == s.errorPay }
  predicate SameDeliver(r: State, s: State) { r.loadingDeliver == s.loadingDeliver && r.successDeliver == s.successDeliver }
  predicate SameMark(r: State, s: State) { r.loadingMark == s.loadingMark && r.markDeliver == s.markDeliver }

  /** `reducer`: each action changes only fields of its own group, and an
      action of no known type returns the state unchanged. */
  function Reduce(s: State, a: Action): (r: State)
    ensures !IsFetch(a) ==> SameFetch(r, s)
    ensures !IsPay(a) ==> SamePay(r, s)
    ensures !IsDeliver(a) ==> SameDeliver(r, s)
    ensures !IsMark(a) ==> SameMark(r, s)
    ensures a.Other? ==> r == s
    ensures a.FetchRequest? ==> r == s.(loading := true, error := "")
    ensures a.FetchSuccess? ==> r == s.(loading := false, order := Some(a.order), error := "")
    ensures a.FetchFail? ==> r == s.(loading := false, error := a.error)
    ensures a.PayRequest? ==> r == s.(loadingPay := true)
    ensures a.PaySuccess? ==> r == s.(loadingPay := false, successPay := true)
    ensures a.PayFail? ==> r == s.(loadingPay := false, errorPay := Some(a.error))
    ensures a.PayReset? ==> r == s.(loadingPay := false, successPay := false)
    ensures a.DeliverRequest? ==> r == s.(loadingDeliver := true)
    ensures a.DeliverSuccess? ==> r == s.(loadingDeliver := false, successDeliver := true)
    ensures a.DeliverFail? ==> r == s.(loadingDeliver := false)
    ensures a.DeliverReset? ==> r == s.(loadingDeliver := false, successDeliver := false)
    ensures a.MarkRequest? ==> r == s.(loadingMark := true)
    ensures a.MarkSuccess? ==> r == s.(loadingMark := false, markDeliver := true)
    ensures a.MarkFail? ==> r == s.(loadingMark := false)
    ensures a.MarkReset? ==> r == s.(loadingMark := false, markDeliver := false)
  {
    match a
    case FetchRequest => s.(loading := true, error := "")
    case FetchSuccess(o) => s.(loading := false, order := Some(o), error := "")
    case FetchFail(e) => s.(loading := false, error := e)
    case PayRequest => s.(loadingPay := true)
    case PaySuccess => s.(loadingPay := false, successPay := true)
    case PayFail(e) => s.(loadingPay := false, errorPay := Some(e))
    case PayReset => s.(loadingPay := false, successPay := false)
    case DeliverRequest => s.(loadingDeliver := true)
    case DeliverSuccess => s.(loadingDeliver := false, successDeliver := true)
    case DeliverFail => s.(loadingDeliver := false)
    case DeliverReset => s.(loadingDeliver := false, successDeliver := false)
    case MarkRequest => s.(loadingMark := true)
    case MarkSuccess => s.(loadingMark := false, markDeliver := true)
    case MarkFail => s.(loadingMark := false)
    case MarkReset => s.(loadingMark := false, markDeliver := false)
    case Other(_) => s
  }

  /** The state after dispatching `actions` in order. */
  function Run(s: State, actions: seq<Action>): State
    decreases |actions|
  {
    if actions == [] then s else Run(Reduce(s, actions[0]), actions[1..])
  }

  lemma {:induction false} RunAppend(s: State, a: seq<Action>, b: seq<Action>)
    ensures Run(s, a + b) == Run(Run(s, a), b)
    decreases |a|
  {
    if a == [] {
      assert a + b == b;
    } else {
      assert (a + b)[1..] == a[1..] + b;
      RunAppend(Reduce(s, a[0]), a[1..], b);
    }
  }

  lemma RunOne(s: State, x: Action)
    ensures Run(s, [x]) == Reduce(s, x)
  {
    assert [x][1..] == [];
  }

  lemma RunSnoc(s: State, a: seq<Action>, x: Action)
    ensures Run(s, a + [x]) == Reduce(Run(s, a), x)
  {
    RunAppend(s, a, [x]);
    RunOne(Run(s, a), x);
  }

  lemma RunPair(s: State, a: Action, b: Action)
    ensures Run(s, [a, b]) == Reduce(Reduce(s, a), b)
  {
    assert [a, b] == [a] + [b];
    RunAppend(s, [a], [b]);
    RunOne(s, a);
    RunOne(Reduce(s, a), b);
  }

  /** The three resets clear their own loading and success flags, leave
      every other field alone, and a second reset changes nothing. */
  lemma ResetsClearOwnFlags(s: State)
    ensures var r := Reduce(s, PayReset);
      !r.loadingPay && !r.successPay && r.errorPay == s.errorPay
      && SameFetch(r, s) && SameDeliver(r, s) && SameMark(r, s)
      && Reduce(r, PayReset) == r
    ensures var r := Reduce(s, DeliverReset);
      !r.loadingDeliver && !r.successDeliver
      && SameFetch(r, s) && SamePay(r, s) && SameMark(r, s)
      && Reduce(r, DeliverReset) == r
    ensures var r := Reduce(s, MarkReset);
      !r.loadingMark && !r.markDeliver
      && SameFetch(r, s) && SamePay(r, s) && SameDeliver(r, s)
      && Reduce(r, MarkReset) == r
  {
  }

  /** The effect's condition for fetching the order of route `routeId`. */
  predicate RefetchNeeded(s: State, routeId: Id)
  {
    s.order.None? || s.successPay || s.successDeliver || s.markDeliver
    || (s.order.Some? && s.order.value.id != routeId)
  }

  /** The result of `GET /api/orders/:id`. */
  datatype Fetched = Got(order: Order) | FetchError(message: string)

  /** The resets the effect dispatches: one for each success flag that
      is set, in the order pay, deliver, mark. */
  function ResetActions(s: State): (acts: seq<Action>)
    ensures PayReset in acts <==> s.successPay
    ensures DeliverReset in acts <==> s.successDeliver
    ensures MarkReset in acts <==> s.markDeliver
    ensures FetchRequest !in acts
  {
    (if s.successPay then [PayReset] else [])
    + (if s.successDeliver then [DeliverReset] else [])
    + (if s.markDeliver then [MarkReset] else [])
  }

  /** The outcome action of the fetch. */
  function FetchOutcome(f: Fetched): Action
  {
    if f.Got? then FetchSuccess(f.order) else FetchFail(f.message)
  }

  /** What the effect dispatches when it refetches: `FETCH_REQUEST`
      synchronously, then the resets, and the fetch's outcome once the
      request returns. */
  function RefetchActions(s: State, f: Fetched): (acts: seq<Action>)
    ensures |acts| >= 2 && acts[0] == FetchRequest && acts[|acts| - 1] == FetchOutcome(f)
  {
    [FetchRequest] + ResetActions(s) + [FetchOutcome(f)]
  }

  /** A refetch in steps: `FETCH_REQUEST` does not change which resets
      are due, and the run is the request, the resets, then the outcome. */
  lemma RefetchSteps(s: State, f: Fetched)
    ensures ResetActions(Reduce(s, FetchRequest)) == ResetActions(s)
    ensures Run(s, RefetchActions(s, f))
      == Reduce(Run(Reduce(s, FetchRequest), ResetActions(s)), FetchOutcome(f))
  {
    RunAppend(s, [FetchRequest] + ResetActions(s), [FetchOutcome(f)]);
    RunAppend(s, [FetchRequest], ResetActions(s));
    RunOne(s, FetchRequest);
    RunOne(Run(s, [FetchRequest] + ResetActions(s)), FetchOutcome(f));
  }

  /** The resets clear all three success flags, lower the loading flag of
      each group they reset, and leave the fetch group alone. */
  lemma {:induction false} ResetsClear(t: State)
    ensures var r := Run(t, ResetActions(t));
      !r.successPay && !r.successDeliver && !r.markDeliver && SameFetch(r, t)
      && r.loadingPay == (t.loadingPay && !t.successPay) && r.errorPay == t.errorPay
  {
    var p := if t.successPay then [PayReset] else [];
    var d := if t.successDeliver then [DeliverReset] else [];
    var m := if t.markDeliver then [MarkReset] else [];
    RunAppend(t, p + d, m);
    RunAppend(t, p, d);
    var t1 := Run(t, p);
    var t2 := Run(t1, d);
    if t.successPay { RunOne(t, PayReset); }
    if t.successDeliver { RunOne(t1, DeliverReset); }
    if t.markDeliver { RunOne(t2, MarkReset); }
  }

  /** After a refetch every success flag is clear and loading is over; a
      fetched order is stored with no error, and once it is the route's
      order the effect does not fetch again. */
  lemma {:induction false} RefetchSettles(s: State, f: Fetched, routeId: Id)
    ensures var r := Run(s, RefetchActions(s, f));
      !r.loading && !r.successPay && !r.successDeliver && !r.markDeliver
      && r.loadingPay == (s.loadingPay && !s.successPay)
      && (f.Got? ==> r.order == Some(f.order) && r.error == "")
      && (f.FetchError? ==> r.order == s.order && r.error == f.message)
      && (f.Got? && f.order.id == routeId ==> !RefetchNeeded(r, routeId))
  {
    var s1 := Reduce(s, FetchRequest);
    assert ResetActions(s1) == ResetActions(s);
    RunAppend(s, [FetchRequest] + ResetActions(s), [FetchOutcome(f)]);
    RunAppend(s, [FetchRequest], ResetActions(s));
    RunOne(s, FetchRequest);
    ResetsClear(s1);
    RunOne(Run(s1, ResetActions(s1)), FetchOutcome(f));
  }

  /** The dispatches of `onApprove`, `deliverOrderHandler` and
      `markDeliveredHandler` for a request that succeeds (`ok`) or fails. */
  function PayActions(ok: bool, message: string): seq<Action>
  {
    [PayRequest, if ok then PaySuccess else PayFail(message)]
  }

  function DeliverActions(ok: bool): seq<Action>
  {
    [DeliverRequest, if ok then DeliverSuccess else DeliverFail]
  }

  function MarkActions(ok: bool): seq<Action>
  {
    [MarkRequest, if ok then MarkSuccess else MarkFail]
  }

  /** Each request ends with its loading flag down on success and on
      failure, raises its success flag only on success, and touches no
      other group. */
  lemma RequestsSettle(s: State, ok: bool, message: string)
    ensures var r := Run(s, PayActions(ok, message));
      !r.loadingPay && r.successPay == (ok || s.successPay)
      && r.errorPay == (if ok then s.errorPay else Some(message))
      && SameFetch(r, s) && SameDeliver(r, s) && SameMark(r, s)
    ensures var r := Run(s, DeliverActions(ok));
      !r.loadingDeliver && r.successDeliver == (ok || s.successDeliver)
      && SameFetch(r, s) && SamePay(r, s) && SameMark(r, s)
    ensures var r := Run(s, MarkActions(ok));
      !r.loadingMark && r.markDeliver == (ok || s.markDeliver)
      && SameFetch(r, s) && SamePay(r, s) && SameDeliver(r, s)
  {
    RunPair(s, PayRequest, PayActions(ok, message)[1]);
    RunPair(s, DeliverRequest, DeliverActions(ok)[1]);
    RunPair(s, MarkRequest, MarkActions(ok)[1]);
  }

  /** A successful request sets a flag that makes the effect refetch. */
  lemma SuccessTriggersRefetch(s: State, routeId: Id)
    ensures RefetchNeeded(Run(s, PayActions(true, "")), routeId)
    ensures RefetchNeeded(Run(s, DeliverActions(true)), routeId)
    ensures RefetchNeeded(Run(s, MarkActions(true)), routeId)
  {
    RequestsSettle(s, true, "");
  }

  /** PayPal buttons are shown while the order is unpaid. */
  function ShowPayPal(o: Order): (b: bool)
    ensures b <==> !o.isPaid
  {
    !o.isPaid
  }

  /** `createOrder`: the PayPal purchase amount. */
  function PurchaseAmount(o: Order): int
  {
    o.totalPrice
  }

  /** The 'Ship out Order' button. */
  predicate ShowShipOut(u: UserInfo, o: Order)
  {
    u.isSupplier && o.isPaid && !o.isDelivered
  }

  /** The 'Mark as Delivered' button. */
  predicate ShowMarkDelivered(u: UserInfo, o: Order)
  {
    u.isInspector && o.isPaid && !o.markDelivered
  }

  /** Each button goes away once the route it calls has run: a paid order
      shows no PayPal buttons, a shipped one no ship-out button and a
      marked one no mark button.  Paying makes both staff buttons appear
      for a user with the role, as long as the step is still to do, and
      the amount is the order's total whatever the order's state. */
  lemma ButtonsFollowRoutes(u: UserInfo, o: Order, now: int, body: PaymentResult)
    ensures !ShowPayPal(OrderRoutes.Paid(o, now, body))
    ensures !ShowShipOut(u, OrderRoutes.Shipped(o, now))
    ensures !ShowMarkDelivered(u, OrderRoutes.MarkedDelivered(o, now))
    ensures ShowShipOut(u, OrderRoutes.Paid(o, now, body)) <==> u.isSupplier && !o.isDelivered
    ensures ShowMarkDelivered(u, OrderRoutes.Paid(o, now, body)) <==> u.isInspector && !o.markDelivered
    ensures PurchaseAmount(OrderRoutes.Paid(o, now, body)) == PurchaseAmount(o) == o.totalPrice
  {
  }

  /** The order page: its reducer state and the actions dispatched so far. */
  class OrderPage {
    var state: State
    var dispatched: seq<Action>
    var navigations: seq<string>

    constructor ()
      ensures state == Initial && dispatched == [] && navigations == []
    {
      state := Initial;
      dispatched := [];
      navigations := [];
    }

    method Dispatch(a: Action)
      modifies this
      ensures state == Reduce(old(state), a) && dispatched == old(dispatched) + [a]
      ensures navigations == old(navigations)
    {
      state := Reduce(state, a);
      dispatched := dispatched + [a];
    }

    /** The `useEffect` body for route `routeId`: without a signed-in user
        it goes to '/login'; otherwise it refetches when `RefetchNeeded`,
        resetting each success flag that is set, and else only loads the
        PayPal script, which changes no reducer state. */
    method Effect(signedIn: bool, routeId: Id, f: Fetched)
      modifies this
      ensures !signedIn ==>
        state == old(state) && dispatched == old(dispatched)
        && navigations == old(navigations) + ["/login"]
      ensures signedIn && RefetchNeeded(old(state), routeId) ==>
        dispatched == old(dispatched) + RefetchActions(old(state), f)
        && state == Run(old(state), RefetchActions(old(state), f))
      ensures signedIn && !RefetchNeeded(old(state), routeId) ==>
        state == old(state) && dispatched == old(dispatched)
      ensures signedIn ==> navigations == old(navigations)
    {
      if !signedIn {
        navigations := navigations + ["/login"];
        return;
      }
      if RefetchNeeded(state, routeId) {
        Refetch(f);
      }
    }

    /** The refetch branch: `FETCH_REQUEST`, the resets, then the outcome. */
    method Refetch(f: Fetched)
      modifies this
      ensures dispatched == old(dispatched) + RefetchActions(old(state), f)
      ensures state == Run(old(state), RefetchActions(old(state), f))
      ensures navigations == old(navigations)
    {
      ghost var s0, d0 := state, dispatched;
      RefetchSteps(s0, f);
      Dispatch(FetchRequest);
      DispatchResets();
      Dispatch(FetchOutcome(f));
      assert dispatched == d0 + RefetchActions(s0, f);
    }

    /** The `if (successPay) … if (markDeliver) …` resets. */
    method DispatchResets()
      modifies this
      ensures dispatched == old(dispatched) + ResetActions(old(state))
      ensures state == Run(old(state), ResetActions(old(state)))
      ensures navigations == old(navigations)
    {
      ghost var t := state;
      ghost var p := if t.successPay then [PayReset] else [];
      ghost var d := if t.successDeliver then [DeliverReset] else [];
      ghost var m := if t.markDeliver then [MarkReset] else [];
      if state.successPay {
        Dispatch(PayReset);
        RunOne(t, PayReset);
      }
      ghost var t1 := state;
      assert t1 == Run(t, p);
      if state.successDeliver {
        Dispatch(DeliverReset);
        RunOne(t1, DeliverReset);
      }
      ghost var t2 := state;
      assert t2 == Run(t1, d);
      if state.markDeliver {
        Dispatch(MarkReset);
        RunOne(t2, MarkReset);
      }
      assert state == Run(t2, m);
      RunAppend(t, p, d);
      RunAppend(t, p + d, m);
    }

    /** `onApprove` once PayPal has captured the payment. */
    method PayHandler(ok: bool, message: string)
      modifies this
      ensures dispatched == old(dispatched) + PayActions(ok, message)
      ensures state == Run(old(state), PayActions(ok, message))
      ensures navigations == old(navigations)
    {
      RunPair(state, PayRequest, PayActions(ok, message)[1]);
      Dispatch(PayRequest);
      if ok {
        Dispatch(PaySuccess);
      } else {
        Dispatch(PayFail(message));
      }
    }

    /** `deliverOrderHandler`. */
    method DeliverHandler(ok: bool)
      modifies this
      ensures dispatched == old(dispatched) + DeliverActions(ok)
      ensures state == Run(old(state), DeliverActions(ok))
      ensures navigations == old(navigations)
    {
      RunPair(state, DeliverRequest, DeliverActions(ok)[1]);
      Dispatch(DeliverRequest);
      if ok {
        Dispatch(DeliverSuccess);
      } else {
        Dispatch(DeliverFail);
      }
    }

    /** `markDeliveredHandler`. */
    method MarkHandler(ok: bool)
      modifies this
      ensures dispatched == old(dispatched) + MarkActions(ok)
      ensures state == Run(old(state), MarkActions(ok))
      ensures navigations == old(navigations)
    {
      RunPair(state, MarkRequest, MarkActions(ok)[1]);
      Dispatch(MarkRequest);
      if ok {
        Dispatch(MarkSuccess);
      } else {
        Dispatch(MarkFail);
      }
    }
  }
}
