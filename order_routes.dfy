/** The order routes of backend/routes/orderRoutes.js: creating an order,
    the three status setters, replacing items, bulk delete, and the
    `/mine` and `/delivered` queries.  The collection is a sequence in
    natural order with distinct ids; every route runs after `isAuth` (and
    `isAdmin` or `isInspector` where the route says so), which the Utils
    module models. */
module OrderRoutes {
  import opened Common
  import opened ProductModel
  import opened Orders
  import Server

  const NotFound: Response := Response(404, "Order Not Found")

  /** `populate('user')` leaves `null` for a deleted user, and reading
      `order.user.name` then throws a `TypeError`; the error middleware
      answers 500 with its message. */
  const MissingUser: Response := Server.ErrorMiddleware("Cannot read properties of null (reading 'name')")

  /** The body of `POST /api/orders`. */
  datatype OrderBody = OrderBody(
    orderItems: seq<CartItem>,
    shippingAddress: ShippingAddress,
    paymentMethod: string,
    itemsPrice: int,
    shippingPrice: int,
    taxPrice: int,
    totalPrice: int)

  /** `orderItems.map((x) => ({ ...x, product: x._id }))`. */
  function ToOrderItems(items: seq<CartItem>): (r: seq<OrderItem>)
    ensures |r| == |items|
    ensures forall i :: 0 <= i < |items| ==>
      r[i].line == items[i] && r[i].product == items[i].product.id
  {
    if items == [] then []
    else [OrderItem(items[0], items[0].product.id)] + ToOrderItems(items[1..])
  }

  /** The order `POST /api/orders` saves for the authenticated user.  It
      does not look at any product: stock is neither checked nor taken. */
  function NewOrder(id: Id, user: Id, body: OrderBody, now: int): (o: Order)
    ensures WellFormed(o)
    ensures o.id == id && o.user == user && o.createdAt == now
    ensures !o.isPaid && !o.isDelivered && !o.markDelivered
    ensures o.itemsPrice == body.itemsPrice && o.shippingPrice == body.shippingPrice
    ensures o.taxPrice == body.taxPrice && o.totalPrice == body.totalPrice
    ensures o.orderItems == ToOrderItems(body.orderItems)
    ensures o.shippingAddress == body.shippingAddress && o.paymentMethod == body.paymentMethod
    ensures |o.orderItems| == |body.orderItems|
    ensures forall i :: 0 <= i < |o.orderItems| ==>
      o.orderItems[i].line == body.orderItems[i] && o.orderItems[i].product == body.orderItems[i].product.id
  {
    Order(id, user, ToOrderItems(body.orderItems), body.shippingAddress, body.paymentMethod,
          body.itemsPrice, body.shippingPrice, body.taxPrice, body.totalPrice,
          false, None, None, false, None, false, now)
  }

  /** `PUT /:id/pay` on a found order: no already-paid check. */
  function Paid(o: Order, now: int, body: PaymentResult): (r: Order)
    ensures r.isPaid && r.paidAt == Some(now) && r.paymentResult == Some(body)
    ensures r.(isPaid := o.isPaid, paidAt := o.paidAt, paymentResult := o.paymentResult) == o
    ensures WellFormed(o) ==> WellFormed(r)
  {
    o.(isPaid := true, paidAt := Some(now), paymentResult := Some(body))
  }

  /** `PUT /:id/deliver` (the supplier ships): no paid precondition. */
  function Shipped(o: Order, now: int): (r: Order)
    ensures r.isDelivered && r.deliveredAt == Some(now)
    ensures r.(isDelivered := o.isDelivered, deliveredAt := o.deliveredAt) == o
    ensures WellFormed(o) ==> WellFormed(r)
  {
    o.(isDelivered := true, deliveredAt := Some(now))
  }

  /** `PUT /:id/markdeliver` (the inspector confirms): it overwrites the
      same `deliveredAt` the supplier set; no paid precondition. */
  function MarkedDelivered(o: Order, now: int): (r: Order)
    ensures r.markDelivered && r.deliveredAt == Some(now)
    ensures r.(markDelivered := o.markDelivered, deliveredAt := o.deliveredAt) == o
    ensures WellFormed(o) ==> WellFormed(r)
  {
    o.(markDelivered := true, deliveredAt := Some(now))
  }

  /** `PUT /update/:id`: only the items and the total are replaced; the
      other prices are left as they were. */
  function Updated(o: Order, items: seq<OrderItem>, totalPrice: int): (r: Order)
    ensures r.orderItems == items && r.totalPrice == totalPrice
    ensures r.(orderItems := o.orderItems, totalPrice := o.totalPrice) == o
    ensures WellFormed(o) ==> WellFormed(r)
  {
    o.(orderItems := items, totalPrice := totalPrice)
  }

  /** A second payment is accepted: it keeps `isPaid` and replaces the
      time and the payment record of the first. */
  lemma PaySecondTimeOverwrites(o: Order, t1: int, b1: PaymentResult, t2: int, b2: PaymentResult)
    ensures Paid(Paid(o, t1, b1), t2, b2) == Paid(o, t2, b2)
    ensures Paid(Paid(o, t1, b1), t2, b2).paidAt == Some(t2)
  {
  }

  /** Marking an order delivered after it was shipped replaces the
      shipping time; the order then shows both flags and one time. */
  lemma MarkOverwritesShipTime(o: Order, t1: int, t2: int)
    ensures MarkedDelivered(Shipped(o, t1), t2).deliveredAt == Some(t2)
    ensures MarkedDelivered(Shipped(o, t1), t2).isDelivered
  {
  }

  /** Neither shipping nor marking delivered looks at `isPaid`. */
  lemma UnpaidOrdersShipAndDeliver(o: Order, t: int)
    requires !o.isPaid
    ensures Shipped(o, t).isDelivered && !Shipped(o, t).isPaid
    ensures MarkedDelivered(o, t).markDelivered && !MarkedDelivered(o, t).isPaid
  {
  }

  /** The orders `deleteMany({ _id: { $in: ids } })` leaves in place. */
  function Remaining(os: seq<Order>, ids: seq<Id>): (r: seq<Order>)
    ensures forall o :: o in r <==> o in os && o.id !in ids
    ensures |r| <= |os|
    ensures |r| == |os| <==> forall o :: o in os ==> o.id !in ids
    ensures DistinctIds(os) ==> DistinctIds(r)
  {
    if os == [] then []
    else
      var rest := Remaining(os[1..], ids);
      assert forall o :: o in os <==> o == os[0] || o in os[1..];
      if os[0].id in ids then rest
      else
        DistinctCons(os, rest);
        [os[0]] + rest
  }

  /** Putting the head of a list of distinct ids before a selection of
      its tail keeps the ids distinct. */
  lemma DistinctCons(os: seq<Order>, rest: seq<Order>)
    requires os != [] && forall o :: o in rest ==> o in os[1..]
    ensures DistinctIds(os) && DistinctIds(rest) ==> DistinctIds([os[0]] + rest)
  {
    if DistinctIds(os) && DistinctIds(rest) {
      var r := [os[0]] + rest;
      forall i, j | 0 <= i < j < |r| ensures r[i].id != r[j].id {
        if i == 0 {
          assert r[j] == rest[j - 1] && r[j] in os[1..];
          var k :| 0 <= k < |os[1..]| && os[1..][k] == r[j];
          assert os[k + 1] == r[j];
        } else {
          assert r[i] == rest[i - 1] && r[j] == rest[j - 1];
        }
      }
    }
  }

  /** `GET /mine`: the requester's orders, in store order. */
  function Mine(os: seq<Order>, user: Id): (r: seq<Order>)
    ensures forall o :: o in r <==> o in os && o.user == user
  {
    Filter((o: Order) => o.user == user, os)
  }

  /** `Order.find({ markDelivered: true })`. */
  function DeliveredOrders(os: seq<Order>): (r: seq<Order>)
    ensures forall o :: o in r <==> o in os && o.markDelivered
  {
    Filter((o: Order) => o.markDelivered, os)
  }

  /** An order as `GET /api/orders` lists it: `user` replaced by the
      user's name, or by `null` when no such user exists any more. */
  datatype ListedOrder = ListedOrder(order: Order, userName: Option<string>)

  /** `.populate('user', 'name')` for one user id. */
  function NameOf(users: seq<UserInfo>, id: Id): (r: Option<string>)
    ensures r.Some? ==> exists i :: 0 <= i < |users| && users[i].id == id && users[i].name == r.value
    ensures r.None? ==> forall i :: 0 <= i < |users| ==> users[i].id != id
  {
    if users == [] then None
    else if users[0].id == id then Some(users[0].name)
    else NameOf(users[1..], id)
  }

  /** `GET /api/orders`: every order in store order, each with its user's
      name looked up. */
  function AllOrders(os: seq<Order>, users: seq<UserInfo>): (r: seq<ListedOrder>)
    ensures |r| == |os|
    ensures forall i :: 0 <= i < |os| ==> r[i].order == os[i] && r[i].userName == NameOf(users, os[i].user)
  {
    if os == [] then []
    else [ListedOrder(os[0], NameOf(users, os[0].user))] + AllOrders(os[1..], users)
  }

  /** What `.populate('orderItems.product', 'name category countInStock')`
      attaches to a line item. */
  datatype ProductRef = ProductRef(name: string, category: string, countInStock: int)

  datatype PopulatedItem = PopulatedItem(item: OrderItem, product: Option<ProductRef>)

  datatype PopulatedOrder = PopulatedOrder(order: Order, items: seq<PopulatedItem>)

  /** The referenced product, or nothing once it has been deleted. */
  function RefOf(ps: seq<Product>, id: Id): (r: Option<ProductRef>)
    ensures r.Some? <==> exists k :: 0 <= k < |ps| && ps[k].id == id
    ensures r.Some? ==> exists k :: (0 <= k < |ps| && ps[k].id == id
      && r.value == ProductRef(ps[k].name, ps[k].category, ps[k].countInStock))
  {
    match IndexOfProduct(ps, id)
    case None => None
    case Some(k) => Some(ProductRef(ps[k].name, ps[k].category, ps[k].countInStock))
  }

  function PopulateItems(items: seq<OrderItem>, ps: seq<Product>): (r: seq<PopulatedItem>)
    ensures |r| == |items|
    ensures forall i :: 0 <= i < |items| ==>
      r[i].item == items[i] && r[i].product == RefOf(ps, items[i].product)
  {
    if items == [] then []
    else [PopulatedItem(items[0], RefOf(ps, items[0].product))] + PopulateItems(items[1..], ps)
  }

  function PopulateOrders(os: seq<Order>, ps: seq<Product>): (r: seq<PopulatedOrder>)
    ensures |r| == |os|
    ensures forall i :: 0 <= i < |os| ==>
      r[i].order == os[i] && r[i].items == PopulateItems(os[i].orderItems, ps)
  {
    if os == [] then []
    else [PopulatedOrder(os[0], PopulateItems(os[0].orderItems, ps))] + PopulateOrders(os[1..], ps)
  }

  /** `GET /delivered`: exactly the orders an inspector marked delivered,
      each line item with its product looked up. */
  function Delivered(os: seq<Order>, ps: seq<Product>): (r: seq<PopulatedOrder>)
    ensures forall i :: 0 <= i < |r| ==> r[i].order in os && r[i].order.markDelivered
    ensures forall o :: o in os && o.markDelivered ==> exists i :: 0 <= i < |r| && r[i].order == o
  {
    var d := DeliveredOrders(os);
    var r := PopulateOrders(d, ps);
    assert forall o :: o in d ==> exists i :: 0 <= i < |r| && r[i].order == o;
    r
  }

  /** Once an order is marked delivered it is listed by `/delivered`. */
  lemma MarkedOrderIsListed(os: seq<Order>, i: nat, now: int, ps: seq<Product>)
    requires i < |os|
    ensures var d := Delivered(os[i := MarkedDelivered(os[i], now)], ps);
      exists k :: 0 <= k < |d| && d[k].order == MarkedDelivered(os[i], now)
  {
    var os' := os[i := MarkedDelivered(os[i], now)];
    var d := Delivered(os', ps);
    assert os'[i] == MarkedDelivered(os[i], now);
    assert os'[i] in os' && os'[i].markDelivered;
    var k :| 0 <= k < |d| && d[k].order == os'[i];
  }

  /** The order store: the `orders` collection and the id generator. */
  class OrderStore {
    var orders: seq<Order>
    var nextId: nat

    ghost predicate Valid()
      reads this
    {
      DistinctIds(orders)
      && forall i :: 0 <= i < |orders| ==> orders[i].id < nextId && WellFormed(orders[i])
    }

    constructor ()
      ensures Valid() && orders == []
    {
      orders := [];
      nextId := 0;
    }

    /** `POST /`: saves a new order for `user`; no product is read or written. */
    method Create(user: Id, body: OrderBody, now: int) returns (res: Response, order: Order)
      requires Valid()
      modifies this
      ensures Valid()
      ensures order == NewOrder(old(nextId), user, body, now)
      ensures orders == old(orders) + [order]
      ensures res == Response(201, "New Order Created")
    {
      order := NewOrder(nextId, user, body, now);
      orders := orders + [order];
      nextId := nextId + 1;
      res := Response(201, "New Order Created");
    }

    /** `GET /:id` (the confirmation mail it sends is not modelled).  Its
        recipient line reads `order.user.name`, which throws when the
        order's user has been deleted. */
    method Get(id: Id, users: seq<UserInfo>) returns (res: Response, order: Option<Order>)
      ensures order.Some? ==> order.value in orders && order.value.id == id && res.status == 200
      ensures (forall i :: 0 <= i < |orders| ==> orders[i].id != id) ==> res == NotFound && order.None?
      ensures match IndexOfOrder(orders, id)
        case None => res == NotFound && order.None?
        case Some(i) =>
          if NameOf(users, orders[i].user).Some?
          then res == Response(200, "") && order == Some(orders[i])
          else res == MissingUser && order.None?
    {
      match IndexOfOrder(orders, id)
      case None =>
        res, order := NotFound, None;
      case Some(i) =>
        if NameOf(users, orders[i].user).Some? {
          res, order := Response(200, ""), Some(orders[i]);
        } else {
          res, order := MissingUser, None;
        }
    }

    /** `PUT /:id/pay`.  `mailSent` is the outcome of the Mailgun call;
        a failure is only logged, so it has no effect on the reply.  The
        recipient line is built after the save, so an order whose user
        has been deleted is stored as paid and the reply is a 500. */
    method Pay(id: Id, now: int, body: PaymentResult, mailSent: bool, users: seq<UserInfo>)
      returns (res: Response, updated: Option<Order>)
      requires Valid()
      modifies this
      ensures Valid() && nextId == old(nextId)
      ensures match IndexOfOrder(old(orders), id)
        case None => res == NotFound && updated.None? && orders == old(orders)
        case Some(i) =>
          orders == old(orders)[i := Paid(old(orders)[i], now, body)]
          && if NameOf(users, old(orders)[i].user).Some?
             then updated == Some(orders[i]) && res == Response(200, "Order Paid")
             else updated.None? && res == MissingUser
    {
      match IndexOfOrder(orders, id)
      case None =>
        res, updated := NotFound, None;
      case Some(i) =>
        orders := orders[i := Paid(orders[i], now, body)];
        if NameOf(users, orders[i].user).Some? {
          updated := Some(orders[i]);
          res := Response(200, "Order Paid");
        } else {
          res, updated := MissingUser, None;
        }
    }

    /** `PUT /:id/deliver`. */
    method Deliver(id: Id, now: int) returns (res: Response)
      requires Valid()
      modifies this
      ensures Valid() && nextId == old(nextId)
      ensures match IndexOfOrder(old(orders), id)
        case None => res == NotFound && orders == old(orders)
        case Some(i) =>
          orders == old(orders)[i := Shipped(old(orders)[i], now)]
          && res == Response(200, "Order Delivered")
    {
      match IndexOfOrder(orders, id)
      case None =>
        res := NotFound;
      case Some(i) =>
        orders := orders[i := Shipped(orders[i], now)];
        res := Response(200, "Order Delivered");
    }

    /** `PUT /:id/markdeliver`. */
    method MarkDeliver(id: Id, now: int) returns (res: Response)
      requires Valid()
      modifies this
      ensures Valid() && nextId == old(nextId)
      ensures match IndexOfOrder(old(orders), id)
        case None => res == NotFound && orders == old(orders)
        case Some(i) =>
          orders == old(orders)[i := MarkedDelivered(old(orders)[i], now)]
          && res == Response(200, "Order Marked as Delivered")
    {
      match IndexOfOrder(orders, id)
      case None =>
        res := NotFound;
      case Some(i) =>
        orders := orders[i := MarkedDelivered(orders[i], now)];
        res := Response(200, "Order Marked as Delivered");
    }

    /** `PUT /update/:id`. */
    method Update(id: Id, items: seq<OrderItem>, totalPrice: int) returns (res: Response, updated: Option<Order>)
      requires Valid()
      modifies this
      ensures Valid() && nextId == old(nextId)
      ensures match IndexOfOrder(old(orders), id)
        case None => res == NotFound && updated.None? && orders == old(orders)
        case Some(i) =>
          orders == old(orders)[i := Updated(old(orders)[i], items, totalPrice)]
          && updated == Some(orders[i]) && res.status == 200
    {
      match IndexOfOrder(orders, id)
      case None =>
        res, updated := NotFound, None;
      case Some(i) =>
        orders := orders[i := Updated(orders[i], items, totalPrice)];
        updated := Some(orders[i]);
        res := Response(200, "");
    }

    /** `DELETE /` with body `{ orderIds }`.  A missing `orderIds` gives
        `$in: undefined`, which Mongoose casts to a list matching no
        order, so nothing is deleted. */
    method DeleteMany(orderIds: Option<seq<Id>>) returns (res: Response)
      requires Valid()
      modifies this
      ensures Valid() && nextId == old(nextId)
      ensures orderIds.None? ==> orders == old(orders)
      ensures orderIds.Some? ==> orders == Remaining(old(orders), orderIds.value)
      ensures |orders| < |old(orders)| ==>
        res == Response(200, "Selected orders deleted successfully")
      ensures |orders| == |old(orders)| ==>
        res == Response(404, "No orders were deleted")
    {
      match orderIds
      case None =>
        res := Response(404, "No orders were deleted");
      case Some(ids) =>
        var before := |orders|;
        orders := Remaining(orders, ids);
        if |orders| < before {
          res := Response(200, "Selected orders deleted successfully");
        } else {
          res := Response(404, "No orders were deleted");
        }
    }
  }
}
