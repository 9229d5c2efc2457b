/** The records that travel between the cart, the order routes and the
    screens: cart entries, order line items and orders.  The order schema
    file itself (orderModel.js) is not part of this model; the fields here
    are the ones the routes and screens read and write, and the three
    status flags start out false. */
module Orders {
  import opened Common
  import opened ProductModel

  /** A cart entry: the product's fields spread out, plus the chosen
      quantity and, when the product page added it, the selected variant
      and measurement (absent when the product card added it). */
  datatype CartItem = CartItem(
    product: Product,
    quantity: int,
    variant: Option<string>,
    measurement: Option<string>)

  /** An order line: the cart entry with `product` set to the entry's id. */
  datatype OrderItem = OrderItem(line: CartItem, product: Id)

  datatype ShippingAddress = ShippingAddress(
    fullName: string, address: string, city: string, postalCode: string, country: string)

  /** The payment record: the four fields copied from the request body,
      each possibly absent. */
  datatype PaymentResult = PaymentResult(
    id: Option<string>,
    status: Option<string>,
    updateTime: Option<string>,
    emailAddress: Option<string>)

  datatype Order = Order(
    id: Id,
    user: Id,
    orderItems: seq<OrderItem>,
    shippingAddress: ShippingAddress,
    paymentMethod: string,
    itemsPrice: int,
    shippingPrice: int,
    taxPrice: int,
    totalPrice: int,
    isPaid: bool,
    paidAt: Option<int>,
    paymentResult: Option<PaymentResult>,
    isDelivered: bool,
    deliveredAt: Option<int>,
    markDelivered: bool,
    createdAt: int)

  /** A flag that is set always comes with the timestamp it shows. */
  predicate WellFormed(o: Order)
  {
    (o.isPaid ==> o.paidAt.Some? && o.paymentResult.Some?)
    && (o.isDelivered ==> o.deliveredAt.Some?)
    && (o.markDelivered ==> o.deliveredAt.Some?)
  }

  predicate DistinctIds(os: seq<Order>)
  {
    forall i, j :: 0 <= i < j < |os| ==> os[i].id != os[j].id
  }

  /** Position of the order with identifier `id`, if any (`findById`). */
  function IndexOfOrder(os: seq<Order>, id: Id): (r: Option<nat>)
    ensures r.Some? ==> r.value < |os| && os[r.value].id == id
    ensures r.Some? ==> forall j :: 0 <= j < r.value ==> os[j].id != id
    ensures r.None? ==> forall j :: 0 <= j < |os| ==> os[j].id != id
  {
    if os == [] then None
    else if os[0].id == id then Some(0)
    else match IndexOfOrder(os[1..], id)
      case None => None
      case Some(k) => Some(k + 1)
  }
}
