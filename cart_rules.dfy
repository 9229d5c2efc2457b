/** What the cart screens and the product views share: the actions they
    send to the application store, the look-up of a product already in the
    cart, the requested quantity and the stock check, and a recorder for
    the effects a handler has (store dispatches, alerts, navigation).  The
    store's own reducer (Store.js) is not part of this model. */
module CartRules {
  import opened Common
  import opened ProductModel
  import opened Orders

  /** `CART_ADD_ITEM` and `CART_REMOVE_ITEM`. */
  datatype StoreAction = CartAddItem(item: CartItem) | CartRemoveItem(item: CartItem)

  const OutOfStockAlert: string := "Sorry, product is out of stock"

  /** `cartItems.find((x) => x._id === id)`. */
  function FindInCart(cart: seq<CartItem>, id: Id): (r: Option<CartItem>)
    ensures r.Some? ==> r.value in cart && r.value.product.id == id
    ensures r.None? ==> forall i :: 0 <= i < |cart| ==> cart[i].product.id != id
  {
    if cart == [] then None
    else if cart[0].product.id == id then Some(cart[0])
    else FindInCart(cart[1..], id)
  }

  /** `existItem ? existItem.quantity + 1 : 1`. */
  function RequestedQuantity(cart: seq<CartItem>, id: Id): int
  {
    match FindInCart(cart, id)
    case None => 1
    case Some(x) => x.quantity + 1
  }

  /** `data.countInStock < quantity`: the fetched stock cannot cover the
      request. */
  predicate Rejected(stock: int, quantity: int)
  {
    stock < quantity
  }

  /** One more unit than the cart holds is requested for a product already
      in the cart, and a single unit for a new one; a request that passes
      the check never exceeds the fetched stock. */
  lemma {:induction false} RequestedQuantityCounts(cart: seq<CartItem>, id: Id, stock: int)
    ensures (exists i :: 0 <= i < |cart| && cart[i].product.id == id) ==>
      exists i :: 0 <= i < |cart| && cart[i].product.id == id
        && RequestedQuantity(cart, id) == cart[i].quantity + 1
    ensures (forall i :: 0 <= i < |cart| ==> cart[i].product.id != id) ==> RequestedQuantity(cart, id) == 1
    ensures !Rejected(stock, RequestedQuantity(cart, id)) ==> RequestedQuantity(cart, id) <= stock
  {
    match FindInCart(cart, id)
    case None =>
    case Some(x) =>
      var i :| 0 <= i < |cart| && cart[i] == x;
  }

  /** The effects a handler has, in order. */
  class Effects {
    var dispatched: seq<StoreAction>
    var alerts: seq<string>
    var navigations: seq<string>

    constructor ()
      ensures dispatched == [] && alerts == [] && navigations == []
    {
      dispatched, alerts, navigations := [], [], [];
    }

    /** `ctxDispatch(action)`. */
    method Dispatch(a: StoreAction)
      modifies this
      ensures dispatched == old(dispatched) + [a]
      ensures alerts == old(alerts) && navigations == old(navigations)
    {
      dispatched := dispatched + [a];
    }

    /** `window.alert(message)`. */
    method Alert(message: string)
      modifies this
      ensures alerts == old(alerts) + [message]
      ensures dispatched == old(dispatched) && navigations == old(navigations)
    {
      alerts := alerts + [message];
    }

    /** `navigate(target)`. */
    method Navigate(target: string)
      modifies this
      ensures navigations == old(navigations) + [target]
      ensures dispatched == old(dispatched) && alerts == old(alerts)
    {
      navigations := navigations + [target];
    }
  }
}
