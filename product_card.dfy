/** frontend/src/component/Product.js: the product card's add-to-cart
    handler and its stock button. */
module ProductCard {
  import opened Common
  import opened ProductModel
  import opened Orders
  import opened CartRules

  /** `AddToCartHandler(item)` with `item` the card's product: one more
      unit than the cart holds, no variant and no measurement, and no
      navigation. */
  method AddToCart(fx: Effects, cart: seq<CartItem>, product: Product, fetched: Product)
    modifies fx
    ensures var q := RequestedQuantity(cart, product.id);
      if Rejected(fetched.countInStock, q) then
        fx.alerts == old(fx.alerts) + [OutOfStockAlert] && fx.dispatched == old(fx.dispatched)
      else
        fx.dispatched == old(fx.dispatched) + [CartAddItem(CartItem(product, q, None, None))]
        && fx.alerts == old(fx.alerts)
    ensures fx.navigations == old(fx.navigations)
  {
    var existItem := FindInCart(cart, product.id);
    var quantity := if existItem.Some? then existItem.value.quantity + 1 else 1;
    if fetched.countInStock < quantity {
      fx.Alert(OutOfStockAlert);
      return;
    }
    fx.Dispatch(CartAddItem(CartItem(product, quantity, None, None)));
  }

  /** `product.countInStock === 0`: the disabled "Out of stock" button
      replaces "Add to cart". */
  predicate ShowsOutOfStock(p: Product)
  {
    p.countInStock == 0
  }

  /** The card tests for zero, not for "at most zero": a negative stock
      shows the add button, and with that stock still on the server even a
      first unit is refused. */
  lemma NegativeStockShowsButton(cart: seq<CartItem>, p: Product)
    requires p.countInStock < 0 && FindInCart(cart, p.id).None?
    ensures !ShowsOutOfStock(p)
    ensures RequestedQuantity(cart, p.id) == 1 && Rejected(p.countInStock, RequestedQuantity(cart, p.id))
  {
  }
}
