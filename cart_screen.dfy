/** frontend/src/screens/CartScreen.js: updating a cart line after a stock
    check, removing a line, checkout, the quantity input's digit filter,
    the subtotal sums and the enablement of the -, + and Checkout
    buttons. */
module CartScreen {
  import opened Common
  import opened Text
  import opened ProductModel
  import opened Orders
  import opened CartRules

  /** The payload `updateCartHandler(item, quantity)` dispatches, or `None`
      when the fetched stock is below the requested quantity.  The line
      takes the fetched product's `variants` and `measurements` lists and
      keeps its own selected variant and measurement. */
  function UpdatePayload(item: CartItem, quantity: int, fetched: Product): (r: Option<CartItem>)
    ensures r.None? <==> Rejected(fetched.countInStock, quantity)
    ensures r.Some? ==>
      r.value.quantity == quantity
      && r.value.variant == item.variant && r.value.measurement == item.measurement
      && r.value.product.variants == fetched.variants
      && r.value.product.measurements == fetched.measurements
      && r.value.product.(variants := item.product.variants,
                          measurements := item.product.measurements) == item.product
  {
    if Rejected(fetched.countInStock, quantity) then None
    else
      Some(CartItem(item.product.(variants := fetched.variants, measurements := fetched.measurements),
                    quantity, item.variant, item.measurement))
  }

  /** `updateCartHandler`, given the product `GET /api/products/:id`
      returned: an alert and no dispatch when stock is short, otherwise
      one `CART_ADD_ITEM`. */
  method UpdateCart(fx: Effects, item: CartItem, quantity: int, fetched: Product)
    modifies fx
    ensures match UpdatePayload(item, quantity, fetched)
      case None =>
        fx.dispatched == old(fx.dispatched) && fx.alerts == old(fx.alerts) + [OutOfStockAlert]
      case Some(x) =>
        fx.dispatched == old(fx.dispatched) + [CartAddItem(x)] && fx.alerts == old(fx.alerts)
    ensures fx.navigations == old(fx.navigations)
  {
    if fetched.countInStock < quantity {
      fx.Alert(OutOfStockAlert);
      return;
    }
    fx.Dispatch(CartAddItem(CartItem(
      item.product.(variants := fetched.variants, measurements := fetched.measurements),
      quantity, item.variant, item.measurement)));
  }

  /** The variant and measurement selects call the handler with the line's
      own quantity and a third argument the handler does not take, so the
      chosen value never reaches the cart. */
  function ChoicePayload(item: CartItem, choice: string, fetched: Product): (r: Option<CartItem>)
    ensures r.Some? ==> r.value.variant == item.variant && r.value.measurement == item.measurement
  {
    UpdatePayload(item, item.quantity, fetched)
  }

  /** `removeItemHandler`. */
  method RemoveItem(fx: Effects, item: CartItem)
    modifies fx
    ensures fx.dispatched == old(fx.dispatched) + [CartRemoveItem(item)]
    ensures fx.alerts == old(fx.alerts) && fx.navigations == old(fx.navigations)
  {
    fx.Dispatch(CartRemoveItem(item));
  }

  const CheckoutTarget: string := "/signin?redirect=/shipping"

  /** `checkoutHandler`. */
  method Checkout(fx: Effects)
    modifies fx
    ensures fx.navigations == old(fx.navigations) + [CheckoutTarget]
    ensures fx.dispatched == old(fx.dispatched) && fx.alerts == old(fx.alerts)
  {
    fx.Navigate(CheckoutTarget);
  }

  /** The Checkout button is disabled on an empty cart. */
  predicate CheckoutDisabled(cart: seq<CartItem>)
  {
    |cart| == 0
  }

  /** `value.replace(/[^0-9]/g, '')`: every digit, in order, and nothing
      else. */
  function DigitsOnly(s: string): (r: string)
    ensures AllDigits(r) && |r| <= |s|
    ensures forall i :: 0 <= i < |s| && IsDigit(s[i]) ==> s[i] in r
    ensures forall i :: 0 <= i < |r| ==> r[i] in s
  {
    Filter(c => IsDigit(c), s)
  }

  /** The filter keeps the digits in their original order. */
  lemma DigitsOnlyAppend(a: string, b: string)
    ensures DigitsOnly(a + b) == DigitsOnly(a) + DigitsOnly(b)
  {
    FilterAppend(c => IsDigit(c), a, b);
  }

  /** Filtering twice is filtering once. */
  lemma DigitsOnlyIdempotent(s: string)
    ensures DigitsOnly(DigitsOnly(s)) == DigitsOnly(s)
  {
    FilterKeepsAll(c => IsDigit(c), DigitsOnly(s));
  }

  /** `Number(filtered)`: the quantity an input text asks for. */
  function QuantityFromInput(s: string): nat
  {
    ParseDigits(DigitsOnly(s))
  }

  /** Typing a number's decimal text asks for that number. */
  lemma InputOfNumber(n: nat)
    ensures QuantityFromInput(NatToString(n)) == n
  {
    FilterKeepsAll(c => IsDigit(c), NatToString(n));
    ParseNatToString(n);
  }

  /** An input with no digit becomes quantity 0, which the stock check
      rejects only for negative stock. */
  lemma NoDigitsMeansZero(s: string, stock: int)
    requires forall i :: 0 <= i < |s| ==> !IsDigit(s[i])
    ensures QuantityFromInput(s) == 0
    ensures Rejected(stock, QuantityFromInput(s)) <==> stock < 0
  {
    FilterDropsAll(c => IsDigit(c), s);
  }

  /** `cartItems.reduce((a, c) => a + c.quantity, 0)`. */
  function ItemCount(cart: seq<CartItem>): int
  {
    if cart == [] then 0 else ItemCount(cart[..|cart| - 1]) + cart[|cart| - 1].quantity
  }

  /** `cartItems.reduce((a, c) => a + c.price * c.quantity, 0)`. */
  function Amount(cart: seq<CartItem>): int
  {
    if cart == [] then 0
    else Amount(cart[..|cart| - 1]) + cart[|cart| - 1].product.price * cart[|cart| - 1].quantity
  }

  /** Both subtotals add up over any split of the cart. */
  lemma {:induction false} SubtotalsAppend(a: seq<CartItem>, b: seq<CartItem>)
    ensures ItemCount(a + b) == ItemCount(a) + ItemCount(b)
    ensures Amount(a + b) == Amount(a) + Amount(b)
  {
    if b == [] {
      assert a + b == a;
    } else {
      var b' := b[..|b| - 1];
      assert (a + b)[..|a + b| - 1] == a + b';
      SubtotalsAppend(a, b');
    }
  }

  /** A single line counts its own quantity and price times quantity. */
  lemma SubtotalsOfOne(x: CartItem)
    ensures ItemCount([x]) == x.quantity && Amount([x]) == x.product.price * x.quantity
  {
    assert [x][..0] == [];
  }

  /** With every quantity at least 1 the item count is at least the number
      of lines, and an empty cart counts nothing. */
  lemma {:induction false} ItemCountAtLeastLines(cart: seq<CartItem>)
    requires forall i :: 0 <= i < |cart| ==> cart[i].quantity >= 1
    ensures ItemCount(cart) >= |cart|
    ensures CheckoutDisabled(cart) ==> ItemCount(cart) == 0 && Amount(cart) == 0
  {
    if cart != [] {
      ItemCountAtLeastLines(cart[..|cart| - 1]);
    }
  }

  /** The - button is disabled only at quantity exactly 1. */
  predicate MinusDisabled(item: CartItem)
  {
    item.quantity == 1
  }

  /** The + button is disabled only when the quantity equals the line's
      stored `countInStock`. */
  predicate PlusDisabled(item: CartItem)
  {
    item.quantity == item.product.countInStock
  }

  /** Nothing keeps the quantity positive: at quantity 0 the - button is
      enabled and asks for -1, which any stock of at least -1 accepts. */
  lemma MinusGoesBelowZero(item: CartItem, fetched: Product)
    requires item.quantity == 0 && fetched.countInStock >= -1
    ensures !MinusDisabled(item)
    ensures UpdatePayload(item, item.quantity - 1, fetched).Some?
    ensures UpdatePayload(item, item.quantity - 1, fetched).value.quantity == -1
  {
  }

  /** Past the stored stock the + button is enabled again, and its request
      is rejected when the fetched stock is the stored one. */
  lemma PlusEnabledPastStock(item: CartItem, fetched: Product)
    requires item.quantity == item.product.countInStock + 1
    requires fetched.countInStock == item.product.countInStock
    ensures !PlusDisabled(item)
    ensures UpdatePayload(item, item.quantity + 1, fetched).None?
  {
  }
}
