/** frontend/src/screens/ProductScreen.js: the product page's reducer and
    fetch, what the page shows, the add-to-cart handler, the stock badge
    and the image gallery. */
module ProductScreen {
  import opened Common
  import opened ProductModel
  import opened Orders
  import opened CartRules

  /** The reducer's state; the initial `product: []` is `None`. */
  datatype State = State(loading: bool, error: string, product: Option<Product>)

  const Initial: State := State(true, "", None)

  datatype Action = FetchRequest | FetchSuccess(product: Product) | FetchFail(error: string) | Other(kind: string)

  /** The reducer.  Only `FETCH_FAIL` writes `error` and nothing clears it;
      only `FETCH_SUCCESS` writes `product`. */
  function Reduce(s: State, a: Action): (r: State)
    ensures r.error == (if a.FetchFail? then a.error else s.error)
    ensures r.product == (if a.FetchSuccess? then Some(a.product) else s.product)
    ensures r.loading == (if a.Other? then s.loading else a.FetchRequest?)
  {
    match a
    case FetchRequest => s.(loading := true)
    case FetchSuccess(p) => s.(product := Some(p), loading := false)
    case FetchFail(e) => s.(loading := false, error := e)
    case Other(_) => s
  }

  /** What `GET /api/products/slug/:slug` answered. */
  datatype Fetched = Got(product: Product) | FetchError(message: string)

  /** The effect for one slug: `FETCH_REQUEST`, then the outcome. */
  function Fetch(s: State, f: Fetched): State
  {
    var s1 := Reduce(s, FetchRequest);
    match f
    case Got(p) => Reduce(s1, FetchSuccess(p))
    case FetchError(e) => Reduce(s1, FetchFail(e))
  }

  /** The page body: the loading box, the error box, or the product. */
  datatype View = Loading | ErrorBox(message: string) | Page(product: Option<Product>)

  function ViewOf(s: State): View
  {
    if s.loading then Loading else if s.error != "" then ErrorBox(s.error) else Page(s.product)
  }

  /** A fetch always ends loading; a successful one shows the product
      unless an earlier failure left its error behind, and a failed one
      with a non-empty message shows that message. */
  lemma FetchSettles(s: State, f: Fetched)
    ensures !Fetch(s, f).loading
    ensures f.Got? && s.error == "" ==> ViewOf(Fetch(s, f)) == Page(Some(f.product))
    ensures f.Got? && s.error != "" ==> ViewOf(Fetch(s, f)) == ErrorBox(s.error)
    ensures f.FetchError? && f.message != "" ==> ViewOf(Fetch(s, f)) == ErrorBox(f.message)
  {
  }

  /** The first visit to a product that loads shows it. */
  lemma FirstVisitShowsProduct(p: Product)
    ensures ViewOf(Fetch(Initial, Got(p))) == Page(Some(p))
  {
  }

  /** Once a slug fails to load, moving to another slug that loads still
      shows the old error: the reducer never clears it. */
  lemma StaleErrorHidesNextProduct(e: string, p: Product, q: Product)
    requires e != ""
    ensures var s := Fetch(Fetch(Initial, Got(p)), FetchError(e));
      ViewOf(Fetch(s, Got(q))) == ErrorBox(e) && Fetch(s, Got(q)).product == Some(q)
  {
  }

  /** `addToCartHandler`, given the cart, the page's product, the two
      selects and the product `GET /api/products/:id` returned.  The stock
      check uses the fetched product; the line carries the page's copy. */
  method AddToCart(fx: Effects, cart: seq<CartItem>, product: Product,
                   selectedVariant: string, selectedMeasurement: string, fetched: Product)
    modifies fx
    ensures var q := RequestedQuantity(cart, product.id);
      if Rejected(fetched.countInStock, q) then
        fx.alerts == old(fx.alerts) + [OutOfStockAlert]
        && fx.dispatched == old(fx.dispatched) && fx.navigations == old(fx.navigations)
      else
        fx.dispatched == old(fx.dispatched)
          + [CartAddItem(CartItem(product, q, Some(selectedVariant), Some(selectedMeasurement)))]
        && fx.navigations == old(fx.navigations) + ["/cart"] && fx.alerts == old(fx.alerts)
  {
    var existItem := FindInCart(cart, product.id);
    var quantity := if existItem.Some? then existItem.value.quantity + 1 else 1;
    var payload := CartItem(product, quantity, Some(selectedVariant), Some(selectedMeasurement));
    if fetched.countInStock < quantity {
      fx.Alert(OutOfStockAlert);
      return;
    }
    fx.Dispatch(CartAddItem(payload));
    fx.Navigate("/cart");
  }

  /** The status badge reads "In Stock" and the Add to Cart button is
      shown exactly when the page's stock is positive. */
  predicate InStock(p: Product)
  {
    p.countInStock > 0
  }

  /** With the button shown and the stock unchanged since the page loaded,
      a product not yet in the cart is accepted; once the cart holds the
      whole stock, a further click is refused. */
  lemma AddToCartFollowsStock(cart: seq<CartItem>, p: Product, fetched: Product)
    requires InStock(p) && fetched.countInStock == p.countInStock
    ensures FindInCart(cart, p.id).None? ==> !Rejected(fetched.countInStock, RequestedQuantity(cart, p.id))
    ensures FindInCart(cart, p.id).Some? && FindInCart(cart, p.id).value.quantity >= p.countInStock ==>
      Rejected(fetched.countInStock, RequestedQuantity(cart, p.id))
  {
  }

  /** `[product.image, ...product.images]`: the thumbnails. */
  function Gallery(p: Product): (g: seq<string>)
    ensures |g| == |p.images| + 1 && g[0] == p.image && g[1..] == p.images
  {
    [p.image] + p.images
  }

  /** `selectedImage || product.image`. */
  function DisplayedImage(selected: string, p: Product): (img: string)
    ensures selected != "" ==> img == selected
    ensures selected == "" ==> img == p.image
  {
    if selected != "" then selected else p.image
  }

  /** Before any click the main image is the product's own; after clicking
      a thumbnail it is that thumbnail, so it is always one of the
      gallery's images. */
  lemma DisplayedImageInGallery(p: Product, selected: string)
    requires selected == "" || selected in Gallery(p)
    ensures DisplayedImage(selected, p) in Gallery(p)
    ensures selected == "" ==> DisplayedImage(selected, p) == p.image
  {
  }
}
