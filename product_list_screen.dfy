/** frontend/src/screens/ProductListScreen.js: the supplier's paged
    product table with its page links, and the create and delete
    handlers. */
module ProductListScreen {
  import opened Common
  import opened Text
  import opened ProductModel
  import opened ProductRoutes

  /** The reducer's state; `products`, `page` and `pages` start
      `undefined` and are read only after a successful fetch. */
  datatype State = State(
    loading: bool, error: string,
    products: seq<Product>, page: int, pages: Option<int>,
    loadingCreate: bool, loadingDelete: bool, successDelete: bool)

  const Initial: State := State(true, "", [], 0, None, false, false, false)

  datatype Action =
    | FetchRequest | FetchSuccess(reply: Paged) | FetchFail(error: string)
    | CreateRequest | CreateSuccess | CreateFail
    | DeleteRequest | DeleteSuccess | DeleteFail | DeleteReset
    | Other(kind: string)

  /** The reducer.  `FETCH_SUCCESS` copies the reply's products, page and
      page count; the create actions touch only `loadingCreate`; here
      `DELETE_FAIL` also clears `successDelete`. */
  function Reduce(s: State, a: Action): (r: State)
    ensures a.FetchSuccess? ==>
      r == s.(products := a.reply.products, page := a.reply.page, pages := a.reply.pages, loading := false)
    ensures a.FetchFail? ==> r == s.(loading := false, error := a.error)
    ensures a.FetchRequest? ==> r == s.(loading := true)
    ensures a.CreateRequest? || a.CreateSuccess? || a.CreateFail? ==>
      r == s.(loadingCreate := a.CreateRequest?)
    ensures a.DeleteRequest? ==> r == s.(loadingDelete := true, successDelete := false)
    ensures a.DeleteSuccess? ==> r == s.(loadingDelete := false, successDelete := true)
    ensures a.DeleteFail? || a.DeleteReset? ==> r == s.(loadingDelete := false, successDelete := false)
    ensures a.Other? ==> r == s
  {
    match a
    case FetchRequest => s.(loading := true)
    case FetchSuccess(p) => s.(products := p.products, page := p.page, pages := p.pages, loading := false)
    case FetchFail(e) => s.(loading := false, error := e)
    case CreateRequest => s.(loadingCreate := true)
    case CreateSuccess => s.(loadingCreate := false)
    case CreateFail => s.(loadingCreate := false)
    case DeleteRequest => s.(loadingDelete := true, successDelete := false)
    case DeleteSuccess => s.(loadingDelete := false, successDelete := true)
    case DeleteFail => s.(loadingDelete := false, successDelete := false)
    case DeleteReset => s.(loadingDelete := false, successDelete := false)
    case Other(_) => s
  }

  /** `Number(sp.get('page') || 1)`: a missing or empty parameter is page
      1; digits are their value; anything else is `NaN`, written `None`. */
  function PageNumber(raw: Option<string>): (n: Option<nat>)
    ensures !Truthy(raw) ==> n == Some(1)
    ensures Truthy(raw) ==> (n.Some? <==> AllDigits(raw.value))
  {
    if !Truthy(raw) then Some(1) else NumberOf(raw)
  }

  /** One page link: its number, its target and whether it is bold. */
  datatype PageLink = PageLink(number: nat, target: string, bold: bool)

  function LinkTarget(n: nat): string
  {
    "/supplier/products?page=" + NatToString(n)
  }

  /** `[...Array(pages).keys()].map(...)`: links 1 to `pages`, bold where
      the number equals the current page. */
  function PageLinks(pages: nat, current: Option<nat>): (r: seq<PageLink>)
    ensures |r| == pages
    ensures forall x :: 0 <= x < pages ==>
      r[x].number == x + 1 && r[x].target == LinkTarget(x + 1)
      && (r[x].bold <==> current == Some(x + 1))
  {
    if pages == 0 then []
    else PageLinks(pages - 1, current) + [PageLink(pages, LinkTarget(pages), current == Some(pages))]
  }

  /** At most one link is bold, and one is exactly when the current page
      is between 1 and `pages`. */
  lemma OneBoldLink(pages: nat, current: Option<nat>)
    ensures forall x, y :: 0 <= x < y < pages ==>
      !(PageLinks(pages, current)[x].bold && PageLinks(pages, current)[y].bold)
    ensures (exists x :: 0 <= x < pages && PageLinks(pages, current)[x].bold) ==>
      current.Some? && 1 <= current.value <= pages
    ensures current.Some? && 1 <= current.value <= pages ==>
      exists x :: 0 <= x < pages && PageLinks(pages, current)[x].bold
  {
    var r := PageLinks(pages, current);
    if current.Some? && 1 <= current.value <= pages {
      var x := current.value - 1;
      assert 0 <= x < pages && r[x].bold;
    } else {
      forall x | 0 <= x < pages ensures !r[x].bold {
      }
    }
  }

  /** Following link `n` opens page `n`, which is then the bold one. */
  lemma LinkRoundTrip(pages: nat, x: nat)
    requires x < pages
    ensures PageNumber(Some(NatToString(x + 1))) == Some(x + 1)
    ensures PageLinks(pages, PageNumber(Some(NatToString(x + 1))))[x].bold
  {
    ParseNatToString(x + 1);
  }

  /** A toast: a success text, or an error built from the message given
      to `getError`. */
  datatype Toast = SuccessToast(text: string) | ErrorToast(message: string)

  /** The error toast as written: `getError(error)` passes the page's
      `error` field, not the caught request error. */
  function FailureToastAsWritten(pageError: string, caught: string): (t: Toast)
    ensures t.ErrorToast? && t.message == pageError
  {
    ErrorToast(pageError)
  }

  /** The error toast as evidently intended: `getError(err)`. */
  function FailureToast(pageError: string, caught: string): (t: Toast)
    ensures t.ErrorToast? && t.message == caught
  {
    ErrorToast(caught)
  }

  /** Two different server messages give the same toast as written; on a
      page without a fetch error that toast is empty.  The intended toast
      tells them apart. */
  lemma FailureToastIgnoresServer()
    ensures FailureToastAsWritten("", "Product Not Found") == FailureToastAsWritten("", "Request failed")
    ensures FailureToastAsWritten("", "Product Not Found").message == ""
    ensures FailureToast("", "Product Not Found") != FailureToast("", "Request failed")
  {
  }

  /** The effect step: `DELETE_RESET` after a delete, else the fetch. */
  function Refreshed(s: State, reply: PageResult): (r: State)
    ensures s.successDelete ==> r == s.(loadingDelete := false, successDelete := false)
    ensures !s.successDelete && reply.PageOk? ==>
      r.products == reply.reply.products && r.pages == reply.reply.pages && !r.loading
    ensures !s.successDelete && reply.PageError? ==> r == s
  {
    if s.successDelete then Reduce(s, DeleteReset)
    else match reply
      case PageOk(p) => Reduce(s, FetchSuccess(p))
      case PageError(_) => s
  }

  /** The fetch dispatches neither `FETCH_REQUEST` nor `FETCH_FAIL`: until
      a fetch succeeds the page keeps its loading box and never shows an
      error. */
  lemma FailedFetchKeepsLoading(reply: PageResult)
    requires reply.PageError?
    ensures Refreshed(Initial, reply).loading && Refreshed(Initial, reply).error == ""
  {
  }

  /** Product `k` of the catalog is listed on the page its link opens. */
  lemma ProductListedOnItsPage(ps: seq<Product>, k: nat)
    requires k < |ps|
    ensures var n := k / PageSize + 1;
      var s := Refreshed(Initial, SupplierPage(ps, PageQuery(Some(n), None), ""));
      !s.loading && k % PageSize < |s.products| && s.products[k % PageSize] == ps[k]
      && s.pages.Some? && 1 <= n <= s.pages.value
  {
    ProductOnItsPage(ps, PageSize, k);
    assert SupplierPage(ps, PageQuery(Some(k / PageSize + 1), None), "")
        == SupplierPage(ps, PageQuery(Some(k / PageSize + 1), Some(PageSize)), "");
  }

  class ProductListPage {
    var state: State
    var toasts: seq<Toast>
    var navigations: seq<string>

    constructor ()
      ensures state == Initial && toasts == [] && navigations == []
    {
      state, toasts, navigations := Initial, [], [];
    }

    /** The effect, run on mount and whenever the page parameter or
        `successDelete` changes. */
    method Refresh(reply: PageResult)
      modifies this
      ensures state == Refreshed(old(state), reply)
      ensures toasts == old(toasts) && navigations == old(navigations)
    {
      if state.successDelete {
        state := Reduce(state, DeleteReset);
      } else if reply.PageOk? {
        state := Reduce(state, FetchSuccess(reply.reply));
      }
    }

    /** `createHandler` against the product store: on success a toast, and
        the editor for the new product opens. */
    method Create(store: ProductStore, now: nat, dbError: string)
      requires store.Valid()
      modifies this, store
      ensures store.Valid()
      ensures var p := NewProduct(old(store.nextId), now);
        if ValidCatalog(old(store.products) + [p]) then
          store.products == old(store.products) + [p]
          && toasts == old(toasts) + [SuccessToast("product created successfully")]
          && navigations == old(navigations) + ["/supplier/product/" + NatToString(p.id)]
        else
          store.products == old(store.products)
          && toasts == old(toasts) + [FailureToast(old(state.error), dbError)]
          && navigations == old(navigations)
      ensures state == old(state).(loadingCreate := false)
    {
      state := Reduce(state, CreateRequest);
      var res, created := store.Create(now, dbError);
      if created.Some? {
        toasts := toasts + [SuccessToast("product created successfully")];
        state := Reduce(state, CreateSuccess);
        navigations := navigations + ["/supplier/product/" + NatToString(created.value.id)];
      } else {
        toasts := toasts + [FailureToast(state.error, res.message)];
        state := Reduce(state, CreateFail);
      }
    }

    /** `deleteHandler` against the product store: nothing happens unless
        the user confirms.  No `DELETE_REQUEST` is dispatched. */
    method Delete(id: Id, confirmed: bool, store: ProductStore)
      requires store.Valid()
      modifies this, store
      ensures store.Valid() && navigations == old(navigations)
      ensures !confirmed ==>
        store.products == old(store.products) && state == old(state) && toasts == old(toasts)
      ensures confirmed ==> forall p :: p in store.products <==> p in old(store.products) && p.id != id
      ensures confirmed && IndexOfProduct(old(store.products), id).Some? ==>
        toasts == old(toasts) + [SuccessToast("Product Removed!")]
        && state == old(state).(loadingDelete := false, successDelete := true)
      ensures confirmed && IndexOfProduct(old(store.products), id).None? ==>
        toasts == old(toasts) + [FailureToast(old(state.error), NotFound.message)]
        && state == old(state).(loadingDelete := false, successDelete := false)
    {
      if !confirmed {
        return;
      }
      var res := store.Delete(id);
      if res.status == 200 {
        toasts := toasts + [SuccessToast("Product Removed!")];
        state := Reduce(state, DeleteSuccess);
      } else {
        toasts := toasts + [FailureToast(state.error, res.message)];
        state := Reduce(state, DeleteFail);
      }
    }
  }
}
