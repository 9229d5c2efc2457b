/** backend/routes/productRoutes.js: the product collection with its create,
    update and delete handlers, the two paginated listings (`/supplier` and
    `/search`) with the search filter and sort selection, and the lookups
    by slug and by id. */
module ProductRoutes {
  import opened Common
  import opened Text
  import opened ProductModel
  import OrderSummary
  import Server

  const NotFound: Response := Response(404, "Product Not Found")
  /** The lookups by slug and by id spell their 404 message differently. */
  const LookupNotFound: Response := Response(404, "Product not found")

  const PageSize: nat := 7

  // ---------------------------------------------------------------- update

  /** The body of `PUT /:id`; a field the client left out is `None`. */
  datatype ProductBody = ProductBody(
    name: Option<string>,
    slug: Option<string>,
    price: Option<int>,
    image: Option<string>,
    images: Option<seq<string>>,
    category: Option<string>,
    brand: Option<string>,
    countInStock: Option<int>,
    description: Option<string>)

  /** The nine assignments of the update handler.  A required field the
      body leaves out becomes `undefined`, which fails validation (`None`);
      an absent `images` list is simply emptied.  No bound is put on
      `countInStock` or `price`. */
  function Overwritten(p: Product, b: ProductBody, now: int): (r: Option<Product>)
    ensures r.Some? <==>
      b.name.Some? && b.slug.Some? && b.price.Some? && b.image.Some?
      && b.category.Some? && b.brand.Some? && b.countInStock.Some? && b.description.Some?
    ensures r.Some? ==>
      var q := r.value;
      q.name == b.name.value && q.slug == b.slug.value && q.price == b.price.value
      && q.image == b.image.value && q.category == b.category.value
      && q.brand == b.brand.value && q.countInStock == b.countInStock.value
      && q.description == b.description.value
      && q.images == (if b.images.Some? then b.images.value else [])
      && q.updatedAt == now
      && q.(name := p.name, slug := p.slug, price := p.price, image := p.image,
            images := p.images, category := p.category, brand := p.brand,
            countInStock := p.countInStock, description := p.description,
            updatedAt := p.updatedAt) == p
  {
    if b.name.None? || b.slug.None? || b.price.None? || b.image.None?
       || b.category.None? || b.brand.None? || b.countInStock.None? || b.description.None?
    then None
    else
      Some(p.(name := b.name.value, slug := b.slug.value, price := b.price.value,
              image := b.image.value,
              images := if b.images.Some? then b.images.value else [],
              category := b.category.value, brand := b.brand.value,
              countInStock := b.countInStock.value, description := b.description.value,
              updatedAt := now))
  }

  /** Two products created in the same millisecond collide on the unique
      `name` index, so the second save fails. */
  lemma SameMillisecondCreatesCollide(ps: seq<Product>, a: Id, b: Id, now: nat)
    ensures !ValidCatalog(ps + [NewProduct(a, now), NewProduct(b, now)])
  {
    NewProductKeysByTime(a, b, now, now);
    var s := ps + [NewProduct(a, now), NewProduct(b, now)];
    assert s[|ps|] == NewProduct(a, now) && s[|ps| + 1] == NewProduct(b, now);
  }

  /** With fresh identifiers, a new product can be saved exactly when no
      stored product already has its name or its slug. */
  lemma {:induction false} CreateAcceptedIff(ps: seq<Product>, id: Id, now: nat)
    requires ValidCatalog(ps)
    requires forall i :: 0 <= i < |ps| ==> ps[i].id < id
    ensures ValidCatalog(ps + [NewProduct(id, now)]) <==>
      forall i :: 0 <= i < |ps| ==>
        ps[i].name != NewProduct(id, now).name && ps[i].slug != NewProduct(id, now).slug
  {
    var p := NewProduct(id, now);
    var s := ps + [p];
    if forall i :: 0 <= i < |ps| ==> ps[i].name != p.name && ps[i].slug != p.slug {
      forall i, j | 0 <= i < j < |s|
        ensures s[i].id != s[j].id && s[i].name != s[j].name && s[i].slug != s[j].slug
      {
        assert s[i] == ps[i];
        if j < |ps| {
          assert s[j] == ps[j];
        }
      }
    } else {
      var i :| 0 <= i < |ps| && !(ps[i].name != p.name && ps[i].slug != p.slug);
      assert s[i] == ps[i] && s[|ps|] == p;
    }
  }

  // -------------------------------------------------------------- lookups

  /** Position of the first product with slug `slug`, if any. */
  function IndexBySlug(ps: seq<Product>, slug: string): (r: Option<nat>)
    ensures r.Some? ==> r.value < |ps| && ps[r.value].slug == slug
    ensures r.Some? ==> forall j :: 0 <= j < r.value ==> ps[j].slug != slug
    ensures r.None? ==> forall j :: 0 <= j < |ps| ==> ps[j].slug != slug
  {
    if ps == [] then None
    else if ps[0].slug == slug then Some(0)
    else match IndexBySlug(ps[1..], slug)
      case None => None
      case Some(k) => Some(k + 1)
  }

  /** `findOne({ slug })`. */
  function FindBySlug(ps: seq<Product>, slug: string): (r: Option<Product>)
    ensures r.Some? ==> r.value in ps && r.value.slug == slug
    ensures r.None? ==> forall i :: 0 <= i < |ps| ==> ps[i].slug != slug
  {
    match IndexBySlug(ps, slug)
    case None => None
    case Some(i) => Some(ps[i])
  }

  /** `findById`. */
  function FindById(ps: seq<Product>, id: Id): (r: Option<Product>)
    ensures r.Some? ==> r.value in ps && r.value.id == id
    ensures r.None? ==> forall i :: 0 <= i < |ps| ==> ps[i].id != id
  {
    match IndexOfProduct(ps, id)
    case None => None
    case Some(i) => Some(ps[i])
  }

  /** Because slugs and ids are unique, each stored product is what its own
      slug and its own id look up. */
  lemma LookupsFindEachProduct(ps: seq<Product>, k: nat)
    requires ValidCatalog(ps) && k < |ps|
    ensures FindBySlug(ps, ps[k].slug) == Some(ps[k])
    ensures FindById(ps, ps[k].id) == Some(ps[k])
  {
    var i := IndexBySlug(ps, ps[k].slug);
    assert i.Some?;
    assert i.value == k;
    var j := IndexOfProduct(ps, ps[k].id);
    assert j.Some?;
    assert j.value == k;
  }

  /** `GET /slug/:slug`. */
  function GetBySlug(ps: seq<Product>, slug: string): (r: (Response, Option<Product>))
    ensures r.1.Some? <==> exists i :: 0 <= i < |ps| && ps[i].slug == slug
    ensures r.1.Some? ==> r.0.status == 200 && r.1.value.slug == slug
    ensures r.1.None? ==> r.0 == LookupNotFound
  {
    match FindBySlug(ps, slug)
    case None => (LookupNotFound, None)
    case Some(p) => (Response(200, ""), Some(p))
  }

  /** `GET /:id`. */
  function GetById(ps: seq<Product>, id: Id): (r: (Response, Option<Product>))
    ensures r.1.Some? <==> exists i :: 0 <= i < |ps| && ps[i].id == id
    ensures r.1.Some? ==> r.0.status == 200 && r.1.value.id == id
    ensures r.1.None? ==> r.0 == LookupNotFound
  {
    match FindById(ps, id)
    case None => (LookupNotFound, None)
    case Some(p) => (Response(200, ""), Some(p))
  }

  /** `GET /categories`: `distinct('category')`. */
  function Categories(ps: seq<Product>): (r: set<string>)
    ensures forall i :: 0 <= i < |ps| ==> ps[i].category in r
    ensures forall c :: c in r ==> exists i :: 0 <= i < |ps| && ps[i].category == c
  {
    set i | 0 <= i < |ps| :: ps[i].category
  }

  lemma {:induction false} CountCategoryPositive(ps: seq<Product>, c: string)
    ensures OrderSummary.CountCategory(ps, c) > 0 <==> exists i :: 0 <= i < |ps| && ps[i].category == c
  {
    if ps != [] {
      CountCategoryPositive(ps[1..], c);
      if exists i :: 0 <= i < |ps| && ps[i].category == c {
        var i :| 0 <= i < |ps| && ps[i].category == c;
        if i > 0 {
          assert ps[1..][i - 1] == ps[i];
        }
      }
      if exists i :: 0 <= i < |ps[1..]| && ps[1..][i].category == c {
        var i :| 0 <= i < |ps[1..]| && ps[1..][i].category == c;
        assert ps[i + 1] == ps[1..][i];
      }
    }
  }

  /** The category list is exactly the key set of the summary's
      per-category counts. */
  lemma CategoriesAreSummaryKeys(ps: seq<Product>)
    ensures Categories(ps) == OrderSummary.ProductCategories(ps).Keys
  {
    forall c ensures c in Categories(ps) <==> c in OrderSummary.ProductCategories(ps) {
      CountCategoryPositive(ps, c);
    }
  }

  // ----------------------------------------------------------- pagination

  /** The query parameters `page` and `pageSize`; `None` stands for a
      missing or empty parameter, which `||` replaces by its default.
      Either may be negative. */
  datatype PageQuery = PageQuery(page: Option<int>, pageSize: Option<int>)

  /** A listing reply.  `pages` is `None` where `Math.ceil` would divide by
      a zero page size; a negative page size makes it zero or negative. */
  datatype Paged = Paged(products: seq<Product>, countProducts: nat, page: int, pages: Option<int>)

  datatype PageResult = PageOk(reply: Paged) | PageError(res: Response)

  /** `.skip(skip).limit(limit)`; a limit of 0 means no limit. */
  function Window<T>(s: seq<T>, skip: nat, limit: nat): (r: seq<T>)
    ensures limit > 0 ==> |r| <= limit
    ensures forall j :: 0 <= j < |r| ==> skip + j < |s| && r[j] == s[skip + j]
    ensures skip < |s| ==> |r| >= 1
    ensures skip + limit <= |s| && limit > 0 ==> |r| == limit
    ensures limit == 0 || skip + limit >= |s| ==> |r| == if skip < |s| then |s| - skip else 0
  {
    if skip >= |s| then []
    else if limit == 0 || skip + limit >= |s| then s[skip..]
    else s[skip..skip + limit]
  }

  /** `Math.ceil(count / size)`; for a negative size the quotient is at
      most zero and its ceiling is minus the floor of `count / -size`. */
  function PageCount(count: nat, size: int): (n: Option<int>)
    ensures size != 0 <==> n.Some?
    ensures size > 0 ==> n.value >= 0
    ensures size < 0 ==> n.value <= 0
  {
    if size == 0 then None
    else if size > 0 then Some((count + size - 1) / size)
    else Some(-(count / -size))
  }

  /** The page count is the ceiling of `count / size`: the least integer
      `n` with `count / size <= n`, written without division for either
      sign of `size`. */
  lemma {:induction false} PageCountIsCeiling(count: nat, size: int)
    requires size != 0
    ensures size > 0 ==>
      (PageCount(count, size).value - 1) * size < count <= PageCount(count, size).value * size
    ensures size < 0 ==>
      PageCount(count, size).value * size <= count < (PageCount(count, size).value - 1) * size
  {
    if size > 0 {
      var n := (count + size - 1) / size;
      var m := (count + size - 1) % size;
      assert n * size + m == count + size - 1;
      assert (n - 1) * size == n * size - size;
    } else {
      var d := -size;
      var a := count / d;
      var b := count % d;
      assert a * d + b == count;
      assert PageCount(count, size).value == -a;
      assert -a * size == a * d;
      assert (-a - 1) * size == a * d + d;
    }
  }

  /** `query.page || 1`. */
  function PageOf(q: PageQuery): int
  {
    if q.page.Some? then q.page.value else 1
  }

  /** `query.pageSize || PAGE_SIZE`. */
  function SizeOf(q: PageQuery): int
  {
    if q.pageSize.Some? then q.pageSize.value else PageSize
  }

  /** The number of documents `.limit(pageSize)` lets through: MongoDB
      reads a negative limit as its absolute value returned in a single
      batch. */
  function LimitOf(q: PageQuery): (n: nat)
    ensures n == 0 <==> SizeOf(q) == 0
    ensures n == SizeOf(q) || n == -SizeOf(q)
  {
    if SizeOf(q) < 0 then -SizeOf(q) else SizeOf(q)
  }

  /** `pageSize * (page - 1)`. */
  function SkipOf(q: PageQuery): int
  {
    SizeOf(q) * (PageOf(q) - 1)
  }

  /** `skip(pageSize * (page - 1)).limit(pageSize)` and the reply built
      around it.  MongoDB rejects a negative skip; the error reaches the
      error middleware, which answers 500 with the driver's text
      `dbError`. */
  function Paginate(all: seq<Product>, q: PageQuery, dbError: string): (r: PageResult)
    ensures r.PageError? <==> SkipOf(q) < 0
    ensures r.PageError? ==> r.res == Server.ErrorMiddleware(dbError)
    ensures r.PageOk? ==> r.reply.products == Window(all, SkipOf(q), LimitOf(q))
    ensures r.PageOk? ==>
      r.reply.countProducts == |all| && r.reply.page == PageOf(q)
      && r.reply.pages == PageCount(|all|, SizeOf(q))
    ensures r.PageOk? && q.pageSize.None? ==> |r.reply.products| <= PageSize
    ensures r.PageOk? && SizeOf(q) != 0 ==> |r.reply.products| <= LimitOf(q)
    ensures r.PageOk? && SizeOf(q) < 0 ==> r.reply.pages.value <= 0
    ensures r.PageOk? ==> forall j :: 0 <= j < |r.reply.products| ==> r.reply.products[j] in all
  {
    var skip := SkipOf(q);
    if skip < 0 then PageError(Server.ErrorMiddleware(dbError))
    else PageOk(Paged(Window(all, skip, LimitOf(q)), |all|, PageOf(q), PageCount(|all|, SizeOf(q))))
  }

  /** `GET /supplier`: a page of the whole collection. */
  function SupplierPage(ps: seq<Product>, q: PageQuery, dbError: string): (r: PageResult)
    ensures r.PageOk? ==> r.reply.countProducts == |ps|
  {
    Paginate(ps, q, dbError)
  }

  lemma DivBounds(k: nat, size: nat)
    requires size > 0
    ensures size * (k / size) <= k < size * (k / size + 1)
    ensures k - size * (k / size) == k % size
  {
    assert k == size * (k / size) + k % size;
  }

  lemma MulCancelLess(a: int, b: int, c: int)
    requires c > 0 && c * a < c * b
    ensures a < b
  {
  }

  /** An index inside the window's range is in the window. */
  lemma WindowAt<T>(s: seq<T>, skip: nat, limit: nat, i: nat)
    requires limit > 0 && skip <= i < |s| && i < skip + limit
    ensures i - skip < |Window(s, skip, limit)| && Window(s, skip, limit)[i - skip] == s[i]
  {
  }

  /** With a positive page size, product `k` is on page `k / size + 1`, at
      position `k % size`, and that page is within `pages`. */
  lemma {:induction false} ProductOnItsPage(ps: seq<Product>, size: nat, k: nat)
    requires size > 0 && k < |ps|
    ensures var r := SupplierPage(ps, PageQuery(Some(k / size + 1), Some(size)), "");
      r.PageOk? && k % size < |r.reply.products| && r.reply.products[k % size] == ps[k]
      && 1 <= k / size + 1 <= r.reply.pages.value
  {
    var p := k / size + 1;
    var q := PageQuery(Some(p), Some(size));
    DivBounds(k, size);
    assert SkipOf(q) == size * (k / size);
    var skip: nat := SkipOf(q);
    assert LimitOf(q) == size;
    WindowAt(ps, skip, size, k);
    PageCountIsCeiling(|ps|, size);
    var n := PageCount(|ps|, size).value;
    assert size * (p - 1) < size * n;
    MulCancelLess(p - 1, n, size);
  }

  /** A negative page size `-n` on the first page lists the first `n`
      products, as `.limit(-n)` does, and reports as page count minus the
      number of full pages of `n`; the second page asks for a negative
      skip and fails. */
  lemma {:induction false} NegativePageSize(ps: seq<Product>, n: nat)
    requires n > 0
    ensures var r := SupplierPage(ps, PageQuery(Some(1), Some(-(n as int))), "");
      r.PageOk? && r.reply.products == ps[..if |ps| < n then |ps| else n]
      && r.reply.pages.value <= 0
      && -r.reply.pages.value * n <= |ps| < (-r.reply.pages.value + 1) * n
    ensures SupplierPage(ps, PageQuery(Some(2), Some(-(n as int))), "").PageError?
  {
    var q := PageQuery(Some(1), Some(-(n as int)));
    assert SkipOf(q) == 0;
    assert LimitOf(q) == n;
    var w := Window(ps, 0, n);
    var m := if |ps| < n then |ps| else n;
    assert |w| == m;
    assert w == ps[..m];
    var size: int := -(n as int);
    PageCountIsCeiling(|ps|, size);
    var v := PageCount(|ps|, size).value;
    assert -v * n == v * size;
    assert (-v + 1) * n == (v - 1) * size;
    assert SkipOf(PageQuery(Some(2), Some(size))) == size;
  }

  /** The window `[size * (page - 1), size * page)` holds index `k` only
      for `page == k / size + 1`. */
  lemma {:induction false} PageOfIndex(size: nat, k: nat, page: int)
    requires size > 0
    requires size * (page - 1) <= k < size * (page - 1) + size
    ensures page == k / size + 1
  {
    var p := k / size + 1;
    assert size * (page - 1) + size == size * page;
    DivBounds(k, size);
    MulCancelLess(page - 1, p, size);
    MulCancelLess(p - 1, page, size);
  }

  /** With unique identifiers a product sits at one position only. */
  lemma SameProductSameIndex(ps: seq<Product>, i: nat, k: nat)
    requires UniqueKeys(ps) && i < |ps| && k < |ps|
    ensures ps[i] == ps[k] ==> i == k
  {
    if i < k {
      assert ps[i].id != ps[k].id;
    } else if k < i {
      assert ps[k].id != ps[i].id;
    }
  }

  /** Identifiers being unique, no page of `/supplier` other than
      `k / size + 1` lists product `k`. */
  lemma {:induction false} ProductOnOnePage(ps: seq<Product>, q: PageQuery, k: nat, dbError: string)
    requires ValidCatalog(ps) && k < |ps| && SizeOf(q) > 0
    ensures var r := SupplierPage(ps, q, dbError);
      r.PageOk? && ps[k] in r.reply.products ==> PageOf(q) == k / SizeOf(q) + 1
  {
    var r := SupplierPage(ps, q, dbError);
    if r.PageOk? && ps[k] in r.reply.products {
      var skip: nat := SkipOf(q);
      var w := Window(ps, skip, LimitOf(q));
      assert r.reply.products == w;
      var j :| 0 <= j < |w| && w[j] == ps[k];
      SameProductSameIndex(ps, skip + j, k);
      PageOfIndex(SizeOf(q), k, PageOf(q));
    }
  }

  // --------------------------------------------------------------- search

  /** The query parameters of `/search`; a missing parameter is `""`. */
  datatype SearchQuery = SearchQuery(
    pageSize: Option<int>, page: Option<int>,
    category: string, price: string, order: string, query: string)

  /** A filter is applied only when its parameter is truthy and not 'all'. */
  function Active(v: string): (b: bool)
    ensures b <==> Truthy(Some(v)) && v != "all"
  {
    v != "" && v != "all"
  }

  /** The name filter: a case-insensitive match of the query text. */
  function NameMatches(p: Product, query: string): (b: bool)
    ensures !Active(query) ==> b
    ensures Active(query) ==> (b <==> ContainsIgnoreCase(p.name, query))
  {
    Active(query) ==> ContainsIgnoreCase(p.name, query)
  }

  /** The category filter: an exact match. */
  function CategoryMatches(p: Product, category: string): (b: bool)
    ensures b <==> !Active(category) || p.category == category
  {
    Active(category) ==> p.category == category
  }

  /** The text before the first '-' (`split('-')[0]`). */
  function UpToDash(s: string): (r: string)
    ensures |r| <= |s| && r == s[..|r|] && '-' !in r
  {
    if s == [] || s[0] == '-' then [] else [s[0]] + UpToDash(s[1..])
  }

  /** The text after the first '-', if there is one. */
  function AfterDash(s: string): (r: Option<string>)
    ensures r.None? <==> '-' !in s
  {
    if s == [] then None
    else if s[0] == '-' then Some(s[1..])
    else AfterDash(s[1..])
  }

  /** `Number` of a `split('-')` piece: absent (`undefined`) and any text
      that is not decimal digits are `NaN`, written `None`; `''` is 0. */
  function NumberOf(part: Option<string>): (n: Option<nat>)
    ensures n.Some? <==> part.Some? && AllDigits(part.value)
  {
    if part.Some? && AllDigits(part.value) then Some(ParseDigits(part.value)) else None
  }

  /** `Number` reads back the decimal text of a number. */
  lemma NumberOfNatToString(k: nat)
    ensures NumberOf(Some(NatToString(k))) == Some(k)
  {
    ParseNatToString(k);
  }

  /** `$gte: Number(split[0])` and `$lte: Number(split[1])`. */
  function PriceBounds(price: string): (b: (Option<nat>, Option<nat>))
    ensures b.0.Some? <==> AllDigits(UpToDash(price))
    ensures '-' !in price ==> b.1.None?
  {
    (NumberOf(Some(UpToDash(price))),
     NumberOf(match AfterDash(price) case None => None case Some(t) => Some(UpToDash(t))))
  }

  /** An active price parameter with a `NaN` bound: Mongoose cannot cast
      the filter to a number, and the query fails. */
  predicate PriceRejected(price: string)
  {
    Active(price) && (PriceBounds(price).0.None? || PriceBounds(price).1.None?)
  }

  /** The price filter, for a parameter whose bounds are numbers. */
  function PriceMatches(p: Product, price: string): (b: bool)
    ensures !Active(price) ==> b
    ensures Active(price) && b ==> !PriceRejected(price)
  {
    Active(price) ==>
      var (lo, hi) := PriceBounds(price);
      lo.Some? && hi.Some? && lo.value <= p.price <= hi.value
  }

  /** The combined filter `{ ...queryFilter, ...categoryFilter, ...priceFilter }`:
      the three filters use different paths, so a product must pass each
      active one, and with none active every product passes. */
  function Matches(p: Product, q: SearchQuery): (b: bool)
    ensures b <==>
      NameMatches(p, q.query) && CategoryMatches(p, q.category) && PriceMatches(p, q.price)
    ensures !Active(q.query) && !Active(q.category) && !Active(q.price) ==> b
  {
    NameMatches(p, q.query) && CategoryMatches(p, q.category) && PriceMatches(p, q.price)
  }

  /** A name that contains the query text verbatim passes the name filter. */
  lemma NameWithQueryMatches(p: Product, before: string, query: string, after: string)
    requires p.name == before + query + after
    ensures NameMatches(p, query)
  {
    var k := |before|;
    var low := LowerString(p.name);
    forall i | 0 <= i < |query| ensures low[k + i] == LowerString(query)[i] {
      assert p.name[k + i] == query[i];
    }
    assert low[k..k + |query|] == LowerString(query);
    assert OccursAt(low, LowerString(query), k);
  }

  lemma DigitsHaveNoDash(s: string)
    requires AllDigits(s)
    ensures '-' !in s
  {
    assert forall i :: 0 <= i < |s| ==> s[i] != '-';
  }

  lemma {:induction false} SplitAtDash(a: string, b: string)
    requires '-' !in a
    ensures UpToDash(a + "-" + b) == a
    ensures AfterDash(a + "-" + b) == Some(b)
  {
    if a != [] {
      assert (a + "-" + b)[1..] == a[1..] + "-" + b;
      SplitAtDash(a[1..], b);
    } else {
      assert a + "-" + b == ['-'] + b;
    }
  }

  lemma {:induction false} UpToDashWhole(s: string)
    requires '-' !in s
    ensures UpToDash(s) == s
  {
    if s != [] {
      UpToDashWhole(s[1..]);
    }
  }

  /** The bounds of `lo-hi` are `lo` and `hi`. */
  lemma PriceBoundsOfRange(lo: nat, hi: nat)
    ensures PriceBounds(NatToString(lo) + "-" + NatToString(hi)) == (Some(lo), Some(hi))
    ensures !PriceRejected(NatToString(lo) + "-" + NatToString(hi))
  {
    var a, b := NatToString(lo), NatToString(hi);
    DigitsHaveNoDash(a);
    DigitsHaveNoDash(b);
    SplitAtDash(a, b);
    UpToDashWhole(b);
    NumberOfNatToString(lo);
    NumberOfNatToString(hi);
  }

  /** A price parameter `lo-hi` keeps exactly the products priced from `lo`
      to `hi` inclusive. */
  lemma PriceRangeKeeps(p: Product, lo: nat, hi: nat)
    ensures PriceMatches(p, NatToString(lo) + "-" + NatToString(hi)) <==> lo <= p.price <= hi
  {
    var price := NatToString(lo) + "-" + NatToString(hi);
    PriceBoundsOfRange(lo, hi);
    assert price[|NatToString(lo)|] == '-';
    assert Active(price) by {
      assert '-' in price;
    }
  }

  /** A price parameter with no dash has no upper bound (`Number(undefined)`
      is `NaN`), and one whose first piece is not a number has no lower
      bound: the search answers 500. */
  lemma PriceWithNaNFails(ps: seq<Product>, q: SearchQuery, dbError: string)
    requires Active(q.price)
    requires '-' !in q.price || !AllDigits(UpToDash(q.price))
    ensures Search(ps, q, dbError) == PageError(Server.ErrorMiddleware(dbError))
  {
  }

  // ----------------------------------------------------------------- sort

  datatype SortField = Featured | Price | Rating | CreatedAt | IdField
  datatype SortSpec = SortSpec(field: SortField, dir: SortDir)

  /** The `sortOrder` chain of ternaries. */
  function SortFor(order: string): (s: SortSpec)
    ensures s.dir == Asc <==> order == "lowest"
    ensures s.field == IdField <==>
      order != "featured" && order != "lowest" && order != "highest"
      && order != "toprated" && order != "newest"
  {
    if order == "featured" then SortSpec(Featured, Desc)
    else if order == "lowest" then SortSpec(Price, Asc)
    else if order == "highest" then SortSpec(Price, Desc)
    else if order == "toprated" then SortSpec(Rating, Desc)
    else if order == "newest" then SortSpec(CreatedAt, Desc)
    else SortSpec(IdField, Desc)
  }

  /** The ascending sort key.  `featured` and `rating` are not schema paths,
      so every product has the same (missing) value for them. */
  function Key(p: Product, s: SortSpec): int
  {
    var v := match s.field
      case Featured => 0
      case Price => p.price
      case Rating => 0
      case CreatedAt => p.createdAt
      case IdField => p.id;
    if s.dir == Asc then v else -v
  }

  predicate SortedBy(ps: seq<Product>, s: SortSpec)
  {
    forall i, j :: 0 <= i < j < |ps| ==> Key(ps[i], s) <= Key(ps[j], s)
  }

  lemma SortedCons(x: Product, t: seq<Product>, s: SortSpec)
    requires SortedBy(t, s) && (t != [] ==> Key(x, s) <= Key(t[0], s))
    ensures SortedBy([x] + t, s)
  {
    var r := [x] + t;
    forall i, j | 0 <= i < j < |r| ensures Key(r[i], s) <= Key(r[j], s) {
      if i == 0 {
        assert r[j] == t[j - 1];
      } else {
        assert r[i] == t[i - 1] && r[j] == t[j - 1];
      }
    }
  }

  function InsertByKey(p: Product, ps: seq<Product>, s: SortSpec): (r: seq<Product>)
    requires SortedBy(ps, s)
    ensures SortedBy(r, s) && multiset(r) == multiset(ps) + multiset{p}
    ensures |r| == |ps| + 1
    ensures r[0] == p || (ps != [] && r[0] == ps[0])
  {
    if ps == [] then [p]
    else if Key(p, s) <= Key(ps[0], s) then
      SortedCons(p, ps, s);
      [p] + ps
    else
      SortedTail(ps, s);
      var rest := InsertByKey(p, ps[1..], s);
      assert |ps| > 1 ==> Key(ps[0], s) <= Key(ps[1], s);
      assert Key(ps[0], s) <= Key(rest[0], s);
      SortedCons(ps[0], rest, s);
      assert ps == [ps[0]] + ps[1..];
      [ps[0]] + rest
  }

  lemma SortedTail(ps: seq<Product>, s: SortSpec)
    requires ps != [] && SortedBy(ps, s)
    ensures SortedBy(ps[1..], s)
  {
    forall i, j | 0 <= i < j < |ps| - 1 ensures Key(ps[1..][i], s) <= Key(ps[1..][j], s) {
      assert ps[1..][i] == ps[i + 1] && ps[1..][j] == ps[j + 1];
    }
  }

  /** `.sort(sortOrder)`: ordered by the key, a permutation of the input. */
  function SortByKey(ps: seq<Product>, s: SortSpec): (r: seq<Product>)
    ensures SortedBy(r, s) && multiset(r) == multiset(ps) && |r| == |ps|
  {
    if ps == [] then []
    else
      assert ps == [ps[0]] + ps[1..];
      InsertByKey(ps[0], SortByKey(ps[1..], s), s)
  }

  /** Every window of a sorted list is sorted. */
  lemma WindowSorted(s: seq<Product>, spec: SortSpec)
    requires SortedBy(s, spec)
    ensures forall skip: nat, limit: nat :: SortedBy(Window(s, skip, limit), spec)
  {
    forall skip: nat, limit: nat ensures SortedBy(Window(s, skip, limit), spec) {
      var w := Window(s, skip, limit);
      forall i, j | 0 <= i < j < |w| ensures Key(w[i], spec) <= Key(w[j], spec) {
        assert w[i] == s[skip + i] && w[j] == s[skip + j];
      }
    }
  }

  /** The products the combined filter keeps, in stored order. */
  function Hits(ps: seq<Product>, q: SearchQuery): (h: seq<Product>)
    ensures forall x :: x in h ==> Matches(x, q) && x in ps
    ensures forall i :: 0 <= i < |ps| && Matches(ps[i], q) ==> ps[i] in h
  {
    Filter(p => Matches(p, q), ps)
  }

  /** Sorting the hits keeps exactly stored, matching products. */
  lemma SortedHitsMatch(ps: seq<Product>, q: SearchQuery)
    ensures forall x :: x in SortByKey(Hits(ps, q), SortFor(q.order)) ==> Matches(x, q) && x in ps
  {
    var h := Hits(ps, q);
    var sorted := SortByKey(h, SortFor(q.order));
    forall x | x in sorted ensures Matches(x, q) && x in ps {
      assert x in multiset(sorted);
      assert x in multiset(h);
    }
  }

  /** `GET /search`: unless a price bound is `NaN`, the matching products,
      sorted by the chosen key, then paginated like `/supplier`; the count
      uses the same combined filter. */
  function Search(ps: seq<Product>, q: SearchQuery, dbError: string): (r: PageResult)
    ensures r.PageError? <==> PriceRejected(q.price) || SkipOf(PageQuery(q.page, q.pageSize)) < 0
    ensures r.PageError? ==> r.res == Server.ErrorMiddleware(dbError)
    ensures r.PageOk? ==> r.reply.countProducts == |Hits(ps, q)|
    ensures r.PageOk? ==>
      r.reply.products == Window(SortByKey(Hits(ps, q), SortFor(q.order)),
                                 SkipOf(PageQuery(q.page, q.pageSize)), LimitOf(PageQuery(q.page, q.pageSize)))
    ensures r.PageOk? ==> SortedBy(r.reply.products, SortFor(q.order))
    ensures r.PageOk? ==>
      r.reply.page == PageOf(PageQuery(q.page, q.pageSize))
      && r.reply.pages == PageCount(r.reply.countProducts, SizeOf(PageQuery(q.page, q.pageSize)))
    ensures r.PageOk? ==> forall j :: 0 <= j < |r.reply.products| ==>
      Matches(r.reply.products[j], q) && r.reply.products[j] in ps
    ensures r.PageOk? && q.pageSize.None? ==> |r.reply.products| <= PageSize
    ensures r.PageOk? && q.pageSize.Some? && q.pageSize.value > 0 ==>
      |r.reply.products| <= q.pageSize.value
    ensures r.PageOk? && q.pageSize.Some? && q.pageSize.value < 0 ==>
      |r.reply.products| <= -q.pageSize.value && r.reply.pages.value <= 0
  {
    if PriceRejected(q.price) then PageError(Server.ErrorMiddleware(dbError))
    else
      var sorted := SortByKey(Hits(ps, q), SortFor(q.order));
      SortedHitsMatch(ps, q);
      WindowSorted(sorted, SortFor(q.order));
      Paginate(sorted, PageQuery(q.page, q.pageSize), dbError)
  }

  // ---------------------------------------------------------------- store

  /** Removing one product keeps the catalog valid and drops exactly the
      products with that product's identifier. */
  lemma RemoveAt(ps: seq<Product>, i: nat)
    requires ValidCatalog(ps) && i < |ps|
    ensures ValidCatalog(ps[..i] + ps[i + 1..])
    ensures forall p :: p in ps[..i] + ps[i + 1..] <==> p in ps && p.id != ps[i].id
  {
    var r := ps[..i] + ps[i + 1..];
    assert forall j :: 0 <= j < |r| ==> r[j] == ps[if j < i then j else j + 1];
    forall p | p in ps && p.id != ps[i].id ensures p in r {
      var j :| 0 <= j < |ps| && ps[j] == p;
      assert r[if j < i then j else j - 1] == p;
    }
  }

  /** The product collection. */
  class ProductStore {
    var products: seq<Product>
    var nextId: nat

    ghost predicate Valid()
      reads this
    {
      ValidCatalog(products) && forall i :: 0 <= i < |products| ==> products[i].id < nextId
    }

    constructor ()
      ensures Valid() && products == []
    {
      products := [];
      nextId := 0;
    }

    /** `POST /`: saves a product with the default fields, named after the
        current time; the save fails on a name or slug already taken, and
        the error middleware answers with the database's text `dbError`. */
    method Create(now: nat, dbError: string) returns (res: Response, created: Option<Product>)
      requires Valid()
      modifies this
      ensures Valid()
      ensures var p := NewProduct(old(nextId), now);
        if ValidCatalog(old(products) + [p])
        then products == old(products) + [p] && created == Some(p)
             && res == Response(200, "Product Created")
        else products == old(products) && created.None? && res == Server.ErrorMiddleware(dbError)
    {
      var p := NewProduct(nextId, now);
      if ValidCatalog(products + [p]) {
        products := products + [p];
        nextId := nextId + 1;
        res, created := Response(200, "Product Created"), Some(p);
      } else {
        res, created := Server.ErrorMiddleware(dbError), None;
      }
    }

    /** `PUT /:id`: overwrites the nine fields from the body and saves; a
        rejected save reaches the error middleware. */
    method Update(id: Id, body: ProductBody, now: int, dbError: string) returns (res: Response)
      requires Valid()
      modifies this
      ensures Valid() && nextId == old(nextId)
      ensures match IndexOfProduct(old(products), id)
        case None => res == NotFound && products == old(products)
        case Some(i) =>
          var q := Overwritten(old(products)[i], body, now);
          if q.Some? && ValidCatalog(old(products)[i := q.value])
          then products == old(products)[i := q.value] && res == Response(200, "Product Updated")
          else products == old(products) && res == Server.ErrorMiddleware(dbError)
    {
      match IndexOfProduct(products, id)
      case None =>
        res := NotFound;
      case Some(i) =>
        var q := Overwritten(products[i], body, now);
        if q.Some? && ValidCatalog(products[i := q.value]) {
          products := products[i := q.value];
          res := Response(200, "Product Updated");
        } else {
          res := Server.ErrorMiddleware(dbError);
        }
    }

    /** `DELETE /:id`: removes the addressed product and no other. */
    method Delete(id: Id) returns (res: Response)
      requires Valid()
      modifies this
      ensures Valid() && nextId == old(nextId)
      ensures match IndexOfProduct(old(products), id)
        case None => res == NotFound && products == old(products)
        case Some(i) =>
          products == old(products)[..i] + old(products)[i + 1..]
          && res == Response(200, "Product Deleted")
      ensures forall p :: p in products <==> p in old(products) && p.id != id
    {
      match IndexOfProduct(products, id)
      case None =>
        res := NotFound;
      case Some(i) =>
        RemoveAt(products, i);
        products := products[..i] + products[i + 1..];
        res := Response(200, "Product Deleted");
    }
  }
}
