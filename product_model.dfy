/** The Product record of backend/models/productModel.js: its fields, the
    schema's required and unique constraints and its defaults. */
module ProductModel {
  import opened Common
  import opened Text

  /** A product document.  `price` and `countInStock` are plain numbers
      with no minimum; `createdAt`/`updatedAt` are the schema timestamps. */
  datatype Product = Product(
    id: Id,
    name: string,
    slug: string,
    image: string,
    images: seq<string>,
    brand: string,
    category: string,
    description: string,
    price: int,
    countInStock: int,
    variants: seq<string>,
    measurements: seq<string>,
    createdAt: int,
    updatedAt: int)

  /** Mongoose's `required` check on the String paths: the empty string
      fails it.  The Number paths always hold a number in this model. */
  predicate HasRequiredFields(p: Product)
  {
    p.name != "" && p.slug != "" && p.image != "" && p.brand != ""
    && p.category != "" && p.description != ""
  }

  /** `name` and `slug` are unique indexes; `_id` is unique by construction. */
  predicate UniqueKeys(ps: seq<Product>)
  {
    forall i, j :: 0 <= i < j < |ps| ==>
      ps[i].id != ps[j].id && ps[i].name != ps[j].name && ps[i].slug != ps[j].slug
  }

  /** Every stored product satisfies the schema. */
  predicate ValidCatalog(ps: seq<Product>)
  {
    (forall i :: 0 <= i < |ps| ==> HasRequiredFields(ps[i])) && UniqueKeys(ps)
  }

  const DefaultImage: string := "/images/plywood.png"
  const DefaultCategory: string := "product category"
  const DefaultBrand: string := "product brand"
  const DefaultDescription: string := "product description"

  /** The record `POST /api/products` builds at time `now`; `variants` and
      `measurements` take their schema default, the empty list.  The route
      calls `Date.now()` twice, once for the name and once for the slug;
      one `now` stands for both, so two calls a millisecond apart are not
      modelled. */
  function NewProduct(id: Id, now: nat): (p: Product)
    ensures HasRequiredFields(p)
    ensures p.price == 0 && p.countInStock == 0
    ensures p.category == DefaultCategory && p.brand == DefaultBrand
    ensures p.image == DefaultImage && p.images == []
    ensures p.variants == [] && p.measurements == []
    ensures p.createdAt == now && p.updatedAt == now
  {
    Product(id, "product name" + NatToString(now), "product-name-" + NatToString(now),
            DefaultImage, [], DefaultBrand, DefaultCategory, DefaultDescription,
            0, 0, [], [], now, now)
  }

  /** Two products created at different instants get different names and
      slugs; two created in the same millisecond collide on both. */
  lemma {:induction false} NewProductKeysByTime(id1: Id, id2: Id, t1: nat, t2: nat)
    ensures (NewProduct(id1, t1).name == NewProduct(id2, t2).name) <==> t1 == t2
    ensures (NewProduct(id1, t1).slug == NewProduct(id2, t2).slug) <==> t1 == t2
  {
    var p1, p2 := NewProduct(id1, t1), NewProduct(id2, t2);
    if t1 != t2 {
      NatToStringInjective(t1, t2);
      var a, b := NatToString(t1), NatToString(t2);
      assert p1.name[|"product name"|..] == a && p2.name[|"product name"|..] == b;
      assert p1.slug[|"product-name-"|..] == a && p2.slug[|"product-name-"|..] == b;
    }
  }

  /** Position of the product with identifier `id`, if any. */
  function IndexOfProduct(ps: seq<Product>, id: Id): (r: Option<nat>)
    ensures r.Some? ==> r.value < |ps| && ps[r.value].id == id
    ensures r.Some? ==> forall j :: 0 <= j < r.value ==> ps[j].id != id
    ensures r.None? ==> forall j :: 0 <= j < |ps| ==> ps[j].id != id
  {
    if ps == [] then None
    else if ps[0].id == id then Some(0)
    else match IndexOfProduct(ps[1..], id)
      case None => None
      case Some(k) => Some(k + 1)
  }
}
