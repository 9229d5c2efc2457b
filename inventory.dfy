/** frontend/src/screens/Inventory.js: the inspector's table of delivered
    goods, one row per line item of every order `GET /api/orders/delivered`
    returns. */
module Inventory {
  import opened Common
  import opened ProductModel
  import opened Orders
  import opened OrderRoutes

  /** A table row: the line's name, its product's category and the line's
      quantity.  The category is `None` where the product was deleted, so
      `orderItem.product.category` reads a property of `null` and the
      render throws. */
  datatype Row = Row(name: string, category: Option<string>, quantity: int)

  function RowOf(it: PopulatedItem): (r: Row)
    ensures r.name == it.item.line.product.name && r.quantity == it.item.line.quantity
    ensures r.category.None? <==> it.product.None?
    ensures it.product.Some? ==> r.category == Some(it.product.value.category)
  {
    Row(it.item.line.product.name,
        if it.product.Some? then Some(it.product.value.category) else None,
        it.item.line.quantity)
  }

  function ItemRows(items: seq<PopulatedItem>): (r: seq<Row>)
    ensures |r| == |items| && forall j :: 0 <= j < |items| ==> r[j] == RowOf(items[j])
  {
    if items == [] then [] else [RowOf(items[0])] + ItemRows(items[1..])
  }

  /** `deliveredProducts.map((product) => product.orderItems.map(...))`. */
  function Rows(os: seq<PopulatedOrder>): seq<Row>
  {
    if os == [] then [] else ItemRows(os[0].items) + Rows(os[1..])
  }

  /** Number of line items over all orders. */
  function LineCount(os: seq<PopulatedOrder>): nat
  {
    if os == [] then 0 else |os[0].items| + LineCount(os[1..])
  }

  /** The table concatenates the orders' lines: one row per line item,
      never merged, in order. */
  lemma {:induction false} RowsAppend(a: seq<PopulatedOrder>, b: seq<PopulatedOrder>)
    ensures Rows(a + b) == Rows(a) + Rows(b)
    ensures LineCount(a + b) == LineCount(a) + LineCount(b)
  {
    if a == [] {
      assert a + b == b;
    } else {
      assert (a + b)[1..] == a[1..] + b;
      RowsAppend(a[1..], b);
    }
  }

  lemma {:induction false} RowsCount(os: seq<PopulatedOrder>)
    ensures |Rows(os)| == LineCount(os)
  {
    if os != [] {
      RowsCount(os[1..]);
    }
  }

  /** The table throws exactly when some row lacks a category. */
  predicate RenderFails(rows: seq<Row>)
  {
    exists k :: 0 <= k < |rows| && rows[k].category.None?
  }

  /** Some line of some order names a product that no longer exists. */
  predicate MissingProduct(os: seq<PopulatedOrder>)
  {
    exists i, j :: 0 <= i < |os| && 0 <= j < |os[i].items| && os[i].items[j].product.None?
  }

  lemma RenderFailsAppend(a: seq<Row>, b: seq<Row>)
    ensures RenderFails(a + b) <==> RenderFails(a) || RenderFails(b)
  {
    if RenderFails(a + b) {
      var k :| 0 <= k < |a + b| && (a + b)[k].category.None?;
      if k >= |a| {
        assert b[k - |a|].category.None?;
      }
    }
    if RenderFails(a) {
      var k :| 0 <= k < |a| && a[k].category.None?;
      assert (a + b)[k].category.None?;
    }
    if RenderFails(b) {
      var k :| 0 <= k < |b| && b[k].category.None?;
      assert (a + b)[|a| + k].category.None?;
    }
  }

  lemma MissingProductCons(os: seq<PopulatedOrder>)
    requires os != []
    ensures MissingProduct(os) <==>
      RenderFails(ItemRows(os[0].items)) || MissingProduct(os[1..])
  {
    if MissingProduct(os) {
      var i, j :| 0 <= i < |os| && 0 <= j < |os[i].items| && os[i].items[j].product.None?;
      if i == 0 {
        assert ItemRows(os[0].items)[j].category.None?;
      } else {
        assert os[1..][i - 1].items[j].product.None?;
      }
    }
    if RenderFails(ItemRows(os[0].items)) {
      var j :| 0 <= j < |ItemRows(os[0].items)| && ItemRows(os[0].items)[j].category.None?;
      assert os[0].items[j].product.None?;
    }
    if MissingProduct(os[1..]) {
      var i, j :| 0 <= i < |os[1..]| && 0 <= j < |os[1..][i].items| && os[1..][i].items[j].product.None?;
      assert os[i + 1].items[j].product.None?;
    }
  }

  /** A line whose product was deleted breaks the table, and only such a
      line does. */
  lemma {:induction false} RenderFailsIff(os: seq<PopulatedOrder>)
    ensures RenderFails(Rows(os)) <==> MissingProduct(os)
  {
    if os != [] {
      RenderFailsIff(os[1..]);
      RenderFailsAppend(ItemRows(os[0].items), Rows(os[1..]));
      MissingProductCons(os);
    }
  }

  /** The inspector's page state. */
  class InventoryPage {
    var loading: bool
    var error: string
    var delivered: seq<PopulatedOrder>

    constructor ()
      ensures !loading && error == "" && delivered == []
    {
      loading, error, delivered := false, "", [];
    }

    /** The effect: loading on, then the delivered orders or the error,
        loading off.  A success does not clear an earlier error. */
    method Load(reply: Option<seq<PopulatedOrder>>, message: string)
      modifies this
      ensures !loading
      ensures reply.Some? ==> delivered == reply.value && error == old(error)
      ensures reply.None? ==> error == message && delivered == old(delivered)
    {
      loading := true;
      if reply.Some? {
        delivered := reply.value;
        loading := false;
      } else {
        error := message;
        loading := false;
      }
    }
  }

  /** Against the store (`GET /delivered` populates the marked orders):
      the table breaks exactly when one of the listed lines names a
      product no longer in the catalog. */
  lemma PopulatedTable(os: seq<Order>, ps: seq<Product>)
    ensures RenderFails(Rows(PopulateOrders(os, ps))) <==>
      exists i, j :: 0 <= i < |os| && 0 <= j < |os[i].orderItems|
        && RefOf(ps, os[i].orderItems[j].product).None?
  {
    var d := PopulateOrders(os, ps);
    RenderFailsIff(d);
    if MissingProduct(d) {
      var i, j :| 0 <= i < |d| && 0 <= j < |d[i].items| && d[i].items[j].product.None?;
      assert d[i].items == PopulateItems(os[i].orderItems, ps);
      assert RefOf(ps, os[i].orderItems[j].product).None?;
    }
    if exists i, j :: 0 <= i < |os| && 0 <= j < |os[i].orderItems|
        && RefOf(ps, os[i].orderItems[j].product).None? {
      var i, j :| 0 <= i < |os| && 0 <= j < |os[i].orderItems|
        && RefOf(ps, os[i].orderItems[j].product).None?;
      assert d[i].items == PopulateItems(os[i].orderItems, ps);
      assert d[i].items[j].product.None?;
    }
  }
}
