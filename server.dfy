/** backend/server.js: the inventory-item patch route `PUT /api/items/:id`,
    the PayPal client-id route and the error middleware.  Connection set-up
    and router wiring are plumbing and are not modelled. */
module Server {
  import opened Common

  /** The record of backend/models/inventoryItemModel.js: three optional,
      unconstrained paths. */
  datatype InventoryItem = InventoryItem(name: Option<string>, category: Option<string>, quantity: Option<int>)

  /** `{ name, category, quantity } = req.body`; `None` is `undefined`. */
  datatype ItemBody = ItemBody(name: Option<string>, category: Option<string>, quantity: Option<int>)

  /** The JSON reply: status, the `success` flag when the reply has one,
      the message (or error text) and the saved item when there is one. */
  datatype ItemReply = ItemReply(status: int, success: Option<bool>, message: string, item: Option<InventoryItem>)

  const ItemNotFound: ItemReply := ItemReply(404, None, "Item not found", None)

  /** The three guarded assignments: `name` and `category` only when the
      supplied value is truthy, `quantity` whenever it is not `undefined`. */
  function Patched(item: InventoryItem, b: ItemBody): (r: InventoryItem)
    ensures r.name == (if Truthy(b.name) then b.name else item.name)
    ensures r.category == (if Truthy(b.category) then b.category else item.category)
    ensures r.quantity == (if b.quantity.Some? then b.quantity else item.quantity)
  {
    InventoryItem(
      if Truthy(b.name) then b.name else item.name,
      if Truthy(b.category) then b.category else item.category,
      if b.quantity.Some? then b.quantity else item.quantity)
  }

  /** Applying the same body twice is applying it once. */
  lemma PatchIdempotent(item: InventoryItem, b: ItemBody)
    ensures Patched(Patched(item, b), b) == Patched(item, b)
  {
  }

  /** A body with no field, or with empty strings for the text fields,
      changes nothing; any defined quantity, zero or negative, is stored. */
  lemma PatchLeavesAbsentFields(item: InventoryItem, q: Option<int>)
    ensures Patched(item, ItemBody(Some(""), Some(""), q)) == item.(quantity := if q.Some? then q else item.quantity)
    ensures Patched(item, ItemBody(None, None, None)) == item
  {
  }

  /** The handler as the code behaves: `InventoryItem` is never imported,
      so the first statement of the `try` block throws a `ReferenceError`
      and every request ends in the `catch`. */
  function PutItemAsWritten(items: map<Id, InventoryItem>, id: Id, b: ItemBody): (r: (ItemReply, map<Id, InventoryItem>))
    ensures r.0.status == 500 && r.0.success == Some(false) && r.0.item.None?
    ensures r.1 == items
  {
    (ItemReply(500, Some(false), "InventoryItem is not defined", None), items)
  }

  /** The handler as evidently intended: 404 for an unknown id, otherwise
      the patched item is saved and sent back. */
  function PutItem(items: map<Id, InventoryItem>, id: Id, b: ItemBody): (r: (ItemReply, map<Id, InventoryItem>))
    ensures id !in items ==> r.0 == ItemNotFound && r.1 == items
    ensures id in items ==>
      r.1 == items[id := Patched(items[id], b)]
      && r.0 == ItemReply(200, Some(true), "Item updated successfully", Some(r.1[id]))
    ensures r.1.Keys == items.Keys
  {
    if id !in items then (ItemNotFound, items)
    else
      var saved := Patched(items[id], b);
      (ItemReply(200, Some(true), "Item updated successfully", Some(saved)), items[id := saved])
  }

  /** For a stored item the written handler fails where the intended one
      succeeds, and the stored item keeps its old fields. */
  lemma AsWrittenNeverUpdates(items: map<Id, InventoryItem>, id: Id, b: ItemBody)
    requires id in items
    ensures PutItemAsWritten(items, id, b).0.status == 500
    ensures PutItem(items, id, b).0.status == 200
    ensures PutItemAsWritten(items, id, b).1[id] == items[id]
  {
  }

  /** A concrete request that shows the difference: renaming item 1. */
  lemma AsWrittenRenameExample()
    ensures var items := map[1 := InventoryItem(Some("Plywood"), Some("Boards"), Some(4))];
      var b := ItemBody(Some("Veneer"), None, None);
      PutItemAsWritten(items, 1, b).1[1].name == Some("Plywood")
      && PutItem(items, 1, b).1[1].name == Some("Veneer")
  {
  }

  /** The inventory-item collection behind the corrected route. */
  class ItemStore {
    var items: map<Id, InventoryItem>

    constructor (initial: map<Id, InventoryItem>)
      ensures items == initial
    {
      items := initial;
    }

    /** `PUT /api/items/:id`, with the missing import supplied. */
    method Update(id: Id, b: ItemBody) returns (reply: ItemReply)
      modifies this
      ensures (reply, items) == PutItem(old(items), id, b)
    {
      if id !in items {
        return ItemNotFound;
      }
      var item := items[id];
      if Truthy(b.name) {
        item := item.(name := b.name);
      }
      if Truthy(b.category) {
        item := item.(category := b.category);
      }
      if b.quantity.Some? {
        item := item.(quantity := b.quantity);
      }
      items := items[id := item];
      reply := ItemReply(200, Some(true), "Item updated successfully", Some(item));
    }
  }

  /** `GET /api/keys/paypal`: `PAYPAL_CLIENT_ID || 'sb'`. */
  function PaypalClientId(configured: Option<string>): (r: string)
    ensures Truthy(configured) ==> r == configured.value
    ensures !Truthy(configured) ==> r == "sb"
    ensures r != ""
  {
    if Truthy(configured) then configured.value else "sb"
  }

  /** The error middleware: any error reaching it becomes a 500 reply
      carrying the error's message. */
  function ErrorMiddleware(errorMessage: string): (r: Response)
    ensures r.status == 500 && r.message == errorMessage
  {
    Response(500, errorMessage)
  }
}
