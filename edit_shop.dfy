/**
 * The item editor of an existing shop: its state is the edited item list and
 * the "new item" inputs; saving hands back the shop with only its items replaced.
 */
module EditShop {
  import opened Wrappers
  import opened Types
  import opened Seqs
  import opened Text
  import opened FormInput

  /** The predicate `item => item.id !== id`. */
  function ItemIdIsNot(id: string): Item -> bool
  {
    (it: Item) => it.id != id
  }

  /** `items.filter(item => item.id !== id)`. */
  function RemoveItemById(items: seq<Item>, id: string): seq<Item>
  {
    Filter(items, ItemIdIsNot(id))
  }

  /** `Math.max(0, q)`. */
  function ClampQuantity(q: int): (r: int)
    ensures r >= 0 && r >= q
    ensures q >= 0 ==> r == q
  {
    if q < 0 then 0 else q
  }

  /** `items.map(item => item.id === id ? {...item, quantity: Math.max(0, q)} : item)`. */
  function SetQuantity(items: seq<Item>, id: string, q: int): (r: seq<Item>)
    ensures |r| == |items|
  {
    seq(|items|, i requires 0 <= i < |items| =>
      if items[i].id == id then items[i].(quantity := ClampQuantity(q)) else items[i])
  }

  /** Removing by id deletes exactly the items with that id and keeps the others, in order. */
  lemma RemoveItemByIdSpec(items: seq<Item>, id: string)
    ensures forall it :: it in RemoveItemById(items, id) ==> it.id != id
    ensures forall it :: multiset(RemoveItemById(items, id))[it] == if it.id == id then 0 else multiset(items)[it]
    ensures IsSubsequence(RemoveItemById(items, id), items)
  {
    forall it ensures multiset(RemoveItemById(items, id))[it] == if it.id == id then 0 else multiset(items)[it] {
      FilterCount(items, ItemIdIsNot(id), it);
    }
    FilterIsSubsequence(items, ItemIdIsNot(id));
  }

  /**
   * Setting a quantity keeps length, order, ids and names; the matching items get
   * `max(0, q)` and the others are untouched, so no quantity becomes negative.
   */
  lemma SetQuantitySpec(items: seq<Item>, id: string, q: int)
    ensures forall i :: 0 <= i < |items| ==>
      && SetQuantity(items, id, q)[i].id == items[i].id
      && SetQuantity(items, id, q)[i].name == items[i].name
    ensures forall i :: 0 <= i < |items| && items[i].id == id ==> SetQuantity(items, id, q)[i].quantity == ClampQuantity(q) >= 0
    ensures forall i :: 0 <= i < |items| && items[i].id != id ==> SetQuantity(items, id, q)[i] == items[i]
    ensures (forall i :: 0 <= i < |items| ==> items[i].quantity >= 0) ==>
      forall i :: 0 <= i < |items| ==> SetQuantity(items, id, q)[i].quantity >= 0
  {
  }

  class EditShopForm {
    const shop: Shop
    var items: seq<Item>
    var newItemName: string
    var newItemQuantity: int

    constructor (shop: Shop)
      ensures this.shop == shop && items == shop.items && newItemName == "" && newItemQuantity == 1
    {
      this.shop := shop;
      items := shop.items;
      newItemName := "";
      newItemQuantity := 1;
    }

    /** The quantity input of the new item: `parseInt(value) || 1`. */
    method SetNewItemQuantity(parsed: Option<int>)
      modifies this`newItemQuantity
      ensures newItemQuantity == IntOr(parsed, 1)
    {
      newItemQuantity := IntOr(parsed, 1);
    }

    /**
     * `handleAddItem`: with a name that is not blank, appends one item carrying the
     * trimmed name, the current quantity and the fresh id `freshId`, then resets the
     * inputs; with a blank name nothing changes.
     */
    method AddItem(freshId: string)
      modifies this`items, this`newItemName, this`newItemQuantity
      ensures Trim(old(newItemName)) == "" ==>
        items == old(items) && newItemName == old(newItemName) && newItemQuantity == old(newItemQuantity)
      ensures Trim(old(newItemName)) != "" ==>
        && items == old(items) + [Item(freshId, Trim(old(newItemName)), old(newItemQuantity))]
        && newItemName == "" && newItemQuantity == 1
    {
      if Trim(newItemName) != "" {
        items := items + [Item(freshId, Trim(newItemName), newItemQuantity)];
        newItemName := "";
        newItemQuantity := 1;
      }
    }

    /** `handleRemoveItem`. */
    method RemoveItem(itemId: string)
      modifies this`items
      ensures items == RemoveItemById(old(items), itemId)
    {
      items := RemoveItemById(items, itemId);
    }

    /** `handleUpdateItemQuantity`. */
    method UpdateItemQuantity(itemId: string, q: int)
      modifies this`items
      ensures items == SetQuantity(old(items), itemId, q)
    {
      items := SetQuantity(items, itemId, q);
    }

    /** The quantity input of a listed item: `parseInt(value) || 0`, then `handleUpdateItemQuantity`. */
    method UpdateItemQuantityInput(itemId: string, parsed: Option<int>)
      modifies this`items
      ensures items == SetQuantity(old(items), itemId, IntOr(parsed, 0))
    {
      UpdateItemQuantity(itemId, IntOr(parsed, 0));
    }

    /** `handleSave`: the original shop with only its items replaced by the edited list. */
    method Save() returns (updated: Shop)
      ensures updated.items == items
      ensures updated.(items := shop.items) == shop
    {
      updated := shop.(items := items);
    }
  }
}
