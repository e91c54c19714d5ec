/**
 * The shop creation form: text inputs, a location, a list of items without
 * ids, and the submit step that assembles the shop handed to the store.
 */
module CreateShop {
  import opened Wrappers
  import opened Types
  import opened Text
  import opened FormInput

  /** An item before submission: it has no id yet. */
  datatype ItemDraft = ItemDraft(name: string, quantity: int)

  /** The placeholder owner every created shop gets. */
  const CurrentUserOwner := "Current User"

  /** `items.filter((_, i) => i !== index)`. */
  function RemoveAt<T>(s: seq<T>, index: int): (r: seq<T>)
  {
    if 0 <= index < |s| then s[..index] + s[index + 1..] else s
  }

  /** `item-${now}-${index}`. */
  function ItemId(now: nat, index: nat): string
  {
    "item-" + NatToString(now) + "-" + NatToString(index)
  }

  /**
   * `items.map((item, index) => ({...item, id: item-${Date.now()}-${index}}))`. The
   * clock is read once per item, so `clock[i]` is the reading taken for item `i`.
   */
  function WithIds(drafts: seq<ItemDraft>, clock: seq<nat>): (r: seq<Item>)
    requires |clock| == |drafts|
    ensures |r| == |drafts|
  {
    seq(|drafts|, i requires 0 <= i < |drafts| => Item(ItemId(clock[i], i), drafts[i].name, drafts[i].quantity))
  }

  /** The name and quantity of each draft, in order. */
  function DraftContents(drafts: seq<ItemDraft>): (r: seq<(string, int)>)
    ensures |r| == |drafts|
    ensures forall i :: 0 <= i < |drafts| ==> r[i] == (drafts[i].name, drafts[i].quantity)
  {
    seq(|drafts|, i requires 0 <= i < |drafts| => (drafts[i].name, drafts[i].quantity))
  }

  /**
   * Removing at an index drops exactly that element and keeps the rest in order;
   * an index outside the list removes nothing.
   */
  lemma RemoveAtSpec<T>(s: seq<T>, index: int)
    ensures 0 <= index < |s| ==> |RemoveAt(s, index)| == |s| - 1
    ensures 0 <= index < |s| ==> forall j :: 0 <= j < |s| - 1 ==>
      RemoveAt(s, index)[j] == s[if j < index then j else j + 1]
    ensures !(0 <= index < |s|) ==> RemoveAt(s, index) == s
    ensures 0 <= index < |s| ==> multiset(RemoveAt(s, index)) + multiset{s[index]} == multiset(s)
  {
    if 0 <= index < |s| {
      assert s == s[..index] + [s[index]] + s[index + 1..];
    }
  }

  /** The position of the first `-` in `s`, or `|s|` when there is none. */
  function DashIndex(s: string): (k: nat)
    ensures k <= |s|
  {
    if s == [] || s[0] == '-' then 0 else 1 + DashIndex(s[1..])
  }

  /** Behind a run of digits, the first `-` is the one that ends the run. */
  lemma {:induction false} DashIndexAfterDigits(d: string, s: string)
    requires forall i :: 0 <= i < |d| ==> IsDigit(d[i])
    ensures DashIndex(d + "-" + s) == |d|
    decreases |d|
  {
    if d != [] {
      assert (d + "-" + s)[1..] == d[1..] + "-" + s;
      DashIndexAfterDigits(d[1..], s);
    }
  }

  /** What follows the first `-` after the `item-` prefix of an id. */
  function IndexPart(id: string): string
  {
    if |id| < 5 || 5 + DashIndex(id[5..]) == |id| then "" else id[6 + DashIndex(id[5..])..]
  }

  /** The index part of an id is the index it was built from, whatever the timestamp. */
  lemma IndexPartOfItemId(t: nat, i: nat)
    ensures IndexPart(ItemId(t, i)) == NatToString(i)
  {
    var x, d := ItemId(t, i), NatToString(t);
    assert x[5..] == d + "-" + NatToString(i);
    DashIndexAfterDigits(d, NatToString(i));
    assert x[6 + |d|..] == NatToString(i);
  }

  /** Ids built for different positions differ, whatever the two clock readings. */
  lemma ItemIdInjective(t: nat, u: nat, i: nat, j: nat)
    requires i != j
    ensures ItemId(t, i) != ItemId(u, j)
  {
    IndexPartOfItemId(t, i);
    IndexPartOfItemId(u, j);
    NatToStringInjective(i, j);
  }

  /** Submitted items have pairwise distinct ids and keep their order, names and quantities. */
  lemma WithIdsSpec(drafts: seq<ItemDraft>, clock: seq<nat>)
    requires |clock| == |drafts|
    ensures forall i, j :: 0 <= i < j < |drafts| ==> WithIds(drafts, clock)[i].id != WithIds(drafts, clock)[j].id
    ensures ItemContents(WithIds(drafts, clock)) == DraftContents(drafts)
  {
    var r := WithIds(drafts, clock);
    forall i, j | 0 <= i < j < |drafts| ensures r[i].id != r[j].id {
      ItemIdInjective(clock[i], clock[j], i, j);
    }
    assert forall i :: 0 <= i < |r| ==> ItemContents(r)[i] == DraftContents(drafts)[i];
  }

  class CreateShopForm {
    var name: string
    var description: string
    var address: string
    var posterUrl: string
    var location: Location
    var phone: string
    var email: string
    var openingHours: string
    var category: string
    var items: seq<ItemDraft>
    var newItemName: string
    var newItemQuantity: int

    /** The form starts empty, at the user's location when known and at (0, 0) otherwise. */
    constructor (userLocation: Option<Location>)
      ensures location == (if userLocation.Some? then userLocation.value else Location(0.0, 0.0))
      ensures name == description == address == posterUrl == phone == email == openingHours == category == ""
      ensures items == [] && newItemName == "" && newItemQuantity == 1
    {
      location := if userLocation.Some? then userLocation.value else Location(0.0, 0.0);
      name, description, address, posterUrl := "", "", "", "";
      phone, email, openingHours, category := "", "", "", "";
      items := [];
      newItemName := "";
      newItemQuantity := 1;
    }

    /** The latitude input: `parseFloat(value) || 0`. */
    method SetLatitude(parsed: Option<real>)
      modifies this`location
      ensures location == old(location).(latitude := RealOr(parsed, 0.0))
    {
      location := location.(latitude := RealOr(parsed, 0.0));
    }

    /** The longitude input: `parseFloat(value) || 0`. */
    method SetLongitude(parsed: Option<real>)
      modifies this`location
      ensures location == old(location).(longitude := RealOr(parsed, 0.0))
    {
      location := location.(longitude := RealOr(parsed, 0.0));
    }

    /**
     * `useCurrentLocation`: a position fix replaces the location; a failed request
     * (`None`) leaves it as it was.
     */
    method UseCurrentLocation(fix: Option<Location>)
      modifies this`location
      ensures fix.Some? ==> location == fix.value
      ensures fix.None? ==> location == old(location)
    {
      if fix.Some? {
        location := fix.value;
      }
    }

    /** The quantity input of the new item: `parseInt(value) || 0`. */
    method SetNewItemQuantity(parsed: Option<int>)
      modifies this`newItemQuantity
      ensures newItemQuantity == IntOr(parsed, 0)
    {
      newItemQuantity := IntOr(parsed, 0);
    }

    /**
     * `handleAddItem`: appends one draft with the trimmed name exactly when that name
     * is not empty, and then resets the inputs; otherwise nothing changes.
     */
    method AddItem()
      modifies this`items, this`newItemName, this`newItemQuantity
      ensures Trim(old(newItemName)) == "" ==>
        items == old(items) && newItemName == old(newItemName) && newItemQuantity == old(newItemQuantity)
      ensures Trim(old(newItemName)) != "" ==>
        && items == old(items) + [ItemDraft(Trim(old(newItemName)), old(newItemQuantity))]
        && newItemName == "" && newItemQuantity == 1
    {
      if Trim(newItemName) != "" {
        items := items + [ItemDraft(Trim(newItemName), newItemQuantity)];
        newItemName := "";
        newItemQuantity := 1;
      }
    }

    /** `handleRemoveItem`. */
    method RemoveItem(index: int)
      modifies this`items
      ensures items == RemoveAt(old(items), index)
    {
      items := RemoveAt(items, index);
    }

    /** The submit button is disabled while any required text field is empty. */
    predicate SubmitDisabled()
      reads this
    {
      name == "" || description == "" || address == "" || phone == "" || email == ""
      || openingHours == "" || category == ""
    }

    /**
     * `handleSubmit`: the shop built from the inputs, with an empty poster URL left
     * out, the placeholder owner, and items numbered `item-<clock[index]>-<index>`,
     * one clock reading per item. It carries no id, no creator and no open flag; the
     * store supplies them.
     */
    method Submit(clock: seq<nat>) returns (shop: Shop)
      requires |clock| == |items|
      ensures shop.id == "" && shop.createdBy == None && shop.isOpen == None
      ensures shop.name == name && shop.description == description && shop.address == address
      ensures shop.location == location && shop.phone == phone && shop.email == email
      ensures shop.openingHours == openingHours && shop.category == category
      ensures shop.posterUrl == if posterUrl == "" then None else Some(posterUrl)
      ensures shop.owner == CurrentUserOwner
      ensures ItemContents(shop.items) == DraftContents(items)
      ensures forall i, j :: 0 <= i < j < |shop.items| ==> shop.items[i].id != shop.items[j].id
      ensures forall i :: 0 <= i < |shop.items| ==> shop.items[i].id == ItemId(clock[i], i)
    {
      WithIdsSpec(items, clock);
      shop := Shop("", name, description, address, location,
                   if posterUrl == "" then None else Some(posterUrl),
                   WithIds(items, clock), CurrentUserOwner, phone, email, openingHours, category,
                   None, None);
    }

    /** With the button enabled, the submitted shop has every required text field non-empty. */
    lemma EnabledSubmitHasRequiredFields(shop: Shop)
      requires !SubmitDisabled()
      requires shop.name == name && shop.description == description && shop.address == address
      requires shop.phone == phone && shop.email == email
      requires shop.openingHours == openingHours && shop.category == category
      ensures shop.name != "" && shop.description != "" && shop.address != ""
      ensures shop.phone != "" && shop.email != "" && shop.openingHours != "" && shop.category != ""
    {
    }
  }
}
