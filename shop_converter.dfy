/**
 * Translation between the client `Shop` and the API document. The API keeps
 * the position as a GeoJSON point whose `coordinates` are
 * `[longitude, latitude]` (section 3.1.1 of RFC 7946); the client keeps
 * `{latitude, longitude}`.
 */
module ShopConverter {
  import opened Wrappers
  import opened Types

  /** A GeoJSON position: exactly two numbers, `[longitude, latitude]`. */
  type Coordinates = c: seq<real> | |c| == 2 witness [0.0, 0.0]

  datatype GeoPoint = GeoPoint(kind: string, coordinates: Coordinates)

  /** An item as the API carries it; `dbId` is the optional `_id`. */
  datatype ApiItem = ApiItem(dbId: Option<string>, name: string, quantity: int)

  /** A shop document as the API carries it; `dbId` is the optional `_id`. */
  datatype ApiShop = ApiShop(
    dbId: Option<string>,
    name: string,
    description: string,
    address: string,
    location: GeoPoint,
    posterUrl: Option<string>,
    items: seq<ApiItem>,
    owner: string,
    phone: string,
    email: string,
    openingHours: string,
    category: string,
    createdBy: string,
    isOpen: Option<bool>,
    createdAt: Option<string>,
    updatedAt: Option<string>)

  /** `x || ''` for an optional string: absent gives `''`. */
  function OrEmpty(x: Option<string>): string
  {
    match x
    case Some(v) => v
    case None => ""
  }

  /**
   * One item from the API: its `_id` when that is a non-empty string, otherwise the
   * freshly generated id `freshId` (the source builds it from the clock and a random number).
   */
  function ItemFromApi(item: ApiItem, freshId: string): Item
  {
    Item(if item.dbId.Some? && item.dbId.value != "" then item.dbId.value else freshId,
         item.name, item.quantity)
  }

  /** `apiShopToShop`; `mint(i)` is the id generated for the `i`-th item when it has none. */
  function ApiShopToShop(a: ApiShop, mint: nat -> string): Shop
  {
    Shop(
      OrEmpty(a.dbId),
      a.name,
      a.description,
      a.address,
      Location(a.location.coordinates[1], a.location.coordinates[0]),
      a.posterUrl,
      seq(|a.items|, i requires 0 <= i < |a.items| => ItemFromApi(a.items[i], mint(i))),
      a.owner,
      a.phone,
      a.email,
      a.openingHours,
      a.category,
      Some(a.createdBy),
      a.isOpen)
  }

  /** `shopToApiShop`: no `_id`, no timestamps, item ids dropped, creator taken from the argument. */
  function ShopToApiShop(s: Shop, createdBy: string): ApiShop
  {
    ApiShop(
      None,
      s.name,
      s.description,
      s.address,
      GeoPoint("Point", [s.location.longitude, s.location.latitude]),
      s.posterUrl,
      seq(|s.items|, i requires 0 <= i < |s.items| => ApiItem(None, s.items[i].name, s.items[i].quantity)),
      s.owner,
      s.phone,
      s.email,
      s.openingHours,
      s.category,
      createdBy,
      s.isOpen,
      None,
      None)
  }

  /** The name and quantity of each API item, in order. */
  function ApiItemContents(items: seq<ApiItem>): (r: seq<(string, int)>)
    ensures |r| == |items|
    ensures forall i :: 0 <= i < |items| ==> r[i] == (items[i].name, items[i].quantity)
  {
    seq(|items|, i requires 0 <= i < |items| => (items[i].name, items[i].quantity))
  }

  /** Encoding puts longitude first and latitude second and always yields a `'Point'`. */
  lemma ShopToApiShopLayout(s: Shop, createdBy: string)
    ensures ShopToApiShop(s, createdBy).location.coordinates[0] == s.location.longitude
    ensures ShopToApiShop(s, createdBy).location.coordinates[1] == s.location.latitude
    ensures ShopToApiShop(s, createdBy).location.kind == "Point"
  {
  }

  /** Encoding drops the shop id and every item id, and never reads `s.createdBy`. */
  lemma ShopToApiShopDropsIds(s: Shop, createdBy: string)
    ensures ShopToApiShop(s, createdBy).dbId == None
    ensures forall i :: 0 <= i < |ShopToApiShop(s, createdBy).items| ==> ShopToApiShop(s, createdBy).items[i].dbId == None
    ensures ShopToApiShop(s, createdBy).createdBy == createdBy
    ensures forall o: Option<string> :: ShopToApiShop(s.(createdBy := o), createdBy) == ShopToApiShop(s, createdBy)
  {
  }

  /** Decoding takes the id from `_id` when present and `''` otherwise. */
  lemma ApiShopToShopId(a: ApiShop, mint: nat -> string)
    ensures a.dbId.Some? ==> ApiShopToShop(a, mint).id == a.dbId.value
    ensures a.dbId.None? ==> ApiShopToShop(a, mint).id == ""
  {
  }

  /** Both directions keep the items' count, order, names and quantities. */
  lemma ConversionKeepsItems(s: Shop, createdBy: string, a: ApiShop, mint: nat -> string)
    ensures ApiItemContents(ShopToApiShop(s, createdBy).items) == ItemContents(s.items)
    ensures ItemContents(ApiShopToShop(a, mint).items) == ApiItemContents(a.items)
  {
    var d := ApiShopToShop(a, mint).items;
    forall i | 0 <= i < |d| ensures ItemContents(d)[i] == ApiItemContents(a.items)[i] {
      assert d[i] == ItemFromApi(a.items[i], mint(i));
    }
  }

  /**
   * Encoding then decoding gives back the shop, except that the id becomes `''`,
   * the creator becomes the argument `createdBy`, and every item receives a freshly
   * generated id (the encoding carried none).
   */
  lemma RoundTripShop(s: Shop, createdBy: string, mint: nat -> string)
    ensures var r := ApiShopToShop(ShopToApiShop(s, createdBy), mint);
      && r.id == ""
      && r.createdBy == Some(createdBy)
      && r.location == s.location
      && ItemContents(r.items) == ItemContents(s.items)
      && (forall i :: 0 <= i < |r.items| ==> r.items[i].id == mint(i))
      && r == s.(id := "", createdBy := Some(createdBy), items := r.items)
  {
    var r := ApiShopToShop(ShopToApiShop(s, createdBy), mint);
    var e := ShopToApiShop(s, createdBy);
    forall i | 0 <= i < |r.items| ensures ItemContents(r.items)[i] == ItemContents(s.items)[i] {
      assert e.items[i] == ApiItem(None, s.items[i].name, s.items[i].quantity);
      assert r.items[i] == ItemFromApi(e.items[i], mint(i));
    }
  }

  /**
   * Decoding then encoding with the document's own creator gives back the document,
   * except for the ids and timestamps, which the encoding never carries.
   */
  lemma RoundTripApiShop(a: ApiShop, mint: nat -> string)
    requires a.location.kind == "Point"
    ensures var r := ShopToApiShop(ApiShopToShop(a, mint), a.createdBy);
      && ApiItemContents(r.items) == ApiItemContents(a.items)
      && r == a.(dbId := None, createdAt := None, updatedAt := None, items := r.items)
  {
    var r := ShopToApiShop(ApiShopToShop(a, mint), a.createdBy);
    assert r.location.coordinates == [a.location.coordinates[0], a.location.coordinates[1]];
    var d := ApiShopToShop(a, mint);
    forall i | 0 <= i < |r.items| ensures ApiItemContents(r.items)[i] == ApiItemContents(a.items)[i] {
      assert d.items[i] == ItemFromApi(a.items[i], mint(i));
      assert r.items[i] == ApiItem(None, d.items[i].name, d.items[i].quantity);
    }
  }
}
