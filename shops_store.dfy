/**
 * The client shop store: the list of shops plus the `useApi`, `isLoading`
 * and `error` flags, with create, update, delete and nearby queries in mock
 * mode (local list only) and API mode (server call first). Every server call
 * is a parameter: either its outcome, or a function from the request to its
 * outcome, so that the contracts can say what was sent.
 */
module ShopsStore {
  import opened Wrappers
  import opened Types
  import opened Seqs
  import opened ShopConverter

  const LoadShopsFailed := "Failed to load shops"
  const LoadNearbyFailed := "Failed to load nearby shops"
  const CreateFailed := "Failed to create shop"
  const UpdateFailed := "Failed to update shop"
  const DeleteFailed := "Failed to delete shop"

  /** The radius, in kilometres, the client asks the server for. */
  const NearbyRadiusKm: real := 2.0

  /** The predicate `shop => shop.id !== id`. */
  function IdIsNot(id: string): Shop -> bool
  {
    (s: Shop) => s.id != id
  }

  /** `shops.filter(shop => shop.id !== id)`. */
  function RemoveById(shops: seq<Shop>, id: string): seq<Shop>
  {
    Filter(shops, IdIsNot(id))
  }

  /** `shops.map(shop => shop.id === updated.id ? updated : shop)`. */
  function ReplaceById(shops: seq<Shop>, updated: Shop): (r: seq<Shop>)
    ensures |r| == |shops|
  {
    seq(|shops|, i requires 0 <= i < |shops| => if shops[i].id == updated.id then updated else shops[i])
  }

  /** The ids of the shops, in order. */
  function Ids(shops: seq<Shop>): (r: seq<string>)
    ensures |r| == |shops| && forall i :: 0 <= i < |shops| ==> r[i] == shops[i].id
  {
    seq(|shops|, i requires 0 <= i < |shops| => shops[i].id)
  }

  /** The predicate the mock nearby filter applies, for a given user location. */
  function WithinOf(user: Location, within: (Location, Location) -> bool): Shop -> bool
  {
    (s: Shop) => within(s.location, user)
  }

  /** Mock-mode nearby shops: the mock catalogue filtered by the distance test `within`. */
  function MockNearby(mock: seq<Shop>, user: Location, within: (Location, Location) -> bool): seq<Shop>
  {
    Filter(mock, WithinOf(user, within))
  }

  /** `apiShops.map(apiShopToShop)`; `mint(i, j)` is the id generated for item `j` of shop `i`. */
  function ConvertAll(apiShops: seq<ApiShop>, mint: (nat, nat) -> string): (r: seq<Shop>)
    ensures |r| == |apiShops|
  {
    seq(|apiShops|, i requires 0 <= i < |apiShops| => ApiShopToShop(apiShops[i], (j: nat) => mint(i, j)))
  }

  /** Removing by id deletes exactly the shops with that id and keeps the others, in order. */
  lemma RemoveByIdSpec(shops: seq<Shop>, id: string)
    ensures forall s :: s in RemoveById(shops, id) ==> s.id != id
    ensures forall s :: s in shops && s.id != id ==> s in RemoveById(shops, id)
    ensures forall s :: multiset(RemoveById(shops, id))[s] == if s.id == id then 0 else multiset(shops)[s]
    ensures IsSubsequence(RemoveById(shops, id), shops)
  {
    forall s | s in shops && s.id != id ensures s in RemoveById(shops, id) {
      FilterKeeps(shops, IdIsNot(id), s);
    }
    forall s ensures multiset(RemoveById(shops, id))[s] == if s.id == id then 0 else multiset(shops)[s] {
      FilterCount(shops, IdIsNot(id), s);
    }
    FilterIsSubsequence(shops, IdIsNot(id));
  }

  /** Removing an id nobody has changes nothing. */
  lemma RemoveAbsentId(shops: seq<Shop>, id: string)
    requires forall i :: 0 <= i < |shops| ==> shops[i].id != id
    ensures RemoveById(shops, id) == shops
  {
    FilterAllKept(shops, IdIsNot(id));
  }

  /**
   * Replacing by id keeps the length and the sequence of ids, replaces every shop
   * carrying the id and leaves every other shop where it was.
   */
  lemma ReplaceByIdSpec(shops: seq<Shop>, updated: Shop)
    ensures Ids(ReplaceById(shops, updated)) == Ids(shops)
    ensures forall i :: 0 <= i < |shops| && shops[i].id != updated.id ==> ReplaceById(shops, updated)[i] == shops[i]
    ensures forall i :: 0 <= i < |shops| && shops[i].id == updated.id ==> ReplaceById(shops, updated)[i] == updated
    ensures (forall i :: 0 <= i < |shops| ==> shops[i].id != updated.id) ==> ReplaceById(shops, updated) == shops
  {
    var r := ReplaceById(shops, updated);
    assert forall i :: 0 <= i < |shops| ==> Ids(r)[i] == Ids(shops)[i];
  }

  /** A replacement is invisible once its id is removed: nothing else changed. */
  lemma {:induction false} ReplaceThenRemove(shops: seq<Shop>, updated: Shop)
    ensures RemoveById(ReplaceById(shops, updated), updated.id) == RemoveById(shops, updated.id)
    decreases |shops|
  {
    if shops != [] {
      var r := ReplaceById(shops, updated);
      assert r[1..] == ReplaceById(shops[1..], updated);
      ReplaceThenRemove(shops[1..], updated);
    }
  }

  /** Mock-mode nearby results come from the mock catalogue only, never from the live list. */
  lemma MockNearbyFromCatalogue(mock: seq<Shop>, user: Location, within: (Location, Location) -> bool)
    ensures IsSubsequence(MockNearby(mock, user, within), mock)
    ensures forall s :: s in MockNearby(mock, user, within) <==> s in mock && within(s.location, user)
  {
    FilterIsSubsequence(mock, WithinOf(user, within));
    forall s ensures s in MockNearby(mock, user, within) <==> s in mock && within(s.location, user) {
      FilterMembership(mock, WithinOf(user, within), s);
    }
  }

  class ShopsStore {
    const currentUserId: string
    /** The bundled demonstration catalogue (`mockShops`). */
    const mockShops: seq<Shop>
    var shops: seq<Shop>
    var isLoading: bool
    var error: Option<string>
    var useApi: bool

    constructor (currentUserId: string, mockShops: seq<Shop>)
      ensures this.currentUserId == currentUserId && this.mockShops == mockShops
      ensures shops == mockShops && !isLoading && error == None && !useApi
    {
      this.currentUserId := currentUserId;
      this.mockShops := mockShops;
      shops := mockShops;
      isLoading := false;
      error := None;
      useApi := false;
    }

    /** `testApiConnection`: the store uses the API exactly when the probe succeeded. */
    method TestApiConnection(probe: Result<seq<ApiShop>, string>)
      modifies this
      ensures useApi == probe.Ok?
      ensures !isLoading
      ensures shops == old(shops) && error == old(error)
    {
      isLoading := true;
      useApi := probe.Ok?;
      isLoading := false;
    }

    /** `loadShops`: mock mode reloads the catalogue; API mode falls back to it on failure. */
    method LoadShops(response: Result<seq<ApiShop>, string>, mint: (nat, nat) -> string)
      modifies this
      ensures useApi == old(useApi)
      ensures !useApi ==> shops == mockShops && error == old(error) && isLoading == old(isLoading)
      ensures useApi ==> !isLoading
      ensures useApi && response.Ok? ==> shops == ConvertAll(response.value, mint) && error == None
      ensures useApi && response.Err? ==> shops == mockShops && error == Some(LoadShopsFailed)
    {
      if !useApi {
        shops := mockShops;
        return;
      }
      isLoading := true;
      error := None;
      match response {
      case Ok(apiShops) =>
        shops := ConvertAll(apiShops, mint);
      case Err(_) =>
        error := Some(LoadShopsFailed);
        shops := mockShops;
      }
      isLoading := false;
    }

    /**
     * `loadNearbyShops`: mock mode filters the catalogue with the distance test
     * `within`; API mode asks the server for a 2 km radius around the user and
     * yields `[]` with `error` set when the call fails. The list itself never changes.
     */
    method LoadNearbyShops(user: Location, within: (Location, Location) -> bool,
                           server: (real, real, real) -> Result<seq<ApiShop>, string>,
                           mint: (nat, nat) -> string)
      returns (nearby: seq<Shop>)
      modifies this
      ensures shops == old(shops) && useApi == old(useApi)
      ensures !useApi ==> nearby == MockNearby(mockShops, user, within) && error == old(error) && isLoading == old(isLoading)
      ensures useApi ==> !isLoading
      ensures useApi && server(user.latitude, user.longitude, NearbyRadiusKm).Ok? ==>
        nearby == ConvertAll(server(user.latitude, user.longitude, NearbyRadiusKm).value, mint) && error == None
      ensures useApi && server(user.latitude, user.longitude, NearbyRadiusKm).Err? ==>
        nearby == [] && error == Some(LoadNearbyFailed)
    {
      if !useApi {
        return MockNearby(mockShops, user, within);
      }
      isLoading := true;
      error := None;
      match server(user.latitude, user.longitude, NearbyRadiusKm) {
      case Ok(apiShops) =>
        nearby := ConvertAll(apiShops, mint);
      case Err(_) =>
        error := Some(LoadNearbyFailed);
        nearby := [];
      }
      isLoading := false;
    }

    /**
     * `createShop`: mock mode appends the shop with the fresh id `freshId` and the
     * current user as creator; API mode sends the encoded shop, appends the decoded
     * answer, and on failure leaves the list alone, sets `error` and fails.
     */
    method CreateShop(newShop: Shop, freshId: string, server: ApiShop -> Result<ApiShop, string>,
                      mint: nat -> string)
      returns (r: Result<Shop, string>)
      modifies this
      ensures useApi == old(useApi)
      ensures !useApi ==>
        && r == Ok(newShop.(id := freshId, createdBy := Some(currentUserId)))
        && shops == old(shops) + [r.value]
        && error == old(error) && isLoading == old(isLoading)
      ensures useApi ==> !isLoading
      ensures useApi && server(ShopToApiShop(newShop.(id := ""), currentUserId)).Ok? ==>
        && r == Ok(ApiShopToShop(server(ShopToApiShop(newShop.(id := ""), currentUserId)).value, mint))
        && shops == old(shops) + [r.value]
        && error == None
      ensures useApi && server(ShopToApiShop(newShop.(id := ""), currentUserId)).Err? ==>
        && r == Err(server(ShopToApiShop(newShop.(id := ""), currentUserId)).error)
        && shops == old(shops)
        && error == Some(CreateFailed)
    {
      if !useApi {
        var shop := newShop.(id := freshId, createdBy := Some(currentUserId));
        shops := shops + [shop];
        return Ok(shop);
      }
      isLoading := true;
      error := None;
      var payload := ShopToApiShop(newShop.(id := ""), currentUserId);
      match server(payload) {
      case Ok(created) =>
        var createdShop := ApiShopToShop(created, mint);
        shops := shops + [createdShop];
        r := Ok(createdShop);
      case Err(e) =>
        error := Some(CreateFailed);
        r := Err(e);
      }
      isLoading := false;
    }

    /**
     * `updateShop`: mock mode replaces by id; API mode sends the encoded shop under
     * its id and replaces by the id of the decoded answer; on failure nothing changes
     * but `error`, and the call fails.
     */
    method UpdateShop(updated: Shop, server: (string, ApiShop) -> Result<ApiShop, string>,
                      mint: nat -> string)
      returns (r: Result<Shop, string>)
      modifies this
      ensures useApi == old(useApi)
      ensures !useApi ==>
        && r == Ok(updated)
        && shops == ReplaceById(old(shops), updated)
        && error == old(error) && isLoading == old(isLoading)
      ensures useApi ==> !isLoading
      ensures useApi && server(updated.id, ShopToApiShop(updated, currentUserId)).Ok? ==>
        && r == Ok(ApiShopToShop(server(updated.id, ShopToApiShop(updated, currentUserId)).value, mint))
        && shops == ReplaceById(old(shops), r.value)
        && error == None
      ensures useApi && server(updated.id, ShopToApiShop(updated, currentUserId)).Err? ==>
        && r == Err(server(updated.id, ShopToApiShop(updated, currentUserId)).error)
        && shops == old(shops)
        && error == Some(UpdateFailed)
    {
      if !useApi {
        shops := ReplaceById(shops, updated);
        return Ok(updated);
      }
      isLoading := true;
      error := None;
      var payload := ShopToApiShop(updated, currentUserId);
      match server(updated.id, payload) {
      case Ok(answer) =>
        var converted := ApiShopToShop(answer, mint);
        shops := ReplaceById(shops, converted);
        r := Ok(converted);
      case Err(e) =>
        error := Some(UpdateFailed);
        r := Err(e);
      }
      isLoading := false;
    }

    /**
     * `deleteShop`: mock mode removes by id; API mode removes only after the server
     * call succeeded, and on failure keeps the list, sets `error` and fails.
     */
    method DeleteShop(shopId: string, response: Outcome<string>)
      returns (r: Outcome<string>)
      modifies this
      ensures useApi == old(useApi)
      ensures !useApi ==>
        r == Pass && shops == RemoveById(old(shops), shopId) && error == old(error) && isLoading == old(isLoading)
      ensures useApi ==> !isLoading && r == response
      ensures useApi && response.Pass? ==> shops == RemoveById(old(shops), shopId) && error == None
      ensures useApi && response.Fail? ==> shops == old(shops) && error == Some(DeleteFailed)
    {
      if !useApi {
        shops := RemoveById(shops, shopId);
        return Pass;
      }
      isLoading := true;
      error := None;
      if response.Pass? {
        shops := RemoveById(shops, shopId);
      } else {
        error := Some(DeleteFailed);
      }
      r := response;
      isLoading := false;
    }
  }
}
