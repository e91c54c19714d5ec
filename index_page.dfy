/**
 * The home page: which screen is shown, the user's own shops, the nearby list,
 * the geolocation callbacks and the handlers that forward to the shops store.
 * The geolocation service, the confirmation dialog and `calculateDistance` are
 * parameters: a fix or an error, the user's answer, a distance function.
 */
module IndexPage {
  import opened Wrappers
  import opened Types
  import opened Seqs
  import opened ShopConverter
  import ShopsStore
  import ShopDetails

  datatype Page = Home | Profile | About | Reviews
  datatype Permission = Pending | Granted | Denied

  /** What the page renders, with the data each screen is given. */
  datatype Screen =
    | EditScreen(editing: Shop)
    | DetailsScreen(selected: Shop, canEdit: bool)
    | CreateScreen
    | ProfileScreen(userShops: seq<Shop>)
    | AboutScreen
    | ReviewsScreen
    | HomeScreen(listed: seq<Shop>, searchOver: Option<seq<Shop>>)

  /** Where the page assumes the user is when geolocation fails. */
  const DefaultLocation: Location := Location(40.7128, -74.0060)

  /** A new fix replaces the location only when it moved further than this (km). */
  const MovementThresholdKm: real := 0.01

  /** The radius (km) of the page's own nearby filter. */
  const LocalRadiusKm: real := 2.0

  /** `calculateDistance(lat1, lon1, lat2, lon2)`, in kilometres. */
  type Distance = (real, real, real, real) -> real

  /** The predicate `shop => shop.createdBy === currentUserId`. */
  function CreatedBy(uid: string): Shop -> bool
  {
    (s: Shop) => s.createdBy == Some(uid)
  }

  /** `userShops`: the shops the current user created. */
  function UserShops(shops: seq<Shop>, uid: string): seq<Shop>
  {
    Filter(shops, CreatedBy(uid))
  }

  /** The user's shops are exactly the shops they created, in the store's order, with multiplicity. */
  lemma UserShopsSpec(shops: seq<Shop>, uid: string)
    ensures IsSubsequence(UserShops(shops, uid), shops)
    ensures forall s :: s in UserShops(shops, uid) <==> s in shops && s.createdBy == Some(uid)
    ensures forall s :: multiset(UserShops(shops, uid))[s] == if s.createdBy == Some(uid) then multiset(shops)[s] else 0
  {
    FilterIsSubsequence(shops, CreatedBy(uid));
    forall s ensures s in UserShops(shops, uid) <==> s in shops && s.createdBy == Some(uid) {
      FilterMembership(shops, CreatedBy(uid), s);
    }
    forall s ensures multiset(UserShops(shops, uid))[s] == if s.createdBy == Some(uid) then multiset(shops)[s] else 0 {
      FilterCount(shops, CreatedBy(uid), s);
    }
  }

  /** The predicate of the page's nearby filter: at most 2 km from the user. */
  function WithinRadius(user: Location, distance: Distance): Shop -> bool
  {
    (s: Shop) => distance(user.latitude, user.longitude, s.location.latitude, s.location.longitude) <= LocalRadiusKm
  }

  /** The page's own nearby filter over the store's current list. */
  function LocalNearby(shops: seq<Shop>, user: Location, distance: Distance): seq<Shop>
  {
    Filter(shops, WithinRadius(user, distance))
  }

  /** The local filter keeps exactly the shops within 2 km, in order. */
  lemma LocalNearbySpec(shops: seq<Shop>, user: Location, distance: Distance)
    ensures IsSubsequence(LocalNearby(shops, user, distance), shops)
    ensures forall s :: s in LocalNearby(shops, user, distance) <==>
      s in shops && distance(user.latitude, user.longitude, s.location.latitude, s.location.longitude) <= 2.0
  {
    FilterIsSubsequence(shops, WithinRadius(user, distance));
    forall s ensures s in LocalNearby(shops, user, distance) <==>
      s in shops && distance(user.latitude, user.longitude, s.location.latitude, s.location.longitude) <= 2.0
    {
      FilterMembership(shops, WithinRadius(user, distance), s);
    }
  }

  /** The list on the home screen: the nearby shops once location is granted, all shops otherwise. */
  function HomeList(permission: Permission, nearby: seq<Shop>, shops: seq<Shop>): seq<Shop>
  {
    if permission == Granted then nearby else shops
  }

  /** The details screen offers editing only to the shop's creator. */
  predicate EditOffered(shop: Shop, uid: string)
  {
    shop.createdBy == Some(uid)
  }

  /**
   * The screen for a page when no overlay (editor, details, create form) is open.
   * Only the home page carries the search modal, which searches every shop.
   */
  function PageScreen(page: Page, permission: Permission, nearby: seq<Shop>, shops: seq<Shop>, uid: string,
                      showSearch: bool): Screen
  {
    match page
    case Profile => ProfileScreen(UserShops(shops, uid))
    case About => AboutScreen
    case Reviews => ReviewsScreen
    case Home => HomeScreen(HomeList(permission, nearby, shops), if showSearch then Some(shops) else None)
  }

  /** The render chain: editor, then details, then create form, then the page. */
  function SelectScreen(editing: Option<Shop>, selected: Option<Shop>, showCreate: bool, page: Page,
                        permission: Permission, nearby: seq<Shop>, shops: seq<Shop>, uid: string,
                        showSearch: bool): Screen
  {
    if editing.Some? then EditScreen(editing.value)
    else if selected.Some? then DetailsScreen(selected.value, EditOffered(selected.value, uid))
    else if showCreate then CreateScreen
    else PageScreen(page, permission, nearby, shops, uid, showSearch)
  }

  /**
   * The priority is fixed: an open editor hides everything else, the details of a
   * selected shop hide the create form and the page, the create form hides the page.
   * Whatever a lower layer holds then makes no difference.
   */
  lemma ScreenPriority(editing: Option<Shop>, selected: Option<Shop>, selected': Option<Shop>,
                       showCreate: bool, showCreate': bool, page: Page, page': Page,
                       showSearch: bool, showSearch': bool,
                       permission: Permission, nearby: seq<Shop>, shops: seq<Shop>, uid: string)
    ensures editing.Some? ==>
      && SelectScreen(editing, selected, showCreate, page, permission, nearby, shops, uid, showSearch) == EditScreen(editing.value)
      && SelectScreen(editing, selected', showCreate', page', permission, nearby, shops, uid, showSearch') == EditScreen(editing.value)
    ensures editing.None? && selected.Some? ==>
      SelectScreen(editing, selected, showCreate, page, permission, nearby, shops, uid, showSearch)
      == SelectScreen(editing, selected, showCreate', page', permission, nearby, shops, uid, showSearch')
      == DetailsScreen(selected.value, selected.value.createdBy == Some(uid))
    ensures editing.None? && selected.None? && showCreate ==>
      SelectScreen(editing, selected, showCreate, page, permission, nearby, shops, uid, showSearch)
      == SelectScreen(editing, selected, showCreate, page', permission, nearby, shops, uid, showSearch')
      == CreateScreen
    ensures editing.None? && selected.None? && !showCreate ==>
      SelectScreen(editing, selected, showCreate, page, permission, nearby, shops, uid, showSearch)
      == PageScreen(page, permission, nearby, shops, uid, showSearch)
  {
  }

  /**
   * On the details screen the edit button opens the editor on the shop exactly
   * when the current user created it; for anyone else it does nothing.
   */
  lemma DetailsEditIff(selected: Shop, page: Page, permission: Permission,
                       nearby: seq<Shop>, shops: seq<Shop>, uid: string, showSearch: bool)
    ensures SelectScreen(None, Some(selected), false, page, permission, nearby, shops, uid, showSearch).DetailsScreen?
    ensures var sc := SelectScreen(None, Some(selected), false, page, permission, nearby, shops, uid, showSearch);
      (ShopDetails.EditClick(sc.canEdit, sc.selected) == Some(selected)) <==> selected.createdBy == Some(uid)
    ensures var sc := SelectScreen(None, Some(selected), false, page, permission, nearby, shops, uid, showSearch);
      (ShopDetails.EditClick(sc.canEdit, sc.selected) == None) <==> selected.createdBy != Some(uid)
  {
    ShopDetails.EditClickSpec(true, selected);
    ShopDetails.EditClickSpec(false, selected);
  }

  /**
   * The home screen lists the nearby shops when location is granted and every
   * shop otherwise, while its search modal always searches every shop; the
   * profile screen lists only the user's own shops; no other page has a search.
   */
  lemma PageScreenLists(permission: Permission, nearby: seq<Shop>, shops: seq<Shop>, uid: string, showSearch: bool)
    ensures permission == Granted ==> PageScreen(Home, permission, nearby, shops, uid, showSearch).listed == nearby
    ensures permission != Granted ==> PageScreen(Home, permission, nearby, shops, uid, showSearch).listed == shops
    ensures showSearch ==> PageScreen(Home, permission, nearby, shops, uid, showSearch).searchOver == Some(shops)
    ensures !showSearch ==> PageScreen(Home, permission, nearby, shops, uid, showSearch).searchOver == None
    ensures forall s :: s in PageScreen(Profile, permission, nearby, shops, uid, showSearch).userShops <==>
      s in shops && s.createdBy == Some(uid)
    ensures forall p :: p != Home ==> !PageScreen(p, permission, nearby, shops, uid, showSearch).HomeScreen?
  {
    UserShopsSpec(shops, uid);
  }

  /** Whether a fix replaces the location the callback captured. */
  predicate Moves(captured: Option<Location>, fix: Location, distance: Distance)
  {
    captured.None? ||
    distance(captured.value.latitude, captured.value.longitude, fix.latitude, fix.longitude) > MovementThresholdKm
  }

  /**
   * The first fix is always taken; a fix repeating the captured location is not,
   * as long as the distance from a point to itself is zero.
   */
  lemma MovesSpec(fix: Location, distance: Distance)
    requires distance(fix.latitude, fix.longitude, fix.latitude, fix.longitude) == 0.0
    ensures Moves(None, fix, distance)
    ensures !Moves(Some(fix), fix, distance)
  {
  }

  /** `shops.find(s => s.id === id)`: the first shop with the id, if any. */
  function FindById(shops: seq<Shop>, id: string): (r: Option<Shop>)
    ensures r.None? <==> forall i :: 0 <= i < |shops| ==> shops[i].id != id
    ensures r.Some? ==> r.value.id == id
    ensures r.Some? ==> exists i :: (0 <= i < |shops| && shops[i] == r.value &&
      forall j :: 0 <= j < i ==> shops[j].id != id)
    decreases |shops|
  {
    if shops == [] then None
    else if shops[0].id == id then Some(shops[0])
    else
      var r := FindById(shops[1..], id);
      assert forall i :: 1 <= i < |shops| ==> shops[i] == shops[1..][i - 1];
      if r.Some? then
        ghost var k :| (0 <= k < |shops[1..]| && shops[1..][k] == r.value &&
          forall j :: 0 <= j < k ==> shops[1..][j].id != id);
        assert shops[k + 1] == r.value;
        r
      else r
  }

  /** The home page's state; the shops themselves live in the store. */
  class HomePage {
    const store: ShopsStore.ShopsStore
    var userLocation: Option<Location>
    var nearbyShops: seq<Shop>
    var selectedShop: Option<Shop>
    var editingShop: Option<Shop>
    var showCreateShop: bool
    var showSearch: bool
    var currentPage: Page
    var locationPermission: Permission

    constructor (store: ShopsStore.ShopsStore)
      ensures this.store == store
      ensures userLocation == None && nearbyShops == [] && selectedShop == None && editingShop == None
      ensures !showCreateShop && !showSearch && currentPage == Home && locationPermission == Pending
    {
      this.store := store;
      userLocation := None;
      nearbyShops := [];
      selectedShop := None;
      editingShop := None;
      showCreateShop := false;
      showSearch := false;
      currentPage := Home;
      locationPermission := Pending;
    }

    /** The screen rendered for the current state. */
    function CurrentScreen(): Screen
      reads this, store
    {
      SelectScreen(editingShop, selectedShop, showCreateShop, currentPage,
                   locationPermission, nearbyShops, store.shops, store.currentUserId, showSearch)
    }

    /** `handleNavigate`: go to a page, closing every overlay and the search. */
    method Navigate(page: Page)
      modifies this`currentPage, this`selectedShop, this`editingShop, this`showCreateShop, this`showSearch
      ensures currentPage == page && selectedShop == None && editingShop == None
      ensures !showCreateShop && !showSearch
      ensures CurrentScreen() == PageScreen(page, locationPermission, nearbyShops, store.shops, store.currentUserId, false)
    {
      currentPage := page;
      selectedShop := None;
      editingShop := None;
      showCreateShop := false;
      showSearch := false;
    }

    /**
     * `setSelectedShop`, from a card of the home list or the profile page: the
     * details of that shop open unless the editor is open.
     */
    method SelectShop(shop: Shop)
      modifies this`selectedShop
      ensures selectedShop == Some(shop)
      ensures editingShop.None? ==> CurrentScreen() == DetailsScreen(shop, shop.createdBy == Some(store.currentUserId))
    {
      selectedShop := Some(shop);
    }

    /**
     * A click on a search hit: `onSelectShop(shop)` and then `onClose()`, so the
     * shop is selected and the modal closes; its details open unless the editor is open.
     */
    method SelectSearchHit(shop: Shop)
      modifies this`selectedShop, this`showSearch
      ensures selectedShop == Some(shop) && !showSearch
      ensures editingShop.None? ==> CurrentScreen() == DetailsScreen(shop, shop.createdBy == Some(store.currentUserId))
    {
      selectedShop := Some(shop);
      showSearch := false;
    }

    /** The search button: the modal opens over the home page and searches every shop. */
    method OpenSearch()
      modifies this`showSearch
      ensures showSearch
      ensures editingShop.None? && selectedShop.None? && !showCreateShop && currentPage == Home ==>
        CurrentScreen().HomeScreen? && CurrentScreen().searchOver == Some(store.shops)
    {
      showSearch := true;
    }

    /** The navigation bar's create button: the form opens unless an editor or details are shown. */
    method OpenCreateForm()
      modifies this`showCreateShop
      ensures showCreateShop
      ensures editingShop.None? && selectedShop.None? ==> CurrentScreen() == CreateScreen
    {
      showCreateShop := true;
    }

    /**
     * The geolocation success callback. `captured` is the location the callback
     * closed over, which need not be the current one.
     */
    method OnPositionSuccess(fix: Location, captured: Option<Location>, distance: Distance)
      modifies this`userLocation, this`locationPermission
      ensures locationPermission == Granted
      ensures Moves(captured, fix, distance) ==> userLocation == Some(fix)
      ensures !Moves(captured, fix, distance) ==> userLocation == old(userLocation)
    {
      if Moves(captured, fix, distance) {
        userLocation := Some(fix);
      }
      locationPermission := Granted;
    }

    /** The geolocation error callback: denied, and the default location. */
    method OnPositionError()
      modifies this`userLocation, this`locationPermission
      ensures locationPermission == Denied && userLocation == Some(DefaultLocation)
    {
      locationPermission := Denied;
      userLocation := Some(DefaultLocation);
    }

    /**
     * `filterNearbyShops`: nothing without a location; in API mode the store's
     * nearby query, which answers `[]` on failure; in mock mode the page's own
     * 2 km filter over the store's current list.
     */
    method FilterNearbyShops(distance: Distance,
                             within: (Location, Location) -> bool,
                             server: (real, real, real) -> Result<seq<ApiShop>, string>,
                             mint: (nat, nat) -> string)
      modifies this`nearbyShops, store
      ensures store.shops == old(store.shops) && store.useApi == old(store.useApi)
      ensures userLocation.None? ==> nearbyShops == old(nearbyShops) && unchanged(store)
      ensures userLocation.Some? && !store.useApi ==>
        nearbyShops == LocalNearby(store.shops, userLocation.value, distance) && unchanged(store)
      ensures userLocation.Some? && store.useApi ==>
        var answer := server(userLocation.value.latitude, userLocation.value.longitude, ShopsStore.NearbyRadiusKm);
        && (answer.Ok? ==> nearbyShops == ShopsStore.ConvertAll(answer.value, mint) && store.error == None)
        && (answer.Err? ==> nearbyShops == [] && store.error == Some(ShopsStore.LoadNearbyFailed))
        && !store.isLoading
    {
      if userLocation.None? {
        return;
      }
      if store.useApi {
        nearbyShops := store.LoadNearbyShops(userLocation.value, within, server, mint);
      } else {
        nearbyShops := LocalNearby(store.shops, userLocation.value, distance);
      }
    }

    /** `handleCreateShop`: the create form closes only when the store accepted the shop. */
    method HandleCreateShop(newShop: Shop, freshId: string, server: ApiShop -> Result<ApiShop, string>,
                            mint: nat -> string)
      returns (r: Result<Shop, string>)
      modifies this`showCreateShop, store
      ensures store.useApi == old(store.useApi)
      ensures r.Ok? ==> !showCreateShop && store.shops == old(store.shops) + [r.value]
      ensures r.Err? ==> showCreateShop == old(showCreateShop) && store.shops == old(store.shops)
      ensures !store.useApi ==> r == Ok(newShop.(id := freshId, createdBy := Some(store.currentUserId)))
      ensures store.useApi ==>
        var answer := server(ShopToApiShop(newShop.(id := ""), store.currentUserId));
        && r == (if answer.Ok? then Ok(ApiShopToShop(answer.value, mint)) else Err(answer.error))
        && store.error == (if answer.Ok? then None else Some(ShopsStore.CreateFailed))
    {
      r := store.CreateShop(newShop, freshId, server, mint);
      if r.Ok? {
        showCreateShop := false;
      }
    }

    /**
     * `handleUpdateShop`: on success the editor closes and the details of the
     * stored shop open; on failure both stay as they were.
     */
    method HandleUpdateShop(updated: Shop, server: (string, ApiShop) -> Result<ApiShop, string>,
                            mint: nat -> string)
      returns (r: Result<Shop, string>)
      modifies this`editingShop, this`selectedShop, store
      ensures store.useApi == old(store.useApi)
      ensures r.Ok? ==> editingShop == None && selectedShop == Some(r.value)
      ensures r.Ok? ==> store.shops == ShopsStore.ReplaceById(old(store.shops), r.value)
      ensures r.Ok? ==> CurrentScreen() == DetailsScreen(r.value, r.value.createdBy == Some(store.currentUserId))
      ensures r.Err? ==> editingShop == old(editingShop) && selectedShop == old(selectedShop)
      ensures r.Err? ==> store.shops == old(store.shops)
      ensures !store.useApi ==> r == Ok(updated)
      ensures store.useApi ==>
        var answer := server(updated.id, ShopToApiShop(updated, store.currentUserId));
        && r == (if answer.Ok? then Ok(ApiShopToShop(answer.value, mint)) else Err(answer.error))
        && store.error == (if answer.Ok? then None else Some(ShopsStore.UpdateFailed))
    {
      r := store.UpdateShop(updated, server, mint);
      if r.Ok? {
        editingShop := None;
        selectedShop := Some(r.value);
      }
    }

    /**
     * `handleToggleShopStatus`: nothing when no shop has the id; otherwise the
     * store is sent that shop with only its open flag changed. `sent` is what went out.
     */
    method HandleToggleShopStatus(shopId: string, isOpen: bool,
                                  server: (string, ApiShop) -> Result<ApiShop, string>,
                                  mint: nat -> string)
      returns (sent: Option<Shop>)
      modifies store
      ensures FindById(old(store.shops), shopId).None? ==> sent == None && unchanged(store)
      ensures FindById(old(store.shops), shopId).Some? ==>
        && sent == Some(FindById(old(store.shops), shopId).value.(isOpen := Some(isOpen)))
        && sent.value.id == shopId
        && sent.value.(isOpen := FindById(old(store.shops), shopId).value.isOpen) == FindById(old(store.shops), shopId).value
      ensures sent.Some? && !store.useApi ==> store.shops == ShopsStore.ReplaceById(old(store.shops), sent.value)
      ensures sent.Some? && store.useApi ==>
        var answer := server(shopId, ShopToApiShop(sent.value, store.currentUserId));
        && (answer.Ok? ==> store.shops == ShopsStore.ReplaceById(old(store.shops), ApiShopToShop(answer.value, mint)))
        && (answer.Err? ==> store.shops == old(store.shops))
        && store.error == (if answer.Ok? then None else Some(ShopsStore.UpdateFailed))
    {
      var found := FindById(store.shops, shopId);
      if found.None? {
        return None;
      }
      sent := Some(found.value.(isOpen := Some(isOpen)));
      var _ := store.UpdateShop(sent.value, server, mint);
    }

    /** `handleDeleteShop`: the store is asked to delete only once the user confirmed. */
    method HandleDeleteShop(shopId: string, confirmed: bool, response: Outcome<string>)
      modifies store
      ensures !confirmed ==> unchanged(store)
      ensures confirmed && (!store.useApi || response.Pass?) ==>
        store.shops == ShopsStore.RemoveById(old(store.shops), shopId)
      ensures confirmed && store.useApi && response.Fail? ==> store.shops == old(store.shops)
    {
      if confirmed {
        var _ := store.DeleteShop(shopId, response);
      }
    }
  }
}
