/**
 * The shop page: its open/closed badge, the item filter, the message for an
 * empty item list, the edit button and the directions link.
 */
module ShopDetails {
  import opened Wrappers
  import opened Types
  import opened Seqs
  import opened Text
  import SearchModal

  datatype OpenBadge = OpenNow | CurrentlyClosed

  const NoItemsMatch := "No items match your search"
  const NoItemsAvailable := "No items available"
  const DirectionsPrefix := "https://www.google.com/maps/dir/"
  const SearchPrefix := "https://www.google.com/maps/search/?api=1&query="

  /** `shop.isOpen !== false`: a shop without the flag counts as open. */
  function Badge(shop: Shop): OpenBadge
  {
    if shop.isOpen == Some(false) then CurrentlyClosed else OpenNow
  }

  /** The red "currently closed" banner: `shop.isOpen === false`. */
  predicate ClosedBanner(shop: Shop)
  {
    shop.isOpen == Some(false)
  }

  /** The item filter: the term is lowercased but neither trimmed nor checked for blankness. */
  function FilteredItems(items: seq<Item>, searchTerm: string): seq<Item>
  {
    Filter(items, SearchModal.ItemNameMatches(ToLower(searchTerm)))
  }

  /** The note shown instead of the item grid when the filter leaves nothing. */
  function EmptyNote(items: seq<Item>, searchTerm: string): Option<string>
  {
    if |FilteredItems(items, searchTerm)| != 0 then None
    else if searchTerm != "" then Some(NoItemsMatch)
    else Some(NoItemsAvailable)
  }

  /**
   * The Edit Shop button: present only when the page was given an edit callback,
   * and clicking it hands the callback the shop being shown.
   */
  function EditClick(hasEditCallback: bool, shop: Shop): Option<Shop>
  {
    if hasEditCallback then Some(shop) else None
  }

  /**
   * `handleGetDirections`: a route from the user when the location is known, a
   * search for the shop otherwise. `num` is JavaScript's number-to-text conversion.
   */
  function DirectionsUrl(user: Option<Location>, shop: Location, num: real -> string): string
  {
    var target := num(shop.latitude) + "," + num(shop.longitude);
    if user.Some? then DirectionsPrefix + num(user.value.latitude) + "," + num(user.value.longitude) + "/" + target
    else SearchPrefix + target
  }

  /** The badge and the banner agree: the banner shows exactly when the badge says closed. */
  lemma BadgeAgreesWithBanner(shop: Shop)
    ensures ClosedBanner(shop) <==> Badge(shop) == CurrentlyClosed
    ensures shop.isOpen.None? ==> Badge(shop) == OpenNow && !ClosedBanner(shop)
  {
  }

  /**
   * The filter keeps, in order, exactly the items whose lowercased name contains the
   * lowercased term; the empty term keeps them all.
   */
  lemma FilteredItemsSpec(items: seq<Item>, searchTerm: string)
    ensures IsSubsequence(FilteredItems(items, searchTerm), items)
    ensures forall it :: it in FilteredItems(items, searchTerm) <==>
      it in items && Includes(ToLower(it.name), ToLower(searchTerm))
    ensures searchTerm == "" ==> FilteredItems(items, searchTerm) == items
  {
    var p := SearchModal.ItemNameMatches(ToLower(searchTerm));
    FilterIsSubsequence(items, p);
    forall it ensures it in FilteredItems(items, searchTerm) <==> it in items && p(it) {
      FilterMembership(items, p, it);
    }
    if searchTerm == "" {
      forall it | it in items ensures p(it) {
        IncludesEmpty(ToLower(it.name));
      }
      FilterAllKept(items, p);
    }
  }

  /**
   * The empty-list note: "No items available" only for an empty term on a shop
   * without items, "No items match your search" when a non-empty term filters
   * everything out, and nothing while some item is listed.
   */
  lemma EmptyNoteSpec(items: seq<Item>, searchTerm: string)
    ensures EmptyNote(items, searchTerm) == Some(NoItemsAvailable) <==> searchTerm == "" && items == []
    ensures EmptyNote(items, searchTerm) == Some(NoItemsMatch) <==>
      searchTerm != "" && forall it :: it in items ==> !Includes(ToLower(it.name), ToLower(searchTerm))
    ensures EmptyNote(items, searchTerm) == None <==> exists it :: it in FilteredItems(items, searchTerm)
  {
    FilteredItemsSpec(items, searchTerm);
    var f := FilteredItems(items, searchTerm);
    if |f| != 0 {
      assert f[0] in f;
    }
  }

  /** The button exists exactly when a callback is supplied, and it passes the shown shop unchanged. */
  lemma EditClickSpec(hasEditCallback: bool, shop: Shop)
    ensures EditClick(hasEditCallback, shop).Some? <==> hasEditCallback
    ensures EditClick(hasEditCallback, shop).Some? ==> EditClick(hasEditCallback, shop).value == shop
  {
  }

  /** The link always ends with the shop's coordinates and starts with the prefix its case selects. */
  lemma DirectionsUrlSpec(user: Option<Location>, shop: Location, num: real -> string)
    ensures var url := DirectionsUrl(user, shop, num);
      var target := num(shop.latitude) + "," + num(shop.longitude);
      && |target| <= |url|
      && url[|url| - |target|..] == target
      && (user.Some? ==> StartsWith(url, DirectionsPrefix))
      && (user.None? ==> url == SearchPrefix + target)
  {
    var url := DirectionsUrl(user, shop, num);
    var target := num(shop.latitude) + "," + num(shop.longitude);
    if user.Some? {
      var head := DirectionsPrefix + num(user.value.latitude) + "," + num(user.value.longitude) + "/";
      assert url == head + target;
      assert url[..|DirectionsPrefix|] == DirectionsPrefix;
    } else {
      assert url == SearchPrefix + target;
    }
  }
}
