/**
 * The search overlay: a blank term gives no results; otherwise the lowercased
 * term is looked up in the shops' name, description and address, or in their
 * item names, depending on the selected kind.
 */
module SearchModal {
  import opened Wrappers
  import opened Types
  import opened Seqs
  import opened Text

  datatype SearchKind = ShopsSearch | ProductsSearch

  /** A result row: the shop, and in a product search the items that matched. */
  datatype Hit = Hit(shop: Shop, matchingItems: Option<seq<Item>>)

  /** What the result pane shows. */
  datatype Pane = StartTyping | NothingFound | Listing(hits: seq<Hit>)

  /** How many matching items a product hit lists before the "+n more" note. */
  const ShownItemLimit := 3

  /** `item.name.toLowerCase().includes(term)`, for an already lowercased `term`. */
  function ItemNameMatches(term: string): Item -> bool
  {
    (it: Item) => Includes(ToLower(it.name), term)
  }

  /** The shop search looks at name, description and address, and at nothing else. */
  function ShopTextMatches(term: string): Shop -> bool
  {
    (s: Shop) => Includes(ToLower(s.name), term) || Includes(ToLower(s.description), term)
                 || Includes(ToLower(s.address), term)
  }

  /** `shop.items.some(item => ...)`. */
  function HasMatchingItem(term: string): Shop -> bool
  {
    (s: Shop) => exists it :: it in s.items && ItemNameMatches(term)(it)
  }

  function MatchingItems(term: string, items: seq<Item>): seq<Item>
  {
    Filter(items, ItemNameMatches(term))
  }

  function ShopHits(shops: seq<Shop>): (r: seq<Hit>)
    ensures |r| == |shops|
  {
    seq(|shops|, i requires 0 <= i < |shops| => Hit(shops[i], None))
  }

  function ProductHits(shops: seq<Shop>, term: string): (r: seq<Hit>)
    ensures |r| == |shops|
  {
    seq(|shops|, i requires 0 <= i < |shops| => Hit(shops[i], Some(MatchingItems(term, shops[i].items))))
  }

  /** The memoised `searchResults`. The blank test trims; the search itself does not. */
  function Search(shops: seq<Shop>, searchTerm: string, kind: SearchKind): seq<Hit>
  {
    if Trim(searchTerm) == "" then []
    else
      var term := ToLower(searchTerm);
      match kind
      case ShopsSearch => ShopHits(Filter(shops, ShopTextMatches(term)))
      case ProductsSearch => ProductHits(Filter(shops, HasMatchingItem(term)), term)
  }

  /** The shops behind a list of hits. */
  function HitShops(hits: seq<Hit>): (r: seq<Shop>)
    ensures |r| == |hits|
    ensures forall i :: 0 <= i < |hits| ==> r[i] == hits[i].shop
  {
    seq(|hits|, i requires 0 <= i < |hits| => hits[i].shop)
  }

  /** The prompt for a blank term, the "no match" note for an empty result, the list otherwise. */
  function PaneFor(searchTerm: string, hits: seq<Hit>): Pane
  {
    if Trim(searchTerm) == "" then StartTyping
    else if |hits| == 0 then NothingFound
    else Listing(hits)
  }

  /** The first three matching items of a product hit. */
  function ShownItems(matching: seq<Item>): (r: seq<Item>)
  {
    if |matching| <= ShownItemLimit then matching else matching[..ShownItemLimit]
  }

  /** The number in the "+n more" note, when there is one. */
  function MoreCount(matching: seq<Item>): Option<nat>
  {
    if |matching| > ShownItemLimit then Some(|matching| - ShownItemLimit) else None
  }

  /** A term made of whitespace only finds nothing, whatever the shops. */
  lemma BlankTermFindsNothing(shops: seq<Shop>, searchTerm: string, kind: SearchKind)
    requires Trim(searchTerm) == ""
    ensures Search(shops, searchTerm, kind) == []
    ensures PaneFor(searchTerm, Search(shops, searchTerm, kind)) == StartTyping
  {
  }

  /**
   * A shop search returns, in catalogue order, exactly the shops whose name,
   * description or address contains the lowercased term, without item lists.
   */
  lemma ShopSearchSpec(shops: seq<Shop>, searchTerm: string)
    requires Trim(searchTerm) != ""
    ensures var hits := Search(shops, searchTerm, ShopsSearch);
      && IsSubsequence(HitShops(hits), shops)
      && (forall s :: s in HitShops(hits) <==> s in shops && ShopTextMatches(ToLower(searchTerm))(s))
      && (forall h :: h in hits ==> h.matchingItems == None)
  {
    var term := ToLower(searchTerm);
    var f := Filter(shops, ShopTextMatches(term));
    var hits := Search(shops, searchTerm, ShopsSearch);
    assert HitShops(hits) == f;
    FilterIsSubsequence(shops, ShopTextMatches(term));
    forall s ensures s in f <==> s in shops && ShopTextMatches(term)(s) {
      FilterMembership(shops, ShopTextMatches(term), s);
    }
  }

  /** A shop has a matching item exactly when its list of matching items is not empty. */
  lemma HasMatchingItemIff(term: string, s: Shop)
    ensures HasMatchingItem(term)(s) <==> MatchingItems(term, s.items) != []
  {
    if HasMatchingItem(term)(s) {
      var it :| it in s.items && ItemNameMatches(term)(it);
      FilterMembership(s.items, ItemNameMatches(term), it);
    }
    if MatchingItems(term, s.items) != [] {
      var it := MatchingItems(term, s.items)[0];
      assert it in MatchingItems(term, s.items);
    }
  }

  /**
   * A product search returns, in catalogue order, exactly the shops with at least
   * one item whose name contains the lowercased term; each hit lists those items,
   * in order, and there is at least one.
   */
  lemma ProductSearchSpec(shops: seq<Shop>, searchTerm: string)
    requires Trim(searchTerm) != ""
    ensures var term := ToLower(searchTerm);
      var hits := Search(shops, searchTerm, ProductsSearch);
      && IsSubsequence(HitShops(hits), shops)
      && (forall s :: s in HitShops(hits) <==> s in shops && MatchingItems(term, s.items) != [])
      && (forall h :: h in hits ==>
            && h.matchingItems == Some(MatchingItems(term, h.shop.items))
            && h.matchingItems.value != []
            && IsSubsequence(h.matchingItems.value, h.shop.items)
            && (forall it :: it in h.matchingItems.value ==> Includes(ToLower(it.name), term)))
  {
    var term := ToLower(searchTerm);
    var f := Filter(shops, HasMatchingItem(term));
    var hits := Search(shops, searchTerm, ProductsSearch);
    assert HitShops(hits) == f;
    FilterIsSubsequence(shops, HasMatchingItem(term));
    forall s ensures s in f <==> s in shops && MatchingItems(term, s.items) != [] {
      FilterMembership(shops, HasMatchingItem(term), s);
      HasMatchingItemIff(term, s);
    }
    forall h | h in hits
      ensures h.matchingItems == Some(MatchingItems(term, h.shop.items))
      ensures h.matchingItems.value != []
      ensures IsSubsequence(h.matchingItems.value, h.shop.items)
      ensures forall it :: it in h.matchingItems.value ==> Includes(ToLower(it.name), term)
    {
      var i :| 0 <= i < |hits| && hits[i] == h;
      assert h.shop == f[i] && f[i] in f;
      HasMatchingItemIff(term, h.shop);
      FilterIsSubsequence(h.shop.items, ItemNameMatches(term));
    }
  }

  /** Searching is case-insensitive: lowercasing the term first changes nothing. */
  lemma SearchIgnoresTermCase(shops: seq<Shop>, searchTerm: string, kind: SearchKind)
    ensures Search(shops, ToLower(searchTerm), kind) == Search(shops, searchTerm, kind)
  {
    TrimToLowerCommute(searchTerm);
    ToLowerIdempotent(searchTerm);
  }

  /** A product hit shows at most three items, and the note accounts for all the rest. */
  lemma ShownItemsSpec(matching: seq<Item>)
    ensures |ShownItems(matching)| <= ShownItemLimit
    ensures IsSubsequence(ShownItems(matching), matching)
    ensures ShownItems(matching) == matching[..|ShownItems(matching)|]
    ensures MoreCount(matching).None? <==> ShownItems(matching) == matching
    ensures MoreCount(matching).Some? ==> |ShownItems(matching)| + MoreCount(matching).value == |matching|
  {
    PrefixIsSubsequence(ShownItems(matching), matching);
  }

  lemma {:induction false} PrefixIsSubsequence(a: seq<Item>, b: seq<Item>)
    requires |a| <= |b| && a == b[..|a|]
    ensures IsSubsequence(a, b)
    decreases |b|
  {
    if a == [] {
    } else {
      assert a[1..] == b[1..][..|a| - 1];
      PrefixIsSubsequence(a[1..], b[1..]);
    }
  }
}
