# BrowseCart, modelled in Dafny

BrowseCart is a local-shop marketplace. Shop owners publish a shop with a location, contact
details and a list of items with quantities. Visitors browse the shops near them, search shops
and products, and open a shop's details. The system has two parts:

- a backend: Express routes over a MongoDB collection of shops and one of users, with the
  Mongoose schemas that normalise and validate documents;
- a React client: a home page with a state machine over its screens, a shops store that works
  either on a bundled demo catalogue or against the API, converters between the two shop
  shapes, and the create, edit, details and search components.

This project models those parts and proves properties of them. Each source file becomes one
Dafny module:

- Pure logic becomes functions and lemmas: the converters, both schemas, the routes' query
  handling, search, details, and the password encoding.
- Logic that updates state in place becomes a class with `modifies` frames: the shops store,
  the two forms, the home page, and the shop and user collections behind the routes.

| module | models |
|---|---|
| `Wrappers`, `Seqs`, `Text` | Option/Result; `Array.prototype.filter` and subsequences; JavaScript `trim`, ASCII `toLowerCase`, `includes`, decimal rendering of a natural number |
| `Types`, `Stock` | the client's `Shop`/`Item` records; the stock label shown for a quantity |
| `ShopConverter` | `apiShopToShop` / `shopToApiShop` |
| `ShopsStore` | the `useShopsApi` hook as a class over `shops`, `isLoading`, `error`, `useApi` |
| `FormInput`, `EditShop`, `CreateShop` | `parseInt(..) || d` inputs; the edit and create forms |
| `SearchModal`, `ShopDetails` | the search modal's results and panes; the details page's badge, item filter, edit button and directions link |
| `IndexPage` | the home page: screen priority, user's shops, nearby list, geolocation callbacks, handlers |
| `ShopSchema`, `UserSchema` | the Mongoose schemas: setters, defaults, validators, and update semantics |
| `Utf8`, `Base64`, `Auth` | `Buffer.from(p).toString('base64')` as the password "hash"; the register and login routes over a user collection with a unique email index |
| `ShopRoutes` | route dispatch order, `/nearby` and `/search` query handling, and get, create, update and delete over a shop collection |

External effects are parameters:

- Server answers, database faults and geolocation fixes are `Result`/`Option` values or
  functions from a request to its answer.
- `calculateDistance` and the demo catalogue's degree-space distance test are function
  parameters.
- Fresh ids (`Date.now()`, `Math.random()`, MongoDB ObjectIds) and the clock are parameters.
- `parseInt`/`parseFloat` come in already parsed, with `None` standing for `NaN`.

Properties worth noting:

- **The password hash can be reversed.**
  - `Auth.HashPasswordReversible` proves that base64-decoding and then UTF-8-decoding a stored
    password gives the original back.
  - `Auth.VerifyPasswordIff` proves that verification accepts exactly the original password.
- **Blank email or name reaches the schema.**
  - The register route's own check (`!email || !password || !name`) lets a whitespace-only
    email or name through.
  - The schema then rejects it, so the route answers 500 rather than 400.
  - `Auth.RegisterSchemaRejectsOnlyBlank` proves that, once the route's checks pass, the schema
    fails for exactly that reason and no other.
- **The create form accepts whitespace-only fields.** Its submit button only requires each
  field to be non-empty (`CreateShop.CreateShopForm.EnabledSubmitHasRequiredFields`).
- **The edit form turns a typed 0 into 1.** Its new-item quantity input uses
  `parseInt(v) || 1`, so a typed `0` becomes `1` (`FormInput.NonZeroFallbackSwallowsZero`).
  The create form uses `|| 0`, which keeps every parsed value
  (`FormInput.ZeroFallbackKeepsParsed`).
- **The home page's fallback filter cannot run.** In API mode `loadNearbyShops` answers `[]`
  on failure and never throws (src/hooks/useShopsApi.ts:73-79), so the catch block of
  `filterNearbyShops` is unreachable. `IndexPage.HomePage.FilterNearbyShops` shows the
  outcome: an empty nearby list.
- **Demo mode uses two different nearby filters.**
  - The store's own filter works over the demo catalogue with a degree-space test.
  - The home page, in demo mode, filters the live list with `calculateDistance(..) <= 2`.
  - `ShopsStore.MockNearbyFromCatalogue` and `IndexPage.LocalNearbySpec` state the two
    filters separately.

Where the documented behaviour and the code differ, the model follows the code:

- **Search query.** The search route rejects only a missing or empty `q`; it does not trim it
  (backend/routes/shops.js:57).
- **Movement threshold.** The location watch compares `calculateDistance`, which is in
  kilometres, with `0.01`, which is 10 m (src/pages/Index.tsx:80-86). It is not a
  0.01-degree threshold.

## Model

| member | source | states |
|---|---|---|
| Text.Trim | src/components/EditShop.tsx:18 | `String.prototype.trim`: both ends stripped of white space; properties in TrimShape, TrimIdempotent, TrimEmptyIff |
| Text.TrimShape | src/components/EditShop.tsx:18-21 | `trim` yields a contiguous piece of the input with no white space at either end |
| Text.TrimIdempotent | backend/models/Shop.js:5-9 | trimming an already trimmed value changes nothing |
| Text.TrimEmptyIff | src/components/SearchModal.tsx:17 | a term trims to "" exactly when every character is white space |
| Text.TrimStart | src/components/EditShop.tsx:18 | the result is a suffix of the input, starts with no white space, and only white space was dropped |
| Text.TrimEnd | src/components/EditShop.tsx:18 | the result is a prefix of the input, ends with no white space, and only white space was dropped |
| Text.LowerChar | src/components/SearchModal.tsx:19 | `toLowerCase` on one character, ASCII letters only; properties in ToLowerIdempotent |
| Text.ToLower | src/components/SearchModal.tsx:19 | lowercasing keeps the length and maps each character on its own |
| Text.ToLowerIdempotent | src/components/SearchModal.tsx:19-25 | lowercasing twice is lowercasing once, and no uppercase ASCII letter remains |
| Text.TrimToLowerCommute | backend/models/User.js:7-13 | the order of the `lowercase` and `trim` setters does not matter |
| Text.Includes | src/components/SearchModal.tsx:23-25 | `String.prototype.includes`; characterised by IncludesIff, IncludesEmpty, IncludesTooLong |
| Text.IncludesIff | src/components/SearchModal.tsx:23-25 | `s.includes(t)` holds exactly when `t` occurs in `s` at some index |
| Text.IncludesEmpty | src/components/ShopDetails.tsx:16-18 | the empty term is included in every name, so an empty filter keeps everything |
| Text.IncludesTooLong | src/components/SearchModal.tsx:23-25 | a term longer than the text never matches |
| Text.NatToString | src/components/CreateShop.tsx:56 | the decimal rendering is non-empty, all digits, without a leading zero |
| Text.ParseNatToString | src/components/CreateShop.tsx:56 | reading the decimal rendering back gives the number |
| Text.NatToStringInjective | src/components/CreateShop.tsx:56 | different numbers render differently |
| Text.TrimLowerCanonical | backend/models/User.js:7-13 | the stored email form is a fixed point of the setters and has no uppercase letter |
| Types.ItemContents | src/types/index.ts:7-11 | the (name, quantity) pairs of the items, in order |
| Stock.StockLabelOf | src/components/ShopDetails.tsx:229-235 | the stock badge for a quantity; its thresholds are StockLabelCases |
| Stock.StockLabelCases | src/components/ShopDetails.tsx:229-235 | "In Stock" exactly above 10, "Limited" exactly for 1..10, "Out of Stock" exactly at 0 or below |
| Stock.StockLabelMonotone | src/components/EditShop.tsx:150 | more stock never gives a worse label |
| Stock.LabelText | src/components/ShopDetails.tsx:235 | the text is one of the three labels |
| ShopConverter.ItemFromApi | src/utils/shopConverter.ts:16-20 | an API item as a client item with the minted id; properties in ConversionKeepsItems |
| ShopConverter.ApiShopToShop | src/utils/shopConverter.ts:5-29 | `apiShopToShop`; its inverse is ShopToApiShop, connected by RoundTripShop and RoundTripApiShop |
| ShopConverter.ShopToApiShop | src/utils/shopConverter.ts:31-53 | `shopToApiShop`; its layout is ShopToApiShopLayout and ShopToApiShopDropsIds |
| ShopConverter.ApiItemContents | src/utils/shopConverter.ts:41-44 | the (name, quantity) pairs of API items, in order |
| ShopConverter.ShopToApiShopLayout | src/utils/shopConverter.ts:36-39 | the API point is `"Point"` with coordinates `[longitude, latitude]` |
| ShopConverter.ShopToApiShopDropsIds | src/utils/shopConverter.ts:31-53 | the API shape carries no shop or item id, the given creator, and ignores the shop's own creator |
| ShopConverter.ApiShopToShopId | src/utils/shopConverter.ts:7 | the client id is `_id`, or "" when absent |
| ShopConverter.ConversionKeepsItems | src/utils/shopConverter.ts:16-44 | both directions keep every item's name and quantity, in order |
| ShopConverter.RoundTripShop | src/utils/shopConverter.ts:5-53 | client → API → client gives the shop back except for an empty id, the given creator and freshly minted item ids |
| ShopConverter.RoundTripApiShop | src/utils/shopConverter.ts:5-53 | API → client → API gives the document back except `_id`, the time stamps and item ids |
| ShopsStore.RemoveById | src/hooks/useShopsApi.ts:142 | `shops.filter(s => s.id !== id)`; characterised by RemoveByIdSpec and RemoveAbsentId |
| ShopsStore.MockNearby | src/hooks/useShopsApi.ts:53-62 | the demo catalogue filtered by the degree-space test; characterised by MockNearbyFromCatalogue |
| ShopsStore.ReplaceById | src/hooks/useShopsApi.ts:114-116 | replacing by id keeps the length |
| ShopsStore.ConvertAll | src/hooks/useShopsApi.ts:40 | converting a list of API shops keeps its length |
| ShopsStore.RemoveByIdSpec | src/hooks/useShopsApi.ts:142 | removal drops exactly the shops with the id, keeps the others with their multiplicity and order |
| ShopsStore.RemoveAbsentId | src/hooks/useShopsApi.ts:150 | removing an id nobody has changes nothing |
| ShopsStore.ReplaceByIdSpec | src/hooks/useShopsApi.ts:126-128 | replacement keeps the ids in order, replaces every shop with the id and leaves the others in place |
| ShopsStore.ReplaceThenRemove | src/hooks/useShopsApi.ts:112-150 | a replaced shop is invisible once its id is removed: nothing else changed |
| ShopsStore.MockNearbyFromCatalogue | src/hooks/useShopsApi.ts:53-62 | demo-mode nearby shops are exactly the catalogue shops passing the distance test, in order |
| ShopsStore.ShopsStore.constructor | src/hooks/useShopsApi.ts:8-12 | the store starts on the demo catalogue, idle, without error, in demo mode |
| ShopsStore.ShopsStore.TestApiConnection | src/hooks/useShopsApi.ts:15-27 | the API is used exactly when the probe succeeded; the list and error are untouched |
| ShopsStore.ShopsStore.LoadShops | src/hooks/useShopsApi.ts:30-50 | demo mode reloads the catalogue; API mode converts the answer, or falls back to the catalogue with an error |
| ShopsStore.ShopsStore.LoadNearbyShops | src/hooks/useShopsApi.ts:53-80 | demo mode filters the catalogue; API mode asks for 2 km and converts, or yields `[]` with an error; the list never changes |
| ShopsStore.ShopsStore.CreateShop | src/hooks/useShopsApi.ts:83-109 | demo mode appends the shop with a fresh id and the current creator; API mode appends the server's answer, or fails leaving the list |
| ShopsStore.ShopsStore.UpdateShop | src/hooks/useShopsApi.ts:112-137 | demo mode replaces by the shop's id; API mode replaces by the answer's id, or fails leaving the list |
| ShopsStore.ShopsStore.DeleteShop | src/hooks/useShopsApi.ts:140-158 | demo mode removes by id; API mode removes only after the server succeeded, or fails leaving the list |
| FormInput.IntOr | src/components/EditShop.tsx:98 | `parseInt(v) \|\| d`: a non-zero parse is kept, `NaN` and `0` give the fallback |
| FormInput.RealOr | src/components/CreateShop.tsx:230 | `parseFloat(v) \|\| d`: a non-zero parse is kept, `NaN` and `0` give the fallback |
| FormInput.ZeroFallbackKeepsParsed | src/components/CreateShop.tsx:230-273 | with fallback 0 every parsed value is kept and only `NaN` becomes 0 |
| FormInput.NonZeroFallbackSwallowsZero | src/components/EditShop.tsx:98 | with a non-zero fallback a typed 0 is replaced, so the input can never hold 0 |
| EditShop.RemoveItemById | src/components/EditShop.tsx:30-32 | `items.filter(i => i.id !== id)`; characterised by RemoveItemByIdSpec |
| EditShop.ClampQuantity | src/components/EditShop.tsx:37 | `Math.max(0, q)` is non-negative, at least `q`, and `q` itself when `q >= 0` |
| EditShop.SetQuantity | src/components/EditShop.tsx:34-40 | the quantity update keeps the length |
| EditShop.RemoveItemByIdSpec | src/components/EditShop.tsx:30-32 | removal drops exactly the items with the id and keeps the others, with multiplicity and order |
| EditShop.SetQuantitySpec | src/components/EditShop.tsx:34-40 | ids and names stay, matching items get the clamped quantity, others are untouched, non-negativity is preserved |
| EditShop.EditShopForm.constructor | src/components/EditShop.tsx:12-15 | the form starts with the shop's items, an empty name and quantity 1 |
| EditShop.EditShopForm.SetNewItemQuantity | src/components/EditShop.tsx:98 | the new-item quantity is `parseInt(v) \|\| 1` |
| EditShop.EditShopForm.AddItem | src/components/EditShop.tsx:17-28 | a non-blank name appends one item with the trimmed name and resets the inputs; a blank one changes nothing |
| EditShop.EditShopForm.RemoveItem | src/components/EditShop.tsx:30-32 | the items become the removal by id |
| EditShop.EditShopForm.UpdateItemQuantity | src/components/EditShop.tsx:34-40 | the items become the clamped quantity update |
| EditShop.EditShopForm.UpdateItemQuantityInput | src/components/EditShop.tsx:138 | the quantity field applies `parseInt(v) \|\| 0` and then the clamped update |
| EditShop.EditShopForm.Save | src/components/EditShop.tsx:42-48 | the saved shop is the original with only its items replaced |
| CreateShop.RemoveAt | src/components/CreateShop.tsx:37-39 | `items.filter((_, i) => i !== index)`; characterised by RemoveAtSpec |
| CreateShop.ItemId | src/components/CreateShop.tsx:56 | `item-${Date.now()}-${index}`; injective in the index by ItemIdInjective |
| CreateShop.WithIds | src/components/CreateShop.tsx:54-57 | numbering, with one clock reading per item, keeps the number of items |
| CreateShop.DraftContents | src/components/CreateShop.tsx:22 | the (name, quantity) pairs of the drafts, in order |
| CreateShop.RemoveAtSpec | src/components/CreateShop.tsx:37-39 | removal at an index drops exactly that element, keeps the order, and ignores an index outside the list |
| CreateShop.IndexPartOfItemId | src/components/CreateShop.tsx:56 | the index can be read back from an id, whatever clock reading it carries |
| CreateShop.ItemIdInjective | src/components/CreateShop.tsx:56 | `item-<t>-<i>` and `item-<u>-<j>` differ whenever `i != j`, for any readings `t`, `u` |
| CreateShop.WithIdsSpec | src/components/CreateShop.tsx:54-57 | submitted item ids are pairwise distinct and names and quantities stay in order |
| CreateShop.CreateShopForm.constructor | src/components/CreateShop.tsx:12-24 | the form starts empty at the user's location, or at (0, 0) when unknown |
| CreateShop.CreateShopForm.SetLatitude | src/components/CreateShop.tsx:230 | the latitude becomes `parseFloat(v) \|\| 0`, the longitude stays |
| CreateShop.CreateShopForm.SetLongitude | src/components/CreateShop.tsx:238 | the longitude becomes `parseFloat(v) \|\| 0`, the latitude stays |
| CreateShop.CreateShopForm.UseCurrentLocation | src/components/CreateShop.tsx:64-78 | a position fix replaces the location; a failed request leaves it |
| CreateShop.CreateShopForm.SetNewItemQuantity | src/components/CreateShop.tsx:273 | the new-item quantity is `parseInt(v) \|\| 0` |
| CreateShop.CreateShopForm.AddItem | src/components/CreateShop.tsx:26-35 | a non-blank name appends one draft with the trimmed name and resets the inputs; a blank one changes nothing |
| CreateShop.CreateShopForm.RemoveItem | src/components/CreateShop.tsx:37-39 | the drafts become the removal at the index |
| CreateShop.CreateShopForm.Submit | src/components/CreateShop.tsx:41-62 | the shop carries every input, no empty poster, the placeholder owner, and items numbered `item-<clock[i]>-<i>` (one clock reading per item) with distinct ids |
| CreateShop.CreateShopForm.EnabledSubmitHasRequiredFields | src/components/CreateShop.tsx:324 | with the button enabled every required text field submitted is non-empty |
| SearchModal.MatchingItems | src/components/SearchModal.tsx:35-37 | the items whose lowercased name contains the term; related to `some` by HasMatchingItemIff |
| SearchModal.Search | src/components/SearchModal.tsx:16-42 | `searchResults`; characterised by BlankTermFindsNothing, ShopSearchSpec, ProductSearchSpec, SearchIgnoresTermCase |
| SearchModal.PaneFor | src/components/SearchModal.tsx:101-116 | the pane shown: start typing, nothing found, or the results; BlankTermFindsNothing |
| SearchModal.ShownItems | src/components/SearchModal.tsx:138 | `matchingItems.slice(0, 3)`; characterised by ShownItemsSpec |
| SearchModal.MoreCount | src/components/SearchModal.tsx:146-148 | the "+n more" count; characterised by ShownItemsSpec |
| SearchModal.ShopHits | src/components/SearchModal.tsx:22-26 | one hit per shop, without matching items |
| SearchModal.ProductHits | src/components/SearchModal.tsx:33-38 | one hit per shop, with its matching items |
| SearchModal.HitShops | src/components/SearchModal.tsx:125 | the shops of the hits, in order |
| SearchModal.BlankTermFindsNothing | src/components/SearchModal.tsx:17-19 | a blank term gives no results and the "start typing" pane |
| SearchModal.ShopSearchSpec | src/components/SearchModal.tsx:21-26 | a shop search keeps exactly the shops whose name, description or address contains the lowercased term, in order |
| SearchModal.HasMatchingItemIff | src/components/SearchModal.tsx:29-38 | `some` item matches exactly when the list of matching items is non-empty |
| SearchModal.ProductSearchSpec | src/components/SearchModal.tsx:27-41 | a product search keeps exactly the shops with a matching item, each with its non-empty, ordered matching items |
| SearchModal.SearchIgnoresTermCase | src/components/SearchModal.tsx:19 | the term's case makes no difference |
| SearchModal.ShownItemsSpec | src/components/SearchModal.tsx:138-148 | at most three matching items are shown, a prefix, and "+n more" counts exactly the rest |
| ShopDetails.Badge | src/components/ShopDetails.tsx:70-72 | the open or closed badge; BadgeAgreesWithBanner |
| ShopDetails.ClosedBanner | src/components/ShopDetails.tsx:106 | `shop.isOpen === false`; BadgeAgreesWithBanner |
| ShopDetails.FilteredItems | src/components/ShopDetails.tsx:16-18 | the case-insensitive item filter; characterised by FilteredItemsSpec |
| ShopDetails.EmptyNote | src/components/ShopDetails.tsx:212-217 | the note under an empty item list; characterised by EmptyNoteSpec |
| ShopDetails.EditClick | src/components/ShopDetails.tsx:85-93 | the edit button's effect; characterised by EditClickSpec |
| ShopDetails.DirectionsUrl | src/components/ShopDetails.tsx:20-30 | the Google Maps link; characterised by DirectionsUrlSpec |
| ShopDetails.BadgeAgreesWithBanner | src/components/ShopDetails.tsx:70-106 | the "closed" banner shows exactly when the badge says closed; a shop without the flag is open |
| ShopDetails.FilteredItemsSpec | src/components/ShopDetails.tsx:16-18 | the item filter keeps exactly the items whose lowercased name contains the lowercased term, in order; an empty term keeps all |
| ShopDetails.EmptyNoteSpec | src/components/ShopDetails.tsx:212-217 | "No items available" for an empty unfiltered list, "No items match" when a term matches nothing, no note otherwise |
| ShopDetails.EditClickSpec | src/components/ShopDetails.tsx:85-93 | the edit button opens the editor on this shop only when an edit callback was given |
| ShopDetails.DirectionsUrlSpec | src/components/ShopDetails.tsx:20-30 | the link ends with the shop's coordinates; a route from the user when located, a search otherwise |
| IndexPage.UserShops | src/pages/Index.tsx:46 | the shops created by the current user; characterised by UserShopsSpec |
| IndexPage.LocalNearby | src/pages/Index.tsx:146-154 | the page's 2 km filter; characterised by LocalNearbySpec |
| IndexPage.PageScreen | src/pages/Index.tsx:270-548 | the page screen below every overlay; characterised by PageScreenLists |
| IndexPage.SelectScreen | src/pages/Index.tsx:211-320 | the if-chain choosing the screen; characterised by ScreenPriority and DetailsEditIff |
| IndexPage.UserShopsSpec | src/pages/Index.tsx:46 | the user's shops are exactly the shops they created, in order, with multiplicity |
| IndexPage.LocalNearbySpec | src/pages/Index.tsx:146-154 | the page's nearby filter keeps exactly the shops within 2 km, in order |
| IndexPage.ScreenPriority | src/pages/Index.tsx:211-320 | editor, then details, then create form, then page; a lower layer's state makes no difference |
| IndexPage.DetailsEditIff | src/pages/Index.tsx:243 | on the details screen editing opens exactly for the shop's creator |
| IndexPage.PageScreenLists | src/pages/Index.tsx:501-548 | the home list is the nearby list when granted and all shops otherwise; the search modal searches all shops; the profile lists the user's shops |
| IndexPage.MovesSpec | src/pages/Index.tsx:80-89 | the first fix is always taken; a fix at the captured location is not |
| IndexPage.FindById | src/pages/Index.tsx:192 | `find` gives the first shop with the id, or nothing exactly when no shop has it |
| IndexPage.HomePage.constructor | src/pages/Index.tsx:19-26 | no location, no nearby shops, no overlay, home page, permission pending |
| IndexPage.HomePage.Navigate | src/pages/Index.tsx:203-209 | the page changes, every overlay and the search close, and the page itself is shown |
| IndexPage.HomePage.SelectShop | src/pages/Index.tsx:532 | the shop is selected and its details show unless the editor is open |
| IndexPage.HomePage.SelectSearchHit | src/components/SearchModal.tsx:125-128 | the hit is selected and the search closes; its details show unless the editor is open |
| IndexPage.HomePage.OpenSearch | src/pages/Index.tsx:403 | the search opens, over the home list, searching every shop |
| IndexPage.HomePage.OpenCreateForm | src/pages/Index.tsx:218 | the create form opens and shows unless an editor or details are open |
| IndexPage.HomePage.OnPositionSuccess | src/pages/Index.tsx:73-92 | permission becomes granted; the location is replaced only on the first fix or a move of more than 0.01 km |
| IndexPage.HomePage.OnPositionError | src/pages/Index.tsx:94-102 | permission becomes denied and the location (40.7128, -74.0060) |
| IndexPage.HomePage.FilterNearbyShops | src/pages/Index.tsx:124-157 | nothing without a location; demo mode: the 2 km filter over the live list; API mode: the store's nearby answer, `[]` on failure |
| IndexPage.HomePage.HandleCreateShop | src/pages/Index.tsx:159-167 | the form closes exactly when the store accepted the shop, which is then appended; in API mode the result and error are the server answer's, in demo mode the shop with its fresh id and creator |
| IndexPage.HomePage.HandleUpdateShop | src/pages/Index.tsx:169-178 | success closes the editor and shows the stored shop's details; failure leaves both and the list; in API mode the result and error are the server answer's |
| IndexPage.HomePage.HandleToggleShopStatus | src/pages/Index.tsx:191-201 | nothing when no shop has the id; otherwise the first such shop is sent with only its open flag changed, and the list is replaced by the answer (API) or the sent shop (demo), or kept on a server error |
| IndexPage.HomePage.HandleDeleteShop | src/pages/Index.tsx:180-189 | the store is asked to delete only after confirmation |
| ShopSchema.NormalizeItem | backend/models/Shop.js:39-52 | one item after its setters and its quantity default; NormalizeItemsIdempotent |
| ShopSchema.Normalize | backend/models/Shop.js:4-85 | the document after the setters and defaults; NormalizeIdempotent, DefaultsDoNotOverwrite |
| ShopSchema.QuantityErrors | backend/models/Shop.js:46-51 | the item paths failing `min: 0`; QuantityErrorsExplained |
| ShopSchema.FieldErrors | backend/models/Shop.js:5-34 | the top-level paths failing their rules; FieldErrorsOf and ErrorsExplained |
| ShopSchema.Errors | backend/models/Shop.js:4-88 | every failing path of a normalised document; ErrorsExplained |
| ShopSchema.Validate | backend/models/Shop.js:4-88 | document validation: the stored form or the failing paths; ValidateAcceptsIff, ValidateStable |
| ShopSchema.NormalizePatch | backend/routes/shops.js:112-116 | the setters applied to an update, without defaults; MergeKeepsNormal |
| ShopSchema.PatchErrors | backend/routes/shops.js:112-116 | the update validators over the paths an update sets; PatchAcceptedIff |
| ShopSchema.Merge | backend/routes/shops.js:112-116 | `$set` of the fields an update carries; MergeKeepsStored, MergeKeepsNormal, MergeKeepsValid |
| ShopSchema.Trimmed | backend/models/Shop.js:5-9 | a `trim` path is present exactly when the raw value is |
| ShopSchema.TrimmedLower | backend/models/Shop.js:63-68 | a `trim, lowercase` path is present exactly when the raw value is |
| ShopSchema.NormalizeItems | backend/models/Shop.js:39-52 | each item is normalised on its own, keeping the number of items |
| ShopSchema.ValidateAcceptsIff | backend/models/Shop.js:4-88 | a document is accepted exactly when name (trimmed), description and address are non-empty, the point type is absent or `"Point"`, there are two coordinates and no negative quantity |
| ShopSchema.ErrorsExplained | backend/models/Shop.js:4-34 | each top-level path fails exactly when its rule is broken |
| ShopSchema.FieldErrorsOf | backend/models/Shop.js:5-34 | the failing top-level paths of a normalised document, one rule each |
| ShopSchema.QuantityErrorsExplained | backend/models/Shop.js:46-51 | an item path fails exactly for an item with a negative quantity, an absent one counting as 0 |
| ShopSchema.NormalizeIdempotent | backend/models/Shop.js:4-85 | normalising twice is normalising once |
| ShopSchema.NormalizeItemsIdempotent | backend/models/Shop.js:39-52 | normalising the items twice is normalising them once |
| ShopSchema.ValidateStable | backend/models/Shop.js:4-88 | an accepted document is stored normalised and saving it again changes nothing |
| ShopSchema.DefaultsDoNotOverwrite | backend/models/Shop.js:18-85 | defaults fill only absent values: point type, coordinates, poster, items, quantities, open flag |
| ShopSchema.PatchAcceptedIff | backend/routes/shops.js:112-116 | an update passes its validators exactly when every field it sets obeys its rule |
| ShopSchema.MergeKeepsStored | backend/routes/shops.js:112-116 | an accepted update applied to a stored document gives a stored document |
| ShopSchema.MergeKeepsNormal | backend/routes/shops.js:112-116 | an update after its setters keeps a normalised document normalised |
| ShopSchema.MergeKeepsValid | backend/routes/shops.js:112-116 | an update that passes its validators keeps a valid document valid |
| ShopRoutes.Segments | backend/routes/shops.js:4 | the default non-strict router ignores one trailing slash |
| ShopRoutes.SegmentIs | backend/routes/shops.js:4 | the default case-insensitive router matches a literal segment in any ASCII case |
| ShopRoutes.Dispatch | backend/routes/shops.js:7-148 | the handler the router picks in registration order, ignoring ASCII case in `nearby`/`search` and one trailing slash; DispatchPrecedence, DispatchFoldsCaseAndSlash |
| ShopRoutes.NearbyQuery | backend/routes/shops.js:18-44 | the `/nearby` parameter checks and the `$near` query; NearbyQuerySpec |
| ShopRoutes.NearbyResponse | backend/routes/shops.js:18-51 | the `/nearby` answer from the database's result; NearbyQuerySpec |
| ShopRoutes.SearchResponse | backend/routes/shops.js:54-75 | the `/search` answer; characterised by SearchResponseSpec |
| ShopRoutes.DispatchPrecedence | backend/routes/shops.js:7-148 | `/nearby` and `/search`, in any case and with or without a trailing slash, win over `/:id`; `/:id` takes every other single non-empty segment, keeping its case |
| ShopRoutes.DispatchFoldsCaseAndSlash | backend/routes/shops.js:18-54 | `GET /Nearby`, `GET /SEARCH` and `GET /nearby/` reach the nearby and search handlers; `/Abc/` reaches `/:id` with id `Abc` |
| ShopRoutes.NearbyQuerySpec | backend/routes/shops.js:18-44 | 400 without both coordinates or on a failed parse; otherwise a `"Point"` at `[lng, lat]` and radius×1000 m, 2 km by default |
| ShopRoutes.SearchResponseSpec | backend/routes/shops.js:54-75 | 400 exactly without a query; otherwise the database's answer or its error with 500 |
| ShopRoutes.StoredAfterReplace | backend/routes/shops.js:110-131 | replacing one document by a stored one keeps the collection stored |
| ShopRoutes.ShopCollection.constructor | backend/models/Shop.js:101 | the collection starts empty and valid |
| ShopRoutes.ShopCollection.GetById | backend/routes/shops.js:78-92 | 400 for a malformed id, 500 for another fault, 404 when absent, otherwise the document |
| ShopRoutes.ShopCollection.FaultResponse | backend/routes/shops.js:141-147 | a malformed id gives 400, any other fault 500 |
| ShopRoutes.ShopCollection.Create | backend/routes/shops.js:95-107 | 400 with the failing paths, 500 on a save fault, else exactly the normalised document added under the new id |
| ShopRoutes.ShopCollection.Update | backend/routes/shops.js:110-131 | malformed id, then validators (400), then other faults (500), then 404; else the merge, and only then does the collection change |
| ShopRoutes.ShopCollection.Delete | backend/routes/shops.js:134-148 | faults and a missing id change nothing; else exactly that document goes |
| UserSchema.Errors | backend/models/User.js:6-28 | the failing paths of a normalised user; ValidateAcceptsIff |
| UserSchema.Validate | backend/models/User.js:6-28 | user validation: the stored form or the failing paths; ValidateAcceptsIff, ValidateStores |
| UserSchema.Normalize | backend/models/User.js:24-27 | a normalised user always has a creation time |
| UserSchema.ValidateAcceptsIff | backend/models/User.js:6-28 | a user is accepted exactly when the normalised email and name are non-empty and the password has six UTF-16 units |
| UserSchema.ValidateStores | backend/models/User.js:6-28 | an accepted user stores the normalised email and name, the password as given, and the creation time |
| UserSchema.NormalizeIdempotent | backend/models/User.js:7-27 | normalising again, at any time, changes nothing |
| UserSchema.CreatedAtDefault | backend/models/User.js:24-27 | the creation time defaults to now only when absent |
| Utf8.Encode | backend/routes/auth.js:13-15 | `Buffer.from(p)`: the UTF-8 bytes; its inverse Decode is connected by DecodeEncode |
| Utf8.Decode | backend/routes/auth.js:13-15 | UTF-8 decoding, the inverse used to state that the hash is reversible; DecodeEncode |
| Utf8.EncodeChar | backend/routes/auth.js:14 | a character takes 1 to 4 bytes, at least its UTF-16 units |
| Utf8.DecodeEncodeChar | backend/routes/auth.js:14 | each encoded character decodes back, whatever follows |
| Utf8.DecodeEncode | backend/routes/auth.js:14 | UTF-8 decoding the encoding gives the text back |
| Utf8.EncodeInjective | backend/routes/auth.js:17-19 | different passwords have different bytes |
| Utf8.Utf16LengthAtMostBytes | backend/routes/auth.js:61 | the JavaScript length never exceeds the byte length |
| Utf8.Utf16LengthOfBmp | backend/models/User.js:14-18 | without astral characters the JavaScript length is the character count |
| Base64.Encode | backend/routes/auth.js:13-15 | `toString('base64')` with `=` padding; its inverse Decode is connected by DecodeEncode |
| Base64.Decode | backend/routes/auth.js:13-15 | base64 decoding, the inverse used to state that the hash is reversible; DecodeEncode |
| Base64.SextetRoundTrip | backend/routes/auth.js:14 | each sextet's character decodes to it and is not the pad |
| Base64.RegroupBytes | backend/routes/auth.js:14 | splitting three bytes into sextets and joining them gives the bytes |
| Base64.DecodeEncode | backend/routes/auth.js:13-15 | base64 decoding the encoding gives the bytes back |
| Base64.EncodeLength | backend/routes/auth.js:13-15 | the encoding has `4 * ceil(n / 3)` characters |
| Base64.EncodeAlphabet | backend/routes/auth.js:13-15 | the encoding uses only the alphabet and the pad |
| Base64.EncodeInjective | backend/routes/auth.js:17-19 | different bytes have different encodings |
| Auth.HashPassword | backend/routes/auth.js:13-15 | `Buffer.from(password).toString('base64')`; HashPasswordShape, HashPasswordReversible |
| Auth.VerifyPassword | backend/routes/auth.js:17-19 | the stored hash compared with the offered password's hash; VerifyPasswordIff |
| Auth.Public | backend/routes/auth.js:92 | the returned user is the stored one without the password |
| Auth.HashPasswordShape | backend/routes/auth.js:13-15 | the hash has `4 * ceil(bytes / 3)` characters of the base64 alphabet |
| Auth.HashPasswordReversible | backend/routes/auth.js:13-15 | the stored hash decodes to the password |
| Auth.VerifyPasswordIff | backend/routes/auth.js:17-19 | verification accepts exactly the original password |
| Auth.HashOfAcceptedPasswordIsLongEnough | backend/routes/auth.js:61-85 | the hash of a password the route accepts passes the schema's length rule |
| Auth.AppendKeepsUnique | backend/models/User.js:7-13 | adding a user with a new email keeps emails unique |
| Auth.UserStore.constructor | backend/models/User.js:30 | the collection starts empty, with unique emails |
| Auth.UserStore.FindByEmail | backend/routes/auth.js:70 | the lookup finds a user with the normalised email, or none exists |
| Auth.UserStore.FirstWithEmail | backend/routes/auth.js:135 | a found user has the email; none found means nobody has it |
| Auth.UserStore.Register | backend/routes/auth.js:37-108 | connection 500, fields 400, length 400, lookup fault 500, existing 400, then schema rejection 500 with the failing paths, save fault 500, or exactly one user added with the hashed password and 201 |
| Auth.UserStore.Login | backend/routes/auth.js:111-166 | connection 500, fields 400, lookup fault 500, unknown email and wrong password the same 401, else 200 with the public user |
| Auth.RegisterSchemaRejectsOnlyBlank | backend/routes/auth.js:56-88 | after the route's checks the schema fails exactly for a blank email or name |

## Left out

- Rendering, styling, icons, animation and the Header, Navbar, Profile, About and Reviews
  pages. Only the data the home page hands to each screen is modelled.
- React scheduling and effects: re-render timing, `useEffect` triggers (reload on
  `userLocation`/`shops` change, the mount-time probe), `useCallback` identities and async
  interleaving. Each handler is modelled as one atomic step.
- IndexPage.HomePage.OnPositionSuccess: the watch callback closes over the first render's
  `userLocation`. The model takes that captured value as a parameter and does not claim that
  the 0.01 km check suppresses updates at run time.
- `startLocationTracking`, `requestLocation`, `clearWatch` and their options: geolocation is
  I/O. Fixes and errors arrive as method calls.
- Floating point: coordinates and distances are reals. `calculateDistance`, the Euclidean
  degree test and number-to-text conversion are parameters.
- `Date.now()`, `Math.random()` and ObjectId generation: fresh ids and times are parameters.
  The create form takes one clock reading per item, with no order between the readings assumed.
  Create requires the new id to be unused, as ObjectIds are.
- `window.confirm`, `window.open`, `console` output, toasts, and the plain text-input setters
  (`setName`, `setSearchTerm`, ...), which only store the typed text.
- ShopRoutes.Dispatch: only the router's defaults used here are modelled (case-insensitive literal segments,
  a trailing slash ignored); percent-decoding of the path and the server's mount (backend/server.js is not part
  of this model) are not.
- MongoDB: `$near` great-circle search, `$regex` matching (q is a regular expression, not a
  substring), sorting by `createdAt`, the text index, `timestamps`, and when the unique index
  is enforced. Query results are inputs; a duplicate key at save time is a save fault.
- ShopSchema.PatchErrors: an update is a flat `$set` of top-level fields. Replacing a nested
  `location` object, update operators other than `$set`, and Mongoose casting of
  mistyped values are not modelled.
- Auth.UserStore.FindByEmail: the lookup uses the email after the schema's setters (trim,
  lowercase), which is how Mongoose casts query values.
- Validation messages: schema failures are modelled as the set of failing paths, not Mongoose's
  message text.
- The `mongooseState` field of the 500 bodies, the `GET /api/auth/test` route, the `GET /` list
  route, and the express server setup and CORS (backend/server.js is not part of this model).
- Lone surrogate code units in strings: `string` is a sequence of Unicode scalar values. The
  UTF-16 length counts astral characters as two units.
- Text.LowerChar: `toLowerCase` is modelled on ASCII letters only; other scripts' case mappings
  are not.
- JavaScript truthiness of non-string request fields (`!email` on numbers or objects): request
  fields are optional strings.
- The API client (src/services/api.ts) and the demo catalogue (src/data/mockData) are not part
  of this model. Server calls are parameters and the catalogue is a constructor argument.
