/**
 * The shop document schema. Saving a document first normalises it (trims,
 * lowercases and fills defaults) and then validates the result; a document is
 * stored only when no path fails.
 *
 * A raw document has every field optional: `None` is an absent field. After
 * normalisation `posterUrl == None` is the stored `null`.
 */
module ShopSchema {
  import opened Wrappers
  import opened Text

  datatype RawItem = RawItem(name: Option<string>, quantity: Option<int>)

  datatype RawShop = RawShop(
    name: Option<string>,
    description: Option<string>,
    address: Option<string>,
    locationType: Option<string>,
    coordinates: Option<seq<real>>,
    posterUrl: Option<string>,
    items: Option<seq<RawItem>>,
    owner: Option<string>,
    phone: Option<string>,
    email: Option<string>,
    openingHours: Option<string>,
    category: Option<string>,
    createdBy: Option<string>,
    isOpen: Option<bool>)

  /** The schema paths whose validators can fail. */
  datatype ShopPath =
    | NamePath | DescriptionPath | AddressPath | LocationTypePath | CoordinatesPath
    | ItemQuantityPath(index: nat)

  const PointType := "Point"
  const DefaultItemQuantity := 0
  const CoordinatesMessage := "Coordinates must contain exactly 2 numbers [longitude, latitude]"

  /** A `trim: true` string path. */
  function Trimmed(x: Option<string>): (r: Option<string>)
    ensures r.Some? <==> x.Some?
  {
    if x.Some? then Some(Trim(x.value)) else None
  }

  /** A `trim: true, lowercase: true` string path. */
  function TrimmedLower(x: Option<string>): (r: Option<string>)
    ensures r.Some? <==> x.Some?
  {
    if x.Some? then Some(TrimLower(x.value)) else None
  }

  /** An item sub-document: no `_id`, a trimmed name, quantity `0` when absent. */
  function NormalizeItem(it: RawItem): RawItem
  {
    RawItem(Trimmed(it.name), Some(OrDefault(it.quantity, DefaultItemQuantity)))
  }

  function NormalizeItems(items: seq<RawItem>): (r: seq<RawItem>)
    ensures |r| == |items|
    ensures forall i :: 0 <= i < |items| ==> r[i] == NormalizeItem(items[i])
  {
    seq(|items|, i requires 0 <= i < |items| => NormalizeItem(items[i]))
  }

  /**
   * The setters and defaults of the schema: name, item names, owner, phone and
   * category trimmed; email trimmed and lowercased; description, address,
   * opening hours and creator kept verbatim; `location.type` `"Point"`,
   * coordinates and items `[]`, and `isOpen` `true` when absent.
   */
  function Normalize(raw: RawShop): RawShop
  {
    RawShop(
      Trimmed(raw.name), raw.description, raw.address,
      Some(OrDefault(raw.locationType, PointType)),
      Some(OrDefault(raw.coordinates, [])),
      raw.posterUrl,
      Some(NormalizeItems(OrDefault(raw.items, []))),
      Trimmed(raw.owner), Trimmed(raw.phone), TrimmedLower(raw.email),
      raw.openingHours, Trimmed(raw.category), raw.createdBy,
      Some(OrDefault(raw.isOpen, true)))
  }

  function QuantityErrors(items: seq<RawItem>): set<ShopPath>
  {
    set i | 0 <= i < |items| && items[i].quantity.Some? && items[i].quantity.value < 0 :: ItemQuantityPath(i)
  }

  /** The failing top-level paths of a (normalised) document. */
  function FieldErrors(d: RawShop): set<ShopPath>
  {
    (if Present(d.name) then {} else {NamePath})
    + (if Present(d.description) then {} else {DescriptionPath})
    + (if Present(d.address) then {} else {AddressPath})
    + (if d.locationType.Some? && d.locationType.value != PointType then {LocationTypePath} else {})
    + (if d.coordinates.Some? && |d.coordinates.value| == 2 then {} else {CoordinatesPath})
  }

  /** The failing paths of a (normalised) document. */
  function Errors(d: RawShop): set<ShopPath>
  {
    FieldErrors(d) + (if d.items.Some? then QuantityErrors(d.items.value) else {})
  }

  /** Saving a document: normalise, then validate; the error names every failing path. */
  function Validate(raw: RawShop): Result<RawShop, set<ShopPath>>
  {
    var d := Normalize(raw);
    if Errors(d) == {} then Ok(d) else Err(Errors(d))
  }

  /** Every item quantity of the raw document, absent ones counting as `0`, is at least `0`. */
  predicate QuantitiesNonNegative(items: Option<seq<RawItem>>)
  {
    items.Some? ==> forall i :: 0 <= i < |items.value| ==> OrDefault(items.value[i].quantity, DefaultItemQuantity) >= 0
  }

  /**
   * A document is accepted exactly when its trimmed name, description and address
   * are non-empty, it has exactly two coordinates, its location type is absent or
   * `"Point"`, and no item quantity is negative. The optional fields play no part.
   */
  lemma ValidateAcceptsIff(raw: RawShop)
    ensures Validate(raw).Ok? <==>
      && raw.name.Some? && Trim(raw.name.value) != ""
      && Present(raw.description) && Present(raw.address)
      && (raw.locationType.None? || raw.locationType.value == PointType)
      && raw.coordinates.Some? && |raw.coordinates.value| == 2
      && QuantitiesNonNegative(raw.items)
  {
    var d := Normalize(raw);
    var items := d.items.value;
    if raw.items.Some? {
      if !QuantitiesNonNegative(raw.items) {
        var i :| 0 <= i < |raw.items.value| && OrDefault(raw.items.value[i].quantity, DefaultItemQuantity) < 0;
        assert ItemQuantityPath(i) in QuantityErrors(items);
      }
    }
  }

  /** Each failing path names a rule the document breaks. */
  lemma ErrorsExplained(raw: RawShop)
    ensures NamePath in Errors(Normalize(raw)) <==> raw.name.None? || Trim(raw.name.value) == ""
    ensures DescriptionPath in Errors(Normalize(raw)) <==> !Present(raw.description)
    ensures AddressPath in Errors(Normalize(raw)) <==> !Present(raw.address)
    ensures LocationTypePath in Errors(Normalize(raw)) <==> raw.locationType.Some? && raw.locationType.value != PointType
    ensures CoordinatesPath in Errors(Normalize(raw)) <==> raw.coordinates.None? || |raw.coordinates.value| != 2
  {
    var d := Normalize(raw);
    FieldErrorsOf(d);
    forall p: ShopPath | !p.ItemQuantityPath? ensures p in Errors(d) <==> p in FieldErrors(d) {
      assert p !in QuantityErrors(d.items.value);
    }
  }

  lemma FieldErrorsOf(d: RawShop)
    ensures NamePath in FieldErrors(d) <==> !Present(d.name)
    ensures DescriptionPath in FieldErrors(d) <==> !Present(d.description)
    ensures AddressPath in FieldErrors(d) <==> !Present(d.address)
    ensures LocationTypePath in FieldErrors(d) <==> d.locationType.Some? && d.locationType.value != PointType
    ensures CoordinatesPath in FieldErrors(d) <==> !(d.coordinates.Some? && |d.coordinates.value| == 2)
  {
  }

  /** The item paths that fail are exactly the items with a negative quantity. */
  lemma QuantityErrorsExplained(raw: RawShop, i: nat)
    ensures ItemQuantityPath(i) in Errors(Normalize(raw)) <==>
      raw.items.Some? && i < |raw.items.value| && OrDefault(raw.items.value[i].quantity, DefaultItemQuantity) < 0
  {
    var items := Normalize(raw).items.value;
    assert ItemQuantityPath(i) in Errors(Normalize(raw)) <==> ItemQuantityPath(i) in QuantityErrors(items);
  }

  /** Normalising twice is normalising once. */
  lemma NormalizeIdempotent(raw: RawShop)
    ensures Normalize(Normalize(raw)) == Normalize(raw)
  {
    var d := Normalize(raw);
    if raw.name.Some? { TrimIdempotent(raw.name.value); }
    if raw.owner.Some? { TrimIdempotent(raw.owner.value); }
    if raw.phone.Some? { TrimIdempotent(raw.phone.value); }
    if raw.category.Some? { TrimIdempotent(raw.category.value); }
    if raw.email.Some? { TrimLowerCanonical(raw.email.value); }
    NormalizeItemsIdempotent(OrDefault(raw.items, []));
  }

  lemma NormalizeItemsIdempotent(items: seq<RawItem>)
    ensures NormalizeItems(NormalizeItems(items)) == NormalizeItems(items)
  {
    var n := NormalizeItems(items);
    forall i | 0 <= i < |n| ensures NormalizeItem(n[i]) == n[i] {
      if items[i].name.Some? { TrimIdempotent(items[i].name.value); }
    }
  }

  /** An accepted document is stored in normal form, and saving it again gives it back unchanged. */
  lemma ValidateStable(raw: RawShop)
    requires Validate(raw).Ok?
    ensures Validate(raw).value == Normalize(raw)
    ensures Validate(Validate(raw).value) == Validate(raw)
  {
    NormalizeIdempotent(raw);
  }

  /**
   * Defaults only fill absent fields: a supplied location type, coordinate list,
   * poster URL, open flag or item quantity is stored as given.
   */
  lemma DefaultsDoNotOverwrite(raw: RawShop)
    ensures var d := Normalize(raw);
      && d.locationType == Some(OrDefault(raw.locationType, PointType))
      && (raw.locationType.Some? ==> d.locationType == raw.locationType)
      && (raw.coordinates.Some? ==> d.coordinates == raw.coordinates)
      && d.posterUrl == raw.posterUrl
      && (raw.isOpen.Some? ==> d.isOpen == raw.isOpen)
      && (raw.isOpen.None? ==> d.isOpen == Some(true))
      && (raw.items.None? ==> d.items == Some([]))
      && (raw.items.Some? ==> |d.items.value| == |raw.items.value| && forall i :: 0 <= i < |raw.items.value| ==>
            && d.items.value[i].quantity == Some(OrDefault(raw.items.value[i].quantity, DefaultItemQuantity))
            && (raw.items.value[i].quantity.Some? ==> d.items.value[i].quantity == raw.items.value[i].quantity))
  {
  }

  /** A document as the collection holds it: normalised and valid. */
  predicate Stored(d: RawShop)
  {
    Validate(d) == Ok(d)
  }

  /** The setters applied to the values of an update; defaults are not applied to updates. */
  function NormalizePatch(p: RawShop): RawShop
  {
    RawShop(
      Trimmed(p.name), p.description, p.address, p.locationType, p.coordinates, p.posterUrl,
      if p.items.Some? then Some(NormalizeItems(p.items.value)) else None,
      Trimmed(p.owner), Trimmed(p.phone), TrimmedLower(p.email),
      p.openingHours, Trimmed(p.category), p.createdBy, p.isOpen)
  }

  /** The update validators: only the paths an update sets are checked. */
  function PatchErrors(p: RawShop): set<ShopPath>
  {
    (if p.name == Some("") then {NamePath} else {})
    + (if p.description == Some("") then {DescriptionPath} else {})
    + (if p.address == Some("") then {AddressPath} else {})
    + (if p.locationType.Some? && p.locationType.value != PointType then {LocationTypePath} else {})
    + (if p.coordinates.Some? && |p.coordinates.value| != 2 then {CoordinatesPath} else {})
    + (if p.items.Some? then QuantityErrors(p.items.value) else {})
  }

  /** `$set` of the fields an update carries; the others keep their stored value. */
  function Merge(d: RawShop, p: RawShop): RawShop
  {
    RawShop(
      if p.name.Some? then p.name else d.name,
      if p.description.Some? then p.description else d.description,
      if p.address.Some? then p.address else d.address,
      if p.locationType.Some? then p.locationType else d.locationType,
      if p.coordinates.Some? then p.coordinates else d.coordinates,
      if p.posterUrl.Some? then p.posterUrl else d.posterUrl,
      if p.items.Some? then p.items else d.items,
      if p.owner.Some? then p.owner else d.owner,
      if p.phone.Some? then p.phone else d.phone,
      if p.email.Some? then p.email else d.email,
      if p.openingHours.Some? then p.openingHours else d.openingHours,
      if p.category.Some? then p.category else d.category,
      if p.createdBy.Some? then p.createdBy else d.createdBy,
      if p.isOpen.Some? then p.isOpen else d.isOpen)
  }

  /**
   * An update passes its validators exactly when every field it sets would be kept
   * by the schema: no blank name, no empty description or address, no location type
   * other than `"Point"`, exactly two coordinates and no negative item quantity.
   */
  lemma PatchAcceptedIff(raw: RawShop)
    ensures PatchErrors(NormalizePatch(raw)) == {} <==>
      && (raw.name.Some? ==> Trim(raw.name.value) != "")
      && raw.description != Some("") && raw.address != Some("")
      && (raw.locationType.Some? ==> raw.locationType.value == PointType)
      && (raw.coordinates.Some? ==> |raw.coordinates.value| == 2)
      && (raw.items.Some? ==> forall i :: 0 <= i < |raw.items.value| ==>
            OrDefault(raw.items.value[i].quantity, DefaultItemQuantity) >= 0)
  {
    var p := NormalizePatch(raw);
    if raw.items.Some? {
      var items := p.items.value;
      if exists i :: 0 <= i < |raw.items.value| && OrDefault(raw.items.value[i].quantity, DefaultItemQuantity) < 0 {
        var i :| 0 <= i < |raw.items.value| && OrDefault(raw.items.value[i].quantity, DefaultItemQuantity) < 0;
        assert ItemQuantityPath(i) in QuantityErrors(items);
      }
    }
  }

  /**
   * Applying an accepted update to a stored document gives a stored document: the
   * collection never holds a document its schema would reject.
   */
  lemma MergeKeepsStored(d: RawShop, raw: RawShop)
    requires Stored(d)
    requires PatchErrors(NormalizePatch(raw)) == {}
    ensures Stored(Merge(d, NormalizePatch(raw)))
  {
    MergeKeepsNormal(d, raw);
    MergeKeepsValid(d, raw);
  }

  /** A setter-normalised update merged into a normalised document leaves it normalised. */
  lemma MergeKeepsNormal(d: RawShop, raw: RawShop)
    requires Normalize(d) == d
    ensures Normalize(Merge(d, NormalizePatch(raw))) == Merge(d, NormalizePatch(raw))
  {
    var p := NormalizePatch(raw);
    var m := Merge(d, p);
    var n := Normalize(m);
    TrimmedMergeFixed(raw.name, d.name);
    TrimmedMergeFixed(raw.owner, d.owner);
    TrimmedMergeFixed(raw.phone, d.phone);
    TrimmedMergeFixed(raw.category, d.category);
    TrimmedLowerMergeFixed(raw.email, d.email);
    assert n.name == m.name && n.owner == m.owner && n.phone == m.phone;
    assert n.category == m.category && n.email == m.email;
    assert n.locationType == m.locationType && n.coordinates == m.coordinates && n.isOpen == m.isOpen;
    assert n.items == m.items by {
      if raw.items.Some? {
        NormalizeItemsIdempotent(raw.items.value);
      }
    }
  }

  /** A trimmed field, set by an update or kept from a trimmed document, is already trimmed. */
  lemma TrimmedMergeFixed(px: Option<string>, dx: Option<string>)
    requires Trimmed(dx) == dx
    ensures var v := if Trimmed(px).Some? then Trimmed(px) else dx; Trimmed(v) == v
  {
    if px.Some? { TrimIdempotent(px.value); }
  }

  lemma TrimmedLowerMergeFixed(px: Option<string>, dx: Option<string>)
    requires TrimmedLower(dx) == dx
    ensures var v := if TrimmedLower(px).Some? then TrimmedLower(px) else dx; TrimmedLower(v) == v
  {
    if px.Some? { TrimLowerCanonical(px.value); }
  }

  /** An update that passes its validators, merged into a valid document, leaves it valid. */
  lemma MergeKeepsValid(d: RawShop, raw: RawShop)
    requires Errors(d) == {}
    requires PatchErrors(NormalizePatch(raw)) == {}
    ensures Errors(Merge(d, NormalizePatch(raw))) == {}
  {
    var p := NormalizePatch(raw);
    var m := Merge(d, p);
    FieldErrorsOf(d);
    FieldErrorsOf(m);
    assert FieldErrors(m) == {};
    if m.items.Some? {
      assert QuantityErrors(m.items.value) == {} by {
        if raw.items.None? {
          assert m.items == d.items;
        }
      }
    }
  }
}
