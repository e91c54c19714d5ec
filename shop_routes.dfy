/**
 * The `/api/shops` routes: which handler a request reaches, how query parameters
 * are checked, and how database outcomes become status codes. The collection is
 * a map from document id to stored document; faults of the driver (a malformed
 * id, a lost connection) are given to each handler as an abstract outcome.
 */
module ShopRoutes {
  import opened Wrappers
  import opened Text
  import opened ShopSchema

  datatype Verb = Get | Post | Put | Delete

  /** The handlers, in the order they are registered. */
  datatype Handler =
    | ListShops | NearbyShops | SearchShops | GetShop(id: string)
    | CreateShop | UpdateShop(id: string) | DeleteShop(id: string)
    | NotMatched

  /** A driver fault: a `CastError` (the id is no valid object id), or any other error. */
  datatype DbFault = CastError | OtherError(message: string)

  datatype Body =
    | ErrorBody(error: string)
    | SchemaErrorBody(paths: set<ShopPath>)
    | ShopsBody(shops: seq<(string, RawShop)>)
    | ShopBody(id: string, shop: RawShop)
    | MessageBody(message: string)

  datatype Response = Response(status: nat, body: Body)

  /** The `$near` query of the nearby route: a GeoJSON point and a distance in metres. */
  datatype NearQuery = NearQuery(pointType: string, coordinates: seq<real>, maxDistanceMeters: real)

  const DefaultRadiusKm: real := 2.0
  const MetersPerKm: real := 1000.0
  const LatLngRequired := "Latitude and longitude are required"
  const InvalidCoordinates := "Invalid coordinates or radius"
  const QueryRequired := "Search query is required"
  const ShopNotFound := "Shop not found"
  const InvalidShopId := "Invalid shop ID format"
  const ShopDeleted := "Shop deleted successfully"

  /**
   * The router is non-strict: a trailing slash is ignored, so one final empty
   * segment is dropped before matching.
   */
  function Segments(path: seq<string>): (r: seq<string>)
    ensures |path| > 0 && path[|path| - 1] == "" ==> r == path[..|path| - 1]
    ensures !(|path| > 0 && path[|path| - 1] == "") ==> r == path
  {
    if |path| > 0 && path[|path| - 1] == "" then path[..|path| - 1] else path
  }

  /** The router is case-insensitive: a literal segment matches in any ASCII case. */
  predicate SegmentIs(segment: string, literal: string)
  {
    ToLower(segment) == literal
  }

  /**
   * Express tries the routes in registration order: `GET /`, `GET /nearby`,
   * `GET /search`, `GET /:id`, `POST /`, `PUT /:id`, `DELETE /:id`. `path` holds
   * the segments after `/api/shops`; `:id` matches one non-empty segment, and its
   * value keeps the case it was sent in.
   */
  function Dispatch(verb: Verb, path: seq<string>): Handler
  {
    var segments := Segments(path);
    if segments == [] then
      match verb
      case Get => ListShops
      case Post => CreateShop
      case _ => NotMatched
    else if |segments| == 1 && segments[0] != "" then
      var s := segments[0];
      match verb
      case Get => if SegmentIs(s, "nearby") then NearbyShops else if SegmentIs(s, "search") then SearchShops else GetShop(s)
      case Put => UpdateShop(s)
      case Delete => DeleteShop(s)
      case Post => NotMatched
    else NotMatched
  }

  /**
   * Route precedence: `GET /nearby` and `GET /search`, in any case and with or
   * without a trailing slash, never reach the id handler, which gets every other
   * single segment; the other verbs treat those two words as ids like any other.
   */
  lemma DispatchPrecedence(verb: Verb, path: seq<string>)
    ensures |path| == 1 || (|path| == 2 && path[1] == "") ==>
      && (SegmentIs(path[0], "nearby") ==> Dispatch(Get, path) == NearbyShops)
      && (SegmentIs(path[0], "search") ==> Dispatch(Get, path) == SearchShops)
    ensures Dispatch(verb, path).GetShop? ==>
      && verb == Get && Segments(path) == [Dispatch(verb, path).id]
      && !SegmentIs(Dispatch(verb, path).id, "nearby") && !SegmentIs(Dispatch(verb, path).id, "search")
    ensures |path| == 1 || (|path| == 2 && path[1] == "") ==>
      (path[0] != "" && !SegmentIs(path[0], "nearby") && !SegmentIs(path[0], "search") ==>
       Dispatch(Get, path) == GetShop(path[0]))
    ensures |path| == 1 || (|path| == 2 && path[1] == "") ==>
      (path[0] != "" ==> Dispatch(Put, path) == UpdateShop(path[0]) && Dispatch(Delete, path) == DeleteShop(path[0]))
  {
  }

  /** The cases the router folds together: `/Nearby`, `/SEARCH/` and `/nearby/`. */
  lemma DispatchFoldsCaseAndSlash()
    ensures Dispatch(Get, ["Nearby"]) == NearbyShops
    ensures Dispatch(Get, ["SEARCH"]) == SearchShops
    ensures Dispatch(Get, ["nearby", ""]) == NearbyShops
    ensures Dispatch(Get, ["Abc", ""]) == GetShop("Abc")
  {
    assert ToLower("Nearby") == "nearby";
    assert ToLower("SEARCH") == "search";
    assert ToLower("nearby") == "nearby";
    assert ["nearby", ""][..1] == ["nearby"];
    assert ["Abc", ""][..1] == ["Abc"];
  }

  /**
   * The checks of `GET /nearby`: `lat` and `lng` must be given and non-empty; the
   * radius is 2 km when absent; any value that is no number is refused. `parseFloat`
   * is JavaScript's, with `None` for `NaN`.
   */
  function NearbyQuery(lat: Option<string>, lng: Option<string>, radius: Option<string>,
                       parseFloat: string -> Option<real>): Result<NearQuery, Response>
  {
    if !Present(lat) || !Present(lng) then Err(Response(400, ErrorBody(LatLngRequired)))
    else
      var latitude := parseFloat(lat.value);
      var longitude := parseFloat(lng.value);
      var radiusKm := if radius.Some? then parseFloat(radius.value) else Some(DefaultRadiusKm);
      if latitude.None? || longitude.None? || radiusKm.None? then Err(Response(400, ErrorBody(InvalidCoordinates)))
      else Ok(NearQuery(PointType, [longitude.value, latitude.value], radiusKm.value * MetersPerKm))
  }

  /** `GET /nearby` with the database query `find`. */
  function NearbyResponse(lat: Option<string>, lng: Option<string>, radius: Option<string>,
                          parseFloat: string -> Option<real>,
                          find: NearQuery -> Result<seq<(string, RawShop)>, string>): Response
  {
    match NearbyQuery(lat, lng, radius, parseFloat)
    case Err(refusal) => refusal
    case Ok(q) =>
      match find(q)
      case Ok(shops) => Response(200, ShopsBody(shops))
      case Err(message) => Response(500, ErrorBody(message))
  }

  /** `GET /search`: `q` must be given and non-empty; it is passed on untrimmed. */
  function SearchResponse(q: Option<string>, find: string -> Result<seq<(string, RawShop)>, string>): Response
  {
    if !Present(q) then Response(400, ErrorBody(QueryRequired))
    else
      match find(q.value)
      case Ok(shops) => Response(200, ShopsBody(shops))
      case Err(message) => Response(500, ErrorBody(message))
  }

  /**
   * The nearby checks: a missing or empty `lat`/`lng` gives 400 before anything is
   * parsed; then any unparsable value gives 400; otherwise the query point is
   * `[longitude, latitude]` and the distance is the radius times 1000 metres, with
   * the radius 2 km when none was given.
   */
  lemma NearbyQuerySpec(lat: Option<string>, lng: Option<string>, radius: Option<string>,
                        parseFloat: string -> Option<real>)
    ensures !Present(lat) || !Present(lng) ==>
      NearbyQuery(lat, lng, radius, parseFloat) == Err(Response(400, ErrorBody(LatLngRequired)))
    ensures Present(lat) && Present(lng) ==>
      (NearbyQuery(lat, lng, radius, parseFloat).Err? <==>
        parseFloat(lat.value).None? || parseFloat(lng.value).None? || (radius.Some? && parseFloat(radius.value).None?))
    ensures NearbyQuery(lat, lng, radius, parseFloat).Err? ==>
      NearbyQuery(lat, lng, radius, parseFloat).error.status == 400
    ensures NearbyQuery(lat, lng, radius, parseFloat).Ok? ==>
      var q := NearbyQuery(lat, lng, radius, parseFloat).value;
      && q.pointType == PointType
      && q.coordinates == [parseFloat(lng.value).value, parseFloat(lat.value).value]
      && q.maxDistanceMeters == 1000.0 * (if radius.None? then 2.0 else parseFloat(radius.value).value)
  {
  }

  /** The search route refuses exactly a missing or empty query, and otherwise hands it on verbatim. */
  lemma SearchResponseSpec(q: Option<string>, find: string -> Result<seq<(string, RawShop)>, string>)
    ensures SearchResponse(q, find).status == 400 <==> !Present(q)
    ensures Present(q) ==>
      SearchResponse(q, find) == if find(q.value).Ok? then Response(200, ShopsBody(find(q.value).value))
                                 else Response(500, ErrorBody(find(q.value).error))
  {
  }

  /** Putting a stored document into a collection of stored documents keeps them all stored. */
  lemma StoredAfterReplace(docs: map<string, RawShop>, id: string, d: RawShop)
    requires AllStored(docs)
    requires Stored(d)
    ensures AllStored(docs[id := d])
  {
  }

  predicate AllStored(docs: map<string, RawShop>)
  {
    forall id :: id in docs ==> Stored(docs[id])
  }

  /** The shop collection. */
  class ShopCollection {
    var docs: map<string, RawShop>

    /** Every document in the collection is normalised and passes its schema. */
    predicate Valid()
      reads this
    {
      AllStored(docs)
    }

    constructor ()
      ensures docs == map[] && Valid()
    {
      docs := map[];
    }

    /** `GET /:id`: a `CastError` gives 400, any other fault 500, an absent id 404. */
    method GetById(id: string, fault: Option<DbFault>) returns (r: Response)
      ensures fault == Some(CastError) ==> r == Response(400, ErrorBody(InvalidShopId))
      ensures fault.Some? && fault.value.OtherError? ==> r == Response(500, ErrorBody(fault.value.message))
      ensures fault.None? && id !in docs ==> r == Response(404, ErrorBody(ShopNotFound))
      ensures fault.None? && id in docs ==> r == Response(200, ShopBody(id, docs[id]))
    {
      if fault.Some? {
        return FaultResponse(fault.value);
      }
      if id !in docs {
        return Response(404, ErrorBody(ShopNotFound));
      }
      r := Response(200, ShopBody(id, docs[id]));
    }

    /** The `catch` of the id routes: `CastError` is the caller's mistake, anything else the server's. */
    static function FaultResponse(fault: DbFault): (r: Response)
      ensures r.status == (if fault.CastError? then 400 else 500)
    {
      match fault
      case CastError => Response(400, ErrorBody(InvalidShopId))
      case OtherError(message) => Response(500, ErrorBody(message))
    }

    /**
     * `POST /`: the body is normalised and validated; a `ValidationError` gives 400,
     * a failing save 500, and success 201 with the stored document under the fresh
     * id `newId`. Nothing but the new document changes.
     */
    method Create(body: RawShop, newId: string, saveFault: Option<string>) returns (r: Response)
      requires Valid()
      requires newId !in docs
      modifies this
      ensures Valid()
      ensures Validate(body).Err? ==> r == Response(400, SchemaErrorBody(Validate(body).error)) && docs == old(docs)
      ensures Validate(body).Ok? && saveFault.Some? ==> r == Response(500, ErrorBody(saveFault.value)) && docs == old(docs)
      ensures Validate(body).Ok? && saveFault.None? ==>
        && docs == old(docs)[newId := Normalize(body)]
        && r == Response(201, ShopBody(newId, Normalize(body)))
    {
      var checked := Validate(body);
      if checked.Err? {
        return Response(400, SchemaErrorBody(checked.error));
      }
      if saveFault.Some? {
        return Response(500, ErrorBody(saveFault.value));
      }
      ValidateStable(body);
      StoredAfterReplace(docs, newId, checked.value);
      docs := docs[newId := checked.value];
      r := Response(201, ShopBody(newId, checked.value));
    }

    /**
     * `PUT /:id` with `runValidators` and `new: true`: a `CastError` gives 400, an
     * update failing its validators 400, another fault 500, an absent id 404;
     * otherwise the carried fields replace the stored ones and the updated
     * document is returned. No other document changes.
     */
    method Update(id: string, patch: RawShop, fault: Option<DbFault>) returns (r: Response)
      requires Valid()
      modifies this
      ensures Valid()
      ensures r.status != 200 ==> docs == old(docs)
      ensures fault == Some(CastError) ==> r == Response(400, ErrorBody(InvalidShopId))
      ensures fault.None? || fault.value.OtherError? ==>
        var errors := PatchErrors(NormalizePatch(patch));
        if errors != {} then r == Response(400, SchemaErrorBody(errors))
        else if fault.Some? then r == Response(500, ErrorBody(fault.value.message))
        else if id !in old(docs) then r == Response(404, ErrorBody(ShopNotFound))
        else
          && docs == old(docs)[id := Merge(old(docs)[id], NormalizePatch(patch))]
          && r == Response(200, ShopBody(id, docs[id]))
    {
      if fault == Some(CastError) {
        return Response(400, ErrorBody(InvalidShopId));
      }
      var p := NormalizePatch(patch);
      var errors := PatchErrors(p);
      if errors != {} {
        return Response(400, SchemaErrorBody(errors));
      }
      if fault.Some? {
        return Response(500, ErrorBody(fault.value.message));
      }
      if id !in docs {
        return Response(404, ErrorBody(ShopNotFound));
      }
      MergeKeepsStored(docs[id], patch);
      StoredAfterReplace(docs, id, Merge(docs[id], p));
      docs := docs[id := Merge(docs[id], p)];
      r := Response(200, ShopBody(id, docs[id]));
    }

    /**
     * `DELETE /:id`: a `CastError` gives 400, another fault 500, an absent id 404;
     * otherwise exactly that document goes and the others stay as they were.
     */
    method Delete(id: string, fault: Option<DbFault>) returns (r: Response)
      requires Valid()
      modifies this
      ensures Valid()
      ensures fault.Some? ==> r == FaultResponse(fault.value) && docs == old(docs)
      ensures fault.None? && id !in old(docs) ==> r == Response(404, ErrorBody(ShopNotFound)) && docs == old(docs)
      ensures fault.None? && id in old(docs) ==>
        && r == Response(200, MessageBody(ShopDeleted))
        && id !in docs
        && (forall other :: other != id ==> (other in docs <==> other in old(docs)))
        && (forall other :: other in docs ==> docs[other] == old(docs)[other])
    {
      if fault.Some? {
        return FaultResponse(fault.value);
      }
      if id !in docs {
        return Response(404, ErrorBody(ShopNotFound));
      }
      docs := docs - {id};
      r := Response(200, MessageBody(ShopDeleted));
    }
  }
}
