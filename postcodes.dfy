/**
 * The endpoint functions of the SDK (postcode/postcodes.go). Each checks its
 * arguments locally, gathers query parameters on a fresh client, builds the
 * request, sends it and hands the reply to the envelope decoder.
 *
 * What an endpoint sends is given by its plan function: the local checks either
 * reject the call with a 400 error or yield the method, the path, the ordered
 * query pairs and the body. The operation methods are the endpoint functions
 * written step by step, each proved to behave as Perform of its plan.
 */
module Postcode {
  import opened Model
  import opened Text
  import opened Envelope
  import opened HttpClient

  const MethodGet := "GET"
  const MethodPost := "POST"

  /** Largest batch of postcodes or geolocations, largest limit and largest radius accepted. */
  const MaxBatch := 100
  const MaxLimit := 100
  const MaxRadius := 2000

  const NoPostcodesMessage := "minimum of 1 postcode required!"
  const TooManyPostcodesMessage := "Maximum postcode limit exceeded! Maximum of 100 postcodes"
  const UndefinedCoordinatesMessage := "Latitude and Longitude must be defined"
  const NoGeolocationsMessage := "minimum of 1 geolocations required!"
  const TooManyGeolocationsMessage := "Maximum geolocations limit exceeded! Maximum of 100 geolocations"
  const LimitExceededMessage := "Maximum limit exceeded! Limit must be less than 100"

  function BadRequest(message: string): ResponseError
  {
    ResponseError(StatusBadRequest, message)
  }

  // ---- local validation ----

  /** The body of a bulk postcode lookup. */
  datatype Postcodes = Postcodes(postcodes: seq<string>) {
    /** Postcodes.validate: a batch holds between 1 and 100 postcodes. */
    function Validate(): (err: Option<ResponseError>)
      ensures err.None? <==> 1 <= |postcodes| <= MaxBatch
      ensures |postcodes| == 0 ==> err == Some(BadRequest(NoPostcodesMessage))
      ensures |postcodes| > MaxBatch ==> err == Some(BadRequest(TooManyPostcodesMessage))
    {
      if |postcodes| == 0 then Some(BadRequest(NoPostcodesMessage))
      else if |postcodes| > MaxBatch then Some(BadRequest(TooManyPostcodesMessage))
      else None
    }
  }

  /** Geocode.validate: both coordinates must be non-zero. */
  function ValidateGeocode(g: Geocode): (err: Option<ResponseError>)
    ensures err.None? <==> g.latitude != 0.0 && g.longitude != 0.0
    ensures err.Some? ==> err.value == BadRequest(UndefinedCoordinatesMessage)
  {
    if g.latitude == 0.0 || g.longitude == 0.0 then Some(BadRequest(UndefinedCoordinatesMessage)) else None
  }

  /** The position of the first geolocation that fails validation, or |gs| when none does. */
  function FirstInvalid(gs: seq<Geocode>): (i: nat)
    ensures i <= |gs|
    ensures forall j :: 0 <= j < i ==> ValidateGeocode(gs[j]).None?
    ensures i < |gs| ==> ValidateGeocode(gs[i]).Some?
  {
    if gs == [] then 0
    else if ValidateGeocode(gs[0]).Some? then 0
    else 1 + FirstInvalid(gs[1..])
  }

  /** The body of a bulk reverse geocoding. */
  datatype Geocodes = Geocodes(geolocations: seq<Geocode>) {
    /**
     * What Geocodes.validate decides: the empty check, then the over-100 check,
     * then the error of the first geolocation that fails its own check.
     */
    function Check(): (err: Option<ResponseError>)
      ensures err.None? <==>
        1 <= |geolocations| <= MaxBatch && forall i :: 0 <= i < |geolocations| ==> ValidateGeocode(geolocations[i]).None?
      ensures |geolocations| == 0 ==> err == Some(BadRequest(NoGeolocationsMessage))
      ensures |geolocations| > MaxBatch ==> err == Some(BadRequest(TooManyGeolocationsMessage))
      ensures 1 <= |geolocations| <= MaxBatch && err.Some? ==>
        var i := FirstInvalid(geolocations);
        i < |geolocations| && err == ValidateGeocode(geolocations[i])
    {
      var i := FirstInvalid(geolocations);
      if |geolocations| == 0 then Some(BadRequest(NoGeolocationsMessage))
      else if |geolocations| > MaxBatch then Some(BadRequest(TooManyGeolocationsMessage))
      else if i < |geolocations| then ValidateGeocode(geolocations[i])
      else None
    }

    /** Geocodes.validate: the size checks, then a scan that stops at the first invalid entry. */
    method Validate() returns (err: Option<ResponseError>)
      ensures err == Check()
    {
      if |geolocations| == 0 {
        return Some(BadRequest(NoGeolocationsMessage));
      }
      if |geolocations| > MaxBatch {
        return Some(BadRequest(TooManyGeolocationsMessage));
      }
      for i := 0 to |geolocations|
        invariant forall j :: 0 <= j < i ==> ValidateGeocode(geolocations[j]).None?
      {
        var e := ValidateGeocode(geolocations[i]);
        if e.Some? {
          return e;
        }
      }
      return None;
    }
  }

  // ---- request plans ----

  /** The request body before JSON encoding. */
  datatype Payload = NoPayload | PostcodesBody(batch: Postcodes) | GeolocationsBody(locations: Geocodes)

  /** What an endpoint asks the client to send: method, path below the base URL, ordered query pairs, body. */
  datatype RequestPlan = RequestPlan(httpMethod: string, path: string, query: seq<Pair>, payload: Payload)

  /** A single pair when `present`, none otherwise. */
  function Optional(present: bool, key: string, value: string): seq<Pair>
  {
    if present then [Pair(key, value)] else []
  }

  /** The pair `key` = the decimal `n`, when `n` is given. */
  function GivenParam(key: string, n: Option<Int64>): seq<Pair>
  {
    if n.Some? then [Pair(key, FormatInt(n.value))] else []
  }

  /** The pair `key` = the decimal `n`, when `n` is given and positive. */
  function PositiveParam(key: string, n: Option<Int64>): seq<Pair>
  {
    if n.Some? && n.value > 0 then GivenParam(key, n) else []
  }

  lemma OptionalSends(present: bool, key: string, value: string)
    ensures MergeQuery(Optional(present, key, value)) == if present then map[key := value] else map[]
  {
    if present {
      MergeQuerySingle(Pair(key, value));
    }
  }

  /** A given number is sent under `key`, as a decimal that reads back as that number. */
  lemma GivenParamSends(key: string, n: Option<Int64>)
    ensures var sent := MergeQuery(GivenParam(key, n));
      && sent.Keys <= {key}
      && (key in sent <==> n.Some?)
      && (key in sent ==> ParseInt(sent[key]) == Some(n.value as int))
  {
    if n.Some? {
      MergeQuerySingle(Pair(key, FormatInt(n.value)));
      ParseFormatInt(n.value);
    }
  }

  /** A number is sent under `key` exactly when it is given and positive, and reads back as itself. */
  lemma PositiveParamSends(key: string, n: Option<Int64>)
    ensures var sent := MergeQuery(PositiveParam(key, n));
      && sent.Keys <= {key}
      && (key in sent <==> n.Some? && n.value > 0)
      && (key in sent ==> ParseInt(sent[key]) == Some(n.value as int))
  {
    GivenParamSends(key, n);
  }

  /** Both checks that reject a `limit` above 100. */
  function LimitCheck(limit: Option<Int64>): (err: Option<ResponseError>)
    ensures err.Some? <==> limit.Some? && limit.value > MaxLimit
    ensures err.Some? ==> err.value == BadRequest(LimitExceededMessage)
  {
    if limit.Some? && limit.value > MaxLimit then Some(BadRequest(LimitExceededMessage)) else None
  }

  /** A GET of `path` with no parameters; the single-resource lookups are all of this form. */
  function PathPlan(path: string): (r: Result<RequestPlan>)
    ensures r.Ok? && r.value.httpMethod == MethodGet && r.value.path == path
    ensures MergeQuery(r.value.query) == map[] && r.value.payload == NoPayload
  {
    Ok(RequestPlan(MethodGet, path, [], NoPayload))
  }

  /** The `filter` pair of the bulk endpoints: the filters joined by commas, when there are any. */
  function FilterQuery(filters: seq<string>): seq<Pair>
  {
    Optional(|filters| > 0, "filter", Join(filters, ","))
  }

  /** BulkLookup: validate the batch, then POST it to `postcodes` with the optional filter. */
  function BulkLookupPlan(batch: Postcodes, filters: seq<string>): (r: Result<RequestPlan>)
    ensures r.Err? <==> batch.Validate().Some?
    ensures r.Err? ==> r.error == batch.Validate().value && r.error.status == StatusBadRequest
    ensures r.Ok? ==> r.value.httpMethod == MethodPost && r.value.path == "postcodes"
    ensures r.Ok? ==> r.value.payload == PostcodesBody(batch) && r.value.query == FilterQuery(filters)
  {
    match batch.Validate()
    case Some(e) => Err(e)
    case None => Ok(RequestPlan(MethodPost, "postcodes", FilterQuery(filters), PostcodesBody(batch)))
  }

  /** BulkReverseGeocoding: validate the geolocations, then POST them to `postcodes` with the optional filter. */
  function BulkReverseGeocodingPlan(locations: Geocodes, filters: seq<string>): (r: Result<RequestPlan>)
    ensures r.Err? <==> locations.Check().Some?
    ensures r.Err? ==> r.error == locations.Check().value && r.error.status == StatusBadRequest
    ensures r.Ok? ==> r.value.httpMethod == MethodPost && r.value.path == "postcodes"
    ensures r.Ok? ==> r.value.payload == GeolocationsBody(locations) && r.value.query == FilterQuery(filters)
  {
    match locations.Check()
    case Some(e) => Err(e)
    case None => Ok(RequestPlan(MethodPost, "postcodes", FilterQuery(filters), GeolocationsBody(locations)))
  }

  /** `lon` then `lat`, each written by FormatFloat. */
  function Coordinates(g: Geocode): seq<Pair>
  {
    [Pair("lon", FormatFloat(g.longitude)), Pair("lat", FormatFloat(g.latitude))]
  }

  /**
   * The query of the two reverse-geocoding endpoints: `lon` and `lat` first,
   * then `limit` and `radius` when positive, then `widesearch` when it is set and
   * the endpoint sends it.
   */
  function GeocodeQuery(g: Geocode, sendsWideSearch: bool): seq<Pair>
  {
    Coordinates(g)
      + PositiveParam("limit", Some(g.limit))
      + PositiveParam("radius", Some(g.radius))
      + Optional(sendsWideSearch && g.wideSearch, "widesearch", FormatBool(g.wideSearch))
  }

  /** ReverseGeocoding: validate the coordinates, then GET `postcodes` with the geocode's parameters. */
  function ReverseGeocodingPlan(g: Geocode): (r: Result<RequestPlan>)
    ensures r.Err? <==> g.latitude == 0.0 || g.longitude == 0.0
    ensures r.Err? ==> r.error == BadRequest(UndefinedCoordinatesMessage)
    ensures r.Ok? ==> r.value.httpMethod == MethodGet && r.value.path == "postcodes" && r.value.payload == NoPayload
  {
    match ValidateGeocode(g)
    case Some(e) => Err(e)
    case None => Ok(RequestPlan(MethodGet, "postcodes", GeocodeQuery(g, true), NoPayload))
  }

  /** OutcodeReverseGeocoding: as ReverseGeocoding, on `outcodes`, never sending `widesearch`. */
  function OutcodeReverseGeocodingPlan(g: Geocode): (r: Result<RequestPlan>)
    ensures r.Err? <==> g.latitude == 0.0 || g.longitude == 0.0
    ensures r.Err? ==> r.error == BadRequest(UndefinedCoordinatesMessage)
    ensures r.Ok? ==> r.value.httpMethod == MethodGet && r.value.path == "outcodes" && r.value.payload == NoPayload
  {
    match ValidateGeocode(g)
    case Some(e) => Err(e)
    case None => Ok(RequestPlan(MethodGet, "outcodes", GeocodeQuery(g, false), NoPayload))
  }

  /** Query: reject a limit above 100, then GET `postcodes` with `q` and any given limit. */
  function QueryPlan(postcode: string, limit: Option<Int64>): (r: Result<RequestPlan>)
    ensures r.Err? <==> limit.Some? && limit.value > MaxLimit
    ensures r.Err? ==> r.error == BadRequest(LimitExceededMessage)
    ensures r.Ok? ==> r.value.httpMethod == MethodGet && r.value.path == "postcodes" && r.value.payload == NoPayload
  {
    match LimitCheck(limit)
    case Some(e) => Err(e)
    case None => Ok(RequestPlan(MethodGet, "postcodes", Optional(true, "q", postcode) + GivenParam("limit", limit), NoPayload))
  }

  /** Autocomplete: reject a limit above 100, then GET `postcodes/<postcode>/autocomplete` with any given limit. */
  function AutocompletePlan(postcode: string, limit: Option<Int64>): (r: Result<RequestPlan>)
    ensures r.Err? <==> limit.Some? && limit.value > MaxLimit
    ensures r.Err? ==> r.error == BadRequest(LimitExceededMessage)
    ensures r.Ok? ==> r.value.httpMethod == MethodGet && r.value.path == "postcodes/" + postcode + "/autocomplete"
    ensures r.Ok? ==> r.value.payload == NoPayload
  {
    match LimitCheck(limit)
    case Some(e) => Err(e)
    case None => Ok(RequestPlan(MethodGet, "postcodes/" + postcode + "/autocomplete", GivenParam("limit", limit), NoPayload))
  }

  /** PlaceQuery: reject a limit above 100, then GET `places` with `q` and the limit only when positive. */
  function PlaceQueryPlan(query: string, limit: Option<Int64>): (r: Result<RequestPlan>)
    ensures r.Err? <==> limit.Some? && limit.value > MaxLimit
    ensures r.Err? ==> r.error == BadRequest(LimitExceededMessage)
    ensures r.Ok? ==> r.value.httpMethod == MethodGet && r.value.path == "places" && r.value.payload == NoPayload
  {
    match LimitCheck(limit)
    case Some(e) => Err(e)
    case None => Ok(RequestPlan(MethodGet, "places", Optional(true, "q", query) + PositiveParam("limit", limit), NoPayload))
  }

  /**
   * NearestPostcode: reject a limit above 100, then a radius above 2000 (with the
   * limit's message), then GET `postcodes/<postcode>/nearest` with any given
   * limit and radius.
   */
  function NearestPostcodePlan(postcode: string, limit: Option<Int64>, radius: Option<Int64>): (r: Result<RequestPlan>)
    ensures r.Err? <==> (limit.Some? && limit.value > MaxLimit) || (radius.Some? && radius.value > MaxRadius)
    ensures r.Err? ==> r.error == BadRequest(LimitExceededMessage)
    ensures r.Ok? ==> r.value.httpMethod == MethodGet && r.value.path == "postcodes/" + postcode + "/nearest"
    ensures r.Ok? ==> r.value.payload == NoPayload
  {
    if limit.Some? && limit.value > MaxLimit then Err(BadRequest(LimitExceededMessage))
    else if radius.Some? && radius.value > MaxRadius then Err(BadRequest(LimitExceededMessage))
    else Ok(RequestPlan(MethodGet, "postcodes/" + postcode + "/nearest",
                        GivenParam("limit", limit) + GivenParam("radius", radius), NoPayload))
  }

  /** NearestOutcode: no checks; GET `outcodes/<outcode>/nearest` with limit and radius only when positive. */
  function NearestOutcodePlan(outcode: string, limit: Option<Int64>, radius: Option<Int64>): (r: Result<RequestPlan>)
    ensures r.Ok?
    ensures r.value.httpMethod == MethodGet && r.value.path == "outcodes/" + outcode + "/nearest"
    ensures r.value.payload == NoPayload
  {
    Ok(RequestPlan(MethodGet, "outcodes/" + outcode + "/nearest",
                   PositiveParam("limit", limit) + PositiveParam("radius", radius), NoPayload))
  }

  /** RandomPostcode: GET `random/postcodes`, with `outcode` when one is given. */
  function RandomPostcodePlan(outcode: Option<string>): (r: Result<RequestPlan>)
    ensures r.Ok? && r.value.httpMethod == MethodGet && r.value.path == "random/postcodes"
    ensures r.value.payload == NoPayload
  {
    var q := if outcode.Some? then [Pair("outcode", outcode.value)] else [];
    Ok(RequestPlan(MethodGet, "random/postcodes", q, NoPayload))
  }

  // ---- what the plans send ----

  /**
   * `s` reads back as a numeral with 20 fraction digits whose value is `x` to
   * within half a unit in the last place.
   */
  predicate Denotes(s: string, x: real)
  {
    var v := FixedValue(s);
    && v.Some? && v.value.places == FloatPrecision
    && v.value.units as real - x * FloatUnit as real <= 0.5
    && x * FloatUnit as real - v.value.units as real <= 0.5
  }

  /**
   * The reverse-geocoding query: `lon` and `lat` come first and always, and carry
   * the coordinates; `limit` and `radius` are sent exactly when positive and read
   * back as the geocode's values; `widesearch=true` is sent exactly when the
   * geocode asks for it and the endpoint sends it at all.
   */
  lemma GeocodeQuerySends(g: Geocode, sendsWideSearch: bool)
    ensures var q := GeocodeQuery(g, sendsWideSearch);
      var sent := MergeQuery(q);
      && |q| >= 2 && q[0].key == "lon" && q[1].key == "lat"
      && sent.Keys <= {"lon", "lat", "limit", "radius", "widesearch"}
      && "lon" in sent && sent["lon"] == FormatFloat(g.longitude) && Denotes(sent["lon"], g.longitude)
      && "lat" in sent && sent["lat"] == FormatFloat(g.latitude) && Denotes(sent["lat"], g.latitude)
      && ("limit" in sent <==> g.limit > 0)
      && ("limit" in sent ==> ParseInt(sent["limit"]) == Some(g.limit as int))
      && ("radius" in sent <==> g.radius > 0)
      && ("radius" in sent ==> ParseInt(sent["radius"]) == Some(g.radius as int))
      && ("widesearch" in sent <==> sendsWideSearch && g.wideSearch)
      && ("widesearch" in sent ==> sent["widesearch"] == "true")
  {
    var l, rd := PositiveParam("limit", Some(g.limit)), PositiveParam("radius", Some(g.radius));
    var w := Optional(sendsWideSearch && g.wideSearch, "widesearch", FormatBool(g.wideSearch));
    GeocodeQueryMap(g, sendsWideSearch);
    PositiveParamSends("limit", Some(g.limit));
    PositiveParamSends("radius", Some(g.radius));
    OptionalSends(sendsWideSearch && g.wideSearch, "widesearch", FormatBool(g.wideSearch));
    UnionOfParams(FormatFloat(g.longitude), FormatFloat(g.latitude), MergeQuery(l), MergeQuery(rd), MergeQuery(w));
    FormatFloatDenotes(g.longitude);
    FormatFloatDenotes(g.latitude);
  }

  /** Reading the coordinate pair and the three optional parameters out of their union. */
  lemma UnionOfParams(lon: string, lat: string, limit: map<string, string>, radius: map<string, string>, wide: map<string, string>)
    requires limit.Keys <= {"limit"} && radius.Keys <= {"radius"} && wide.Keys <= {"widesearch"}
    ensures var sent := map["lon" := lon, "lat" := lat] + limit + radius + wide;
      && sent.Keys <= {"lon", "lat", "limit", "radius", "widesearch"}
      && "lon" in sent && sent["lon"] == lon && "lat" in sent && sent["lat"] == lat
      && ("limit" in sent <==> "limit" in limit) && ("limit" in limit ==> sent["limit"] == limit["limit"])
      && ("radius" in sent <==> "radius" in radius) && ("radius" in radius ==> sent["radius"] == radius["radius"])
      && ("widesearch" in sent <==> "widesearch" in wide) && ("widesearch" in wide ==> sent["widesearch"] == wide["widesearch"])
  {
  }

  /** A coordinate FormatFloat wrote for the query reads back as that coordinate, to 20 decimal places. */
  lemma FormatFloatDenotes(x: real)
    ensures Denotes(FormatFloat(x), x)
  {
    FormatFloatValue(x);
  }

  /** The parameters of a geocode query, piece by piece. */
  lemma GeocodeQueryMap(g: Geocode, sendsWideSearch: bool)
    ensures MergeQuery(GeocodeQuery(g, sendsWideSearch)) ==
      map["lon" := FormatFloat(g.longitude), "lat" := FormatFloat(g.latitude)]
        + MergeQuery(PositiveParam("limit", Some(g.limit)))
        + MergeQuery(PositiveParam("radius", Some(g.radius)))
        + MergeQuery(Optional(sendsWideSearch && g.wideSearch, "widesearch", FormatBool(g.wideSearch)))
  {
    var c := Coordinates(g);
    var l, rd := PositiveParam("limit", Some(g.limit)), PositiveParam("radius", Some(g.radius));
    var w := Optional(sendsWideSearch && g.wideSearch, "widesearch", FormatBool(g.wideSearch));
    MergeQueryAppend(c + l + rd, w);
    MergeQueryAppend(c + l, rd);
    MergeQueryAppend(c, l);
    assert c == [c[0]] + [c[1]];
    MergeQueryAppend([c[0]], [c[1]]);
    MergeQuerySingle(c[0]);
    MergeQuerySingle(c[1]);
  }

  /** OutcodeReverseGeocoding sends what ReverseGeocoding sends, less `widesearch`. */
  lemma OutcodeReverseOmitsWideSearch(g: Geocode)
    requires g.latitude != 0.0 && g.longitude != 0.0
    ensures var outcodes := OutcodeReverseGeocodingPlan(g).value.query;
      && ReverseGeocodingPlan(g).value.query == outcodes + Optional(g.wideSearch, "widesearch", "true")
      && "widesearch" !in MergeQuery(outcodes)
      && MergeQuery(ReverseGeocodingPlan(g).value.query) ==
           MergeQuery(outcodes) + (if g.wideSearch then map["widesearch" := "true"] else map[])
  {
    var outcodes := OutcodeReverseGeocodingPlan(g).value.query;
    var wide := Optional(g.wideSearch, "widesearch", "true");
    assert outcodes == GeocodeQuery(g, false);
    assert Optional(false, "widesearch", FormatBool(g.wideSearch)) == [];
    assert g.wideSearch ==> FormatBool(g.wideSearch) == "true";
    assert ReverseGeocodingPlan(g).value.query == outcodes + wide;
    MergeQueryAppend(outcodes, wide);
    OptionalSends(g.wideSearch, "widesearch", "true");
    GeocodeQueryMap(g, false);
    PositiveParamSends("limit", Some(g.limit));
    PositiveParamSends("radius", Some(g.radius));
    OptionalSends(false, "widesearch", FormatBool(g.wideSearch));
  }

  /** Query sends `q` always and `limit` whenever one is given, zero and negative values included. */
  lemma QuerySends(postcode: string, limit: Option<Int64>)
    requires !(limit.Some? && limit.value > MaxLimit)
    ensures var sent := MergeQuery(QueryPlan(postcode, limit).value.query);
      && sent.Keys <= {"q", "limit"}
      && "q" in sent && sent["q"] == postcode
      && ("limit" in sent <==> limit.Some?)
      && ("limit" in sent ==> ParseInt(sent["limit"]) == Some(limit.value as int))
  {
    MergeQueryAppend(Optional(true, "q", postcode), GivenParam("limit", limit));
    OptionalSends(true, "q", postcode);
    GivenParamSends("limit", limit);
  }

  /** PlaceQuery sends `q` always and `limit` only when it is given and positive. */
  lemma PlaceQuerySends(query: string, limit: Option<Int64>)
    requires !(limit.Some? && limit.value > MaxLimit)
    ensures var sent := MergeQuery(PlaceQueryPlan(query, limit).value.query);
      && sent.Keys <= {"q", "limit"}
      && "q" in sent && sent["q"] == query
      && ("limit" in sent <==> limit.Some? && limit.value > 0)
      && ("limit" in sent ==> ParseInt(sent["limit"]) == Some(limit.value as int))
  {
    MergeQueryAppend(Optional(true, "q", query), PositiveParam("limit", limit));
    OptionalSends(true, "q", query);
    PositiveParamSends("limit", limit);
  }

  /** The two searches disagree on a limit of zero or less: Query sends it, PlaceQuery drops it. */
  lemma LimitInclusionDiffers(postcode: string, query: string, n: Int64)
    requires n <= MaxLimit
    ensures "limit" in MergeQuery(QueryPlan(postcode, Some(n)).value.query)
    ensures "limit" in MergeQuery(PlaceQueryPlan(query, Some(n)).value.query) <==> n > 0
  {
    QuerySends(postcode, Some(n));
    PlaceQuerySends(query, Some(n));
  }

  /** Autocomplete sends `limit` whenever one is given, and nothing else. */
  lemma AutocompleteSends(postcode: string, limit: Option<Int64>)
    requires !(limit.Some? && limit.value > MaxLimit)
    ensures var sent := MergeQuery(AutocompletePlan(postcode, limit).value.query);
      && sent.Keys <= {"limit"}
      && ("limit" in sent <==> limit.Some?)
      && ("limit" in sent ==> ParseInt(sent["limit"]) == Some(limit.value as int))
  {
    GivenParamSends("limit", limit);
  }

  /** NearestPostcode sends `limit` and `radius` whenever they are given. */
  lemma NearestPostcodeSends(postcode: string, limit: Option<Int64>, radius: Option<Int64>)
    requires !(limit.Some? && limit.value > MaxLimit) && !(radius.Some? && radius.value > MaxRadius)
    ensures var sent := MergeQuery(NearestPostcodePlan(postcode, limit, radius).value.query);
      && sent.Keys <= {"limit", "radius"}
      && ("limit" in sent <==> limit.Some?)
      && ("limit" in sent ==> ParseInt(sent["limit"]) == Some(limit.value as int))
      && ("radius" in sent <==> radius.Some?)
      && ("radius" in sent ==> ParseInt(sent["radius"]) == Some(radius.value as int))
  {
    MergeQueryAppend(GivenParam("limit", limit), GivenParam("radius", radius));
    GivenParamSends("limit", limit);
    GivenParamSends("radius", radius);
  }

  /** NearestOutcode sends `limit` and `radius` only when they are given and positive. */
  lemma NearestOutcodeSends(outcode: string, limit: Option<Int64>, radius: Option<Int64>)
    ensures var sent := MergeQuery(NearestOutcodePlan(outcode, limit, radius).value.query);
      && sent.Keys <= {"limit", "radius"}
      && ("limit" in sent <==> limit.Some? && limit.value > 0)
      && ("limit" in sent ==> ParseInt(sent["limit"]) == Some(limit.value as int))
      && ("radius" in sent <==> radius.Some? && radius.value > 0)
      && ("radius" in sent ==> ParseInt(sent["radius"]) == Some(radius.value as int))
  {
    MergeQueryAppend(PositiveParam("limit", limit), PositiveParam("radius", radius));
    PositiveParamSends("limit", limit);
    PositiveParamSends("radius", radius);
  }

  /** RandomPostcode sends `outcode`, verbatim, exactly when one is given. */
  lemma RandomPostcodeSends(outcode: Option<string>)
    ensures var sent := MergeQuery(RandomPostcodePlan(outcode).value.query);
      && ("outcode" in sent <==> outcode.Some?)
      && sent == if outcode.Some? then map["outcode" := outcode.value] else map[]
  {
    if outcode.Some? {
      MergeQuerySingle(Pair("outcode", outcode.value));
    }
  }

  /**
   * The bulk endpoints send one `filter` parameter when there are filters and
   * none otherwise; when no filter contains a comma, splitting the sent value at
   * commas gives back the filters in order.
   */
  lemma FilterSends(filters: seq<string>)
    ensures |filters| == 0 ==> MergeQuery(FilterQuery(filters)) == map[]
    ensures |filters| > 0 ==> MergeQuery(FilterQuery(filters)) == map["filter" := Join(filters, ",")]
    ensures |filters| > 0 && (forall k :: 0 <= k < |filters| ==> ',' !in filters[k]) ==>
      Split(MergeQuery(FilterQuery(filters))["filter"], ',') == filters
  {
    OptionalSends(|filters| > 0, "filter", Join(filters, ","));
    if |filters| > 0 && (forall k :: 0 <= k < |filters| ==> ',' !in filters[k]) {
      SplitJoin(filters, ',');
    }
  }

  // ---- the world outside ----

  /** What json.Marshal made of a request body. */
  datatype Encoding = Encoded(bytes: string) | EncodeFailed(message: string)

  /**
   * The library calls the SDK makes: the JSON encoder for request bodies, the
   * error http.NewRequest reports for a URL (if any), and the transport together
   * with the service, which answers a request with a reply.
   */
  datatype Environment<T> = Environment(
    encode: Payload -> Encoding,
    urlError: string -> Option<string>,
    server: HttpRequest -> Reply<T>)

  /** The request the client sends for a method, path, query list and encoded body. */
  function Outgoing(httpMethod: string, path: string, query: seq<Pair>, body: string): HttpRequest
  {
    HttpRequest(httpMethod, JoinUrl(API, path), HeaderMap(DefaultHeaders), MergeQuery(query), body)
  }

  /** Request, Do and ResponseDecoder on a fresh client whose query list is `query`. */
  function Deliver<T>(httpMethod: string, path: string, query: seq<Pair>, body: string, env: Environment<T>): Result<T>
  {
    match env.urlError(JoinUrl(API, path))
    case Some(m) => Err(RequestBuildError(m))
    case None =>
      var outcome := DoOutcome(env.server(Outgoing(httpMethod, path, query, body)));
      if outcome.1.Some? then Err(outcome.1.value) else ResponseDecoder(outcome.0.value.asEnvelope)
  }

  /** The body a plan sends: empty without a payload, otherwise the payload's encoding. */
  function SentBody<T>(plan: RequestPlan, env: Environment<T>): string
  {
    if plan.payload.NoPayload? then ""
    else match env.encode(plan.payload)
      case Encoded(b) => b
      case EncodeFailed(_) => ""
  }

  /** The plan's body encodes and its URL parses, so the request goes out. */
  predicate Sendable<T>(plan: RequestPlan, env: Environment<T>)
  {
    && (plan.payload.NoPayload? || env.encode(plan.payload).Encoded?)
    && env.urlError(JoinUrl(API, plan.path)).None?
  }

  /** The service's answer to the request a plan sends. */
  function ReplyTo<T>(plan: RequestPlan, env: Environment<T>): Reply<T>
  {
    env.server(Outgoing(plan.httpMethod, plan.path, plan.query, SentBody(plan, env)))
  }

  /**
   * Carrying out an accepted plan. A payload that does not encode is a
   * PayloadEncodeError and a URL that does not parse is a RequestBuildError; in
   * both cases nothing is sent. Otherwise a transport failure or a status other
   * than 200 is the error Do reports, and a 200 is whatever the envelope decodes
   * to. A result is returned only when the request went out, the service answered
   * 200 with an envelope status below 400 and the envelope's `result` decoded to it.
   */
  function Transmit<T>(plan: RequestPlan, env: Environment<T>): (r: Result<T>)
    ensures !plan.payload.NoPayload? && env.encode(plan.payload).EncodeFailed? ==>
      r == Err(PayloadEncodeError(env.encode(plan.payload).message))
    ensures (plan.payload.NoPayload? || env.encode(plan.payload).Encoded?) && env.urlError(JoinUrl(API, plan.path)).Some? ==>
      r == Err(RequestBuildError(env.urlError(JoinUrl(API, plan.path)).value))
    ensures Sendable(plan, env) && (ReplyTo(plan, env).TransportFailed? || ReplyTo(plan, env).response.statusCode != StatusOK) ==>
      r == Err(DoOutcome(ReplyTo(plan, env)).1.value)
    ensures Sendable(plan, env) && ReplyTo(plan, env).Replied? && ReplyTo(plan, env).response.statusCode == StatusOK ==>
      r == ResponseDecoder(ReplyTo(plan, env).response.asEnvelope)
    ensures r.Ok? ==>
      var reply := ReplyTo(plan, env);
      && Sendable(plan, env)
      && reply.Replied? && reply.response.statusCode == StatusOK
      && reply.response.asEnvelope.Envelope? && reply.response.asEnvelope.status < 400
      && reply.response.asEnvelope.result == Decoded(r.value)
  {
    if plan.payload.NoPayload? then Deliver(plan.httpMethod, plan.path, plan.query, "", env)
    else match env.encode(plan.payload)
      case EncodeFailed(m) => Err(PayloadEncodeError(m))
      case Encoded(b) => Deliver(plan.httpMethod, plan.path, plan.query, b, env)
  }

  /** An endpoint call: a plan rejected locally is returned as is and nothing is encoded or sent. */
  function Perform<T>(plan: Result<RequestPlan>, env: Environment<T>): (r: Result<T>)
    ensures plan.Err? ==> r == Err(plan.error)
    ensures plan.Ok? ==> r == Transmit(plan.value, env)
  {
    match plan
    case Err(e) => Err(e)
    case Ok(p) => Transmit(p, env)
  }

  // ---- the endpoint functions ----

  /** client.Request, client.Do and ResponseDecoder, on a client holding the default URL and headers. */
  method Send<T>(client: Client, httpMethod: string, path: string, body: string, env: Environment<T>) returns (r: Result<T>)
    requires client.url == API && client.headers == DefaultHeaders
    modifies client`req
    ensures r == Deliver(httpMethod, path, client.query, body, env)
  {
    var err := client.Request(httpMethod, path, body, env.urlError);
    if err.Some? {
      return Err(RequestBuildError(err.value));
    }
    var response, error := client.Do(env.server);
    if error.Some? {
      return Err(error.value);
    }
    r := ResponseDecoder(response.value.asEnvelope);
  }

  method Lookup<T>(postcode: string, env: Environment<T>) returns (r: Result<T>)
    ensures r == Perform(PathPlan("postcodes/" + postcode), env)
  {
    var client := new Client();
    r := Send(client, MethodGet, "postcodes/" + postcode, "", env);
  }

  method BulkLookup<T>(batch: Postcodes, filters: seq<string>, env: Environment<T>) returns (r: Result<T>)
    ensures r == Perform(BulkLookupPlan(batch, filters), env)
  {
    var client := new Client();
    var invalid := batch.Validate();
    if invalid.Some? {
      return Err(invalid.value);
    }
    var encoded := env.encode(PostcodesBody(batch));
    if encoded.EncodeFailed? {
      return Err(PayloadEncodeError(encoded.message));
    }
    if |filters| > 0 {
      client.query := client.query + [Pair("filter", Join(filters, ","))];
    }
    r := Send(client, MethodPost, "postcodes", encoded.bytes, env);
  }

  method ReverseGeocoding<T>(g: Geocode, env: Environment<T>) returns (r: Result<T>)
    ensures r == Perform(ReverseGeocodingPlan(g), env)
  {
    var invalid := ValidateGeocode(g);
    if invalid.Some? {
      return Err(invalid.value);
    }
    ghost var plan := RequestPlan(MethodGet, "postcodes", GeocodeQuery(g, true), NoPayload);
    assert ReverseGeocodingPlan(g) == Ok(plan);
    var client := new Client();
    client.query := client.query + [Pair("lon", FormatFloat(g.longitude))];
    client.query := client.query + [Pair("lat", FormatFloat(g.latitude))];
    ghost var coordinates := client.query;
    assert coordinates == Coordinates(g);
    if g.limit > 0 {
      client.query := client.query + [Pair("limit", FormatInt(g.limit))];
    }
    assert client.query == coordinates + PositiveParam("limit", Some(g.limit));
    if g.radius > 0 {
      client.query := client.query + [Pair("radius", FormatInt(g.radius))];
    }
    assert client.query == coordinates + PositiveParam("limit", Some(g.limit)) + PositiveParam("radius", Some(g.radius));
    if g.wideSearch {
      client.query := client.query + [Pair("widesearch", FormatBool(g.wideSearch))];
    }
    assert client.query == coordinates + PositiveParam("limit", Some(g.limit)) + PositiveParam("radius", Some(g.radius))
      + Optional(g.wideSearch, "widesearch", FormatBool(g.wideSearch));
    assert client.query == plan.query;
    r := Send(client, MethodGet, "postcodes", "", env);
    assert r == Transmit(plan, env);
  }

  method BulkReverseGeocoding<T>(locations: Geocodes, filters: seq<string>, env: Environment<T>) returns (r: Result<T>)
    ensures r == Perform(BulkReverseGeocodingPlan(locations, filters), env)
  {
    var client := new Client();
    var invalid := locations.Validate();
    if invalid.Some? {
      return Err(invalid.value);
    }
    var encoded := env.encode(GeolocationsBody(locations));
    if encoded.EncodeFailed? {
      return Err(PayloadEncodeError(encoded.message));
    }
    if |filters| > 0 {
      client.query := client.query + [Pair("filter", Join(filters, ","))];
    }
    r := Send(client, MethodPost, "postcodes", encoded.bytes, env);
  }

  method Query<T>(postcode: string, limit: Option<Int64>, env: Environment<T>) returns (r: Result<T>)
    ensures r == Perform(QueryPlan(postcode, limit), env)
  {
    if limit.Some? && limit.value > MaxLimit {
      return Err(BadRequest(LimitExceededMessage));
    }
    var client := new Client();
    client.query := client.query + [Pair("q", postcode)];
    if limit.Some? {
      client.query := client.query + [Pair("limit", FormatInt(limit.value))];
    }
    assert client.query == QueryPlan(postcode, limit).value.query;
    r := Send(client, MethodGet, "postcodes", "", env);
  }

  method Validation<T>(postcode: string, env: Environment<T>) returns (r: Result<T>)
    ensures r == Perform(PathPlan("postcodes/" + postcode + "/validate"), env)
  {
    var client := new Client();
    r := Send(client, MethodGet, "postcodes/" + postcode + "/validate", "", env);
  }

  method NearestPostcode<T>(postcode: string, limit: Option<Int64>, radius: Option<Int64>, env: Environment<T>)
    returns (r: Result<T>)
    ensures r == Perform(NearestPostcodePlan(postcode, limit, radius), env)
  {
    if limit.Some? && limit.value > MaxLimit {
      return Err(BadRequest(LimitExceededMessage));
    }
    if radius.Some? && radius.value > MaxRadius {
      return Err(BadRequest(LimitExceededMessage));
    }
    var client := new Client();
    if limit.Some? {
      client.query := client.query + [Pair("limit", FormatInt(limit.value))];
    }
    if radius.Some? {
      client.query := client.query + [Pair("radius", FormatInt(radius.value))];
    }
    assert client.query == NearestPostcodePlan(postcode, limit, radius).value.query;
    r := Send(client, MethodGet, "postcodes/" + postcode + "/nearest", "", env);
  }

  method Autocomplete<T>(postcode: string, limit: Option<Int64>, env: Environment<T>) returns (r: Result<T>)
    ensures r == Perform(AutocompletePlan(postcode, limit), env)
  {
    if limit.Some? && limit.value > MaxLimit {
      return Err(BadRequest(LimitExceededMessage));
    }
    var client := new Client();
    if limit.Some? {
      client.query := client.query + [Pair("limit", FormatInt(limit.value))];
    }
    r := Send(client, MethodGet, "postcodes/" + postcode + "/autocomplete", "", env);
  }

  method RandomPostcode<T>(outcode: Option<string>, env: Environment<T>) returns (r: Result<T>)
    ensures r == Perform(RandomPostcodePlan(outcode), env)
  {
    var client := new Client();
    if outcode.Some? {
      client.query := client.query + [Pair("outcode", outcode.value)];
    }
    r := Send(client, MethodGet, "random/postcodes", "", env);
  }

  method OutcodeLookup<T>(outcode: string, env: Environment<T>) returns (r: Result<T>)
    ensures r == Perform(PathPlan("outcodes/" + outcode), env)
  {
    var client := new Client();
    r := Send(client, MethodGet, "outcodes/" + outcode, "", env);
  }

  method OutcodeReverseGeocoding<T>(g: Geocode, env: Environment<T>) returns (r: Result<T>)
    ensures r == Perform(OutcodeReverseGeocodingPlan(g), env)
  {
    var invalid := ValidateGeocode(g);
    if invalid.Some? {
      return Err(invalid.value);
    }
    ghost var plan := RequestPlan(MethodGet, "outcodes", GeocodeQuery(g, false), NoPayload);
    assert OutcodeReverseGeocodingPlan(g) == Ok(plan);
    var client := new Client();
    client.query := client.query + [Pair("lon", FormatFloat(g.longitude))];
    client.query := client.query + [Pair("lat", FormatFloat(g.latitude))];
    ghost var coordinates := client.query;
    assert coordinates == Coordinates(g);
    if g.limit > 0 {
      client.query := client.query + [Pair("limit", FormatInt(g.limit))];
    }
    assert client.query == coordinates + PositiveParam("limit", Some(g.limit));
    if g.radius > 0 {
      client.query := client.query + [Pair("radius", FormatInt(g.radius))];
    }
    assert client.query == coordinates + PositiveParam("limit", Some(g.limit)) + PositiveParam("radius", Some(g.radius));
    assert client.query == plan.query;
    r := Send(client, MethodGet, "outcodes", "", env);
    assert r == Transmit(plan, env);
  }

  method NearestOutcode<T>(outcode: string, limit: Option<Int64>, radius: Option<Int64>, env: Environment<T>)
    returns (r: Result<T>)
    ensures r == Perform(NearestOutcodePlan(outcode, limit, radius), env)
  {
    var client := new Client();
    if limit.Some? && limit.value > 0 {
      client.query := client.query + [Pair("limit", FormatInt(limit.value))];
    }
    if radius.Some? && radius.value > 0 {
      client.query := client.query + [Pair("radius", FormatInt(radius.value))];
    }
    assert client.query == NearestOutcodePlan(outcode, limit, radius).value.query;
    r := Send(client, MethodGet, "outcodes/" + outcode + "/nearest", "", env);
  }

  method ScottishPostcodeLookup<T>(postcode: string, env: Environment<T>) returns (r: Result<T>)
    ensures r == Perform(PathPlan("scotland/postcodes/" + postcode), env)
  {
    var client := new Client();
    r := Send(client, MethodGet, "scotland/postcodes/" + postcode, "", env);
  }

  method TerminatedPostcodeLookup<T>(postcode: string, env: Environment<T>) returns (r: Result<T>)
    ensures r == Perform(PathPlan("terminated_postcodes/" + postcode), env)
  {
    var client := new Client();
    r := Send(client, MethodGet, "terminated_postcodes/" + postcode, "", env);
  }

  method PlaceLookup<T>(osgbCode: string, env: Environment<T>) returns (r: Result<T>)
    ensures r == Perform(PathPlan("places/" + osgbCode), env)
  {
    var client := new Client();
    r := Send(client, MethodGet, "places/" + osgbCode, "", env);
  }

  method PlaceQuery<T>(query: string, limit: Option<Int64>, env: Environment<T>) returns (r: Result<T>)
    ensures r == Perform(PlaceQueryPlan(query, limit), env)
  {
    if limit.Some? && limit.value > MaxLimit {
      return Err(BadRequest(LimitExceededMessage));
    }
    var client := new Client();
    client.query := client.query + [Pair("q", query)];
    if limit.Some? && limit.value > 0 {
      client.query := client.query + [Pair("limit", FormatInt(limit.value))];
    }
    assert client.query == PlaceQueryPlan(query, limit).value.query;
    r := Send(client, MethodGet, "places", "", env);
  }

  method RandomPlace<T>(env: Environment<T>) returns (r: Result<T>)
    ensures r == Perform(PathPlan("random/places"), env)
  {
    var client := new Client();
    r := Send(client, MethodGet, "random/places", "", env);
  }
}
