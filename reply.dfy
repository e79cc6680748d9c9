/**
 * The outcome of the HTTP request and the shaping of each element of the
 * server's JSON reply into a device record with an optional location.
 */
module KismetReply {
  import opened Wrappers
  import opened PyJson
  import opened KismetQuery

  const ProbedFlag := "dot11.probedssid.location"
  const ProbedGps := "dot11.probedssid.gps"
  const AdvertisedFlag := "dot11.advertisedssid.location"
  const LocValid := "kismet.common.location.loc_valid"
  const AvgLat := "kismet.common.location.avg_lat"
  const AvgLon := "kismet.common.location.avg_lon"

  /**
   * What the HTTP request gives the poll: a `requests.exceptions.ConnectionError`
   * (a refused or unreachable server, and also a connect timeout, which is a
   * subclass), or a response with its `ok` flag and its body decoded as JSON
   * (None when the body is not JSON).
   */
  datatype HttpReply =
    | ConnectionFailed
    | Response(ok: bool, json: Option<Json>)

  /** A shaped reply element: the device record and the value `gps` holds afterwards. */
  datatype Parsed = Parsed(device: map<string, Json>, gps: Json)

  /** `gps[key] * .000001`, raising KeyError for a missing key. */
  function Scaled(gps: map<string, Json>, key: string): (r: Result<real, PyError>)
    ensures key !in gps ==> r == Err(KeyError(key))
    ensures key in gps && gps[key].JNum? ==> r == Ok(gps[key].n / 1000000.0)
  {
    if key !in gps then Err(KeyError(key)) else TimesMicro(gps[key])
  }

  /** The location object is flagged valid: `loc_valid` is present and equals 1. */
  predicate LocValidFlag(f: map<string, Json>) {
    LocValid in f && EqualsInt(f[LocValid], 1)
  }

  /**
   * The location dictionary of one device, from the current `gps` value:
   * latitude and longitude in degrees when `gps` is a dictionary whose
   * `loc_valid` equals 1, empty otherwise. `in` and indexing on other truthy
   * values raise TypeError as Python does.
   */
  function LocationFrom(gps: Json): (r: Result<map<string, Json>, PyError>)
    ensures !Truthy(gps) ==> r == Ok(map[])
    ensures r.Ok? ==> "ts" !in r.value
    ensures r.Ok? && r.value != map[] ==> gps.JObj? && LocValidFlag(gps.fields)
    ensures gps.JObj? && !LocValidFlag(gps.fields) ==> r == Ok(map[])
    // a valid location: both coordinates scaled, or the first failing lookup's error
    ensures gps.JObj? && LocValidFlag(gps.fields) && AvgLat !in gps.fields ==> r == Err(KeyError(AvgLat))
    ensures gps.JObj? && LocValidFlag(gps.fields) && AvgLat in gps.fields && ToFloat(gps.fields[AvgLat]).None? ==>
      r == Err(TypeError)
    ensures gps.JObj? && LocValidFlag(gps.fields) && AvgLat in gps.fields && ToFloat(gps.fields[AvgLat]).Some? ==>
      (AvgLon !in gps.fields ==> r == Err(KeyError(AvgLon))) &&
      (AvgLon in gps.fields && ToFloat(gps.fields[AvgLon]).None? ==> r == Err(TypeError))
    ensures gps.JObj? && LocValidFlag(gps.fields) &&
            AvgLat in gps.fields && ToFloat(gps.fields[AvgLat]).Some? &&
            AvgLon in gps.fields && ToFloat(gps.fields[AvgLon]).Some? ==>
      r == Ok(map["latitude" := JNum(ToFloat(gps.fields[AvgLat]).value / 1000000.0),
                  "longitude" := JNum(ToFloat(gps.fields[AvgLon]).value / 1000000.0)])
    ensures Truthy(gps) && (gps.JNum? || gps.JBool?) ==> r == Err(TypeError)
    // a list or a string: `in` tests membership, then indexing it by a string raises
    ensures gps.JArr? ==> (r == Err(TypeError) <==> JStr(LocValid) in gps.items)
    ensures gps.JArr? && JStr(LocValid) !in gps.items ==> r == Ok(map[])
    ensures gps.JStr? ==> (r == Err(TypeError) <==> IsSubstring(LocValid, gps.s))
    ensures gps.JStr? && !IsSubstring(LocValid, gps.s) ==> r == Ok(map[])
  {
    if !Truthy(gps) then Ok(map[])
    else
      match gps
      case JObj(f) =>
        if !LocValidFlag(f) then Ok(map[])
        else
          (match Scaled(f, AvgLat)
           case Err(e) => Err(e)
           case Ok(lat) =>
             match Scaled(f, AvgLon)
             case Err(e) => Err(e)
             case Ok(lon) => Ok(map["latitude" := JNum(lat), "longitude" := JNum(lon)]))
      // `in` finds the key in a list or a string, then indexing by a string raises
      case JArr(items) => if JStr(LocValid) in items then Err(TypeError) else Ok(map[])
      case JStr(s) => if IsSubstring(LocValid, s) then Err(TypeError) else Ok(map[])
      // `in` on a number or a boolean
      case _ => Err(TypeError)
  }

  /** The first branch of the reply loop applies: the probed-SSID location flag is present and nonzero. */
  predicate UsesProbed(p: map<string, Json>) {
    ProbedFlag in p && !EqualsInt(p[ProbedFlag], 0)
  }

  /** The second branch applies: no probed location, and the advertised-SSID flag is present and nonzero. */
  predicate UsesAdvertised(p: map<string, Json>) {
    !UsesProbed(p) && AdvertisedFlag in p && !EqualsInt(p[AdvertisedFlag], 0)
  }

  /** The value the reply loop's `gps` takes for this element; None while it is still unbound. */
  function ChosenGps(p: map<string, Json>, gps: Option<Json>): Result<Option<Json>, PyError> {
    if UsesProbed(p) then
      (if ProbedGps in p then Ok(Some(p[ProbedGps])) else Err(KeyError(ProbedGps)))
    else if UsesAdvertised(p) then
      Ok(Some(p[AdvertisedFlag]))
    else
      Ok(gps)
  }

  /**
   * One iteration of the reply loop up to the call of `_update_device`: the
   * device record (`name` and `id` both the MAC, and a location dictionary)
   * and the new value of `gps`, given the value it had after the previous
   * element (None before the first).
   */
  function ParsePair(pair: Json, gps: Option<Json>): (r: Result<Parsed, PyError>)
    // shape of every device produced: no timestamp is ever set
    ensures r.Ok? ==> r.value.device.Keys == {"name", "id", "location"}
    ensures r.Ok? ==> pair.JObj? && MacField in pair.fields
    ensures r.Ok? ==> r.value.device["name"] == pair.fields[MacField] && r.value.device["id"] == pair.fields[MacField]
    ensures r.Ok? ==> r.value.device["location"].JObj? && "ts" !in r.value.device["location"].fields
    ensures r.Ok? ==> Ok(r.value.device["location"].fields) == LocationFrom(r.value.gps)
    // error cases of the element itself
    ensures !pair.JObj? ==> r == Err(TypeError)
    ensures pair.JObj? && MacField !in pair.fields ==> r == Err(KeyError(MacField))
    // which location is used: probed first, then advertised, else the previous one
    ensures r.Ok? && UsesProbed(pair.fields) ==> ProbedGps in pair.fields && r.value.gps == pair.fields[ProbedGps]
    ensures r.Ok? && UsesAdvertised(pair.fields) ==> r.value.gps == pair.fields[AdvertisedFlag]
    ensures r.Ok? && !UsesProbed(pair.fields) && !UsesAdvertised(pair.fields) ==>
      gps.Some? && r.value.gps == gps.value
    ensures pair.JObj? && UsesProbed(pair.fields) && MacField in pair.fields && ProbedGps !in pair.fields ==>
      r == Err(KeyError(ProbedGps))
    ensures pair.JObj? && MacField in pair.fields && gps.None? ==>
      !UsesProbed(pair.fields) && !UsesAdvertised(pair.fields) ==> r == Err(UnboundLocalError("gps"))
    // once `gps` is chosen, the element succeeds exactly when its location does, and fails with its error
    ensures pair.JObj? && MacField in pair.fields && ChosenGps(pair.fields, gps).Err? ==>
      r == Err(ChosenGps(pair.fields, gps).error)
    ensures pair.JObj? && MacField in pair.fields && ChosenGps(pair.fields, gps) == Ok(None) ==>
      r == Err(UnboundLocalError("gps"))
    ensures pair.JObj? && MacField in pair.fields && ChosenGps(pair.fields, gps).Ok? &&
            ChosenGps(pair.fields, gps).value.Some? ==>
      var g := ChosenGps(pair.fields, gps).value.value;
      (r.Ok? <==> LocationFrom(g).Ok?) &&
      (LocationFrom(g).Err? ==> r == Err(LocationFrom(g).error)) &&
      (r.Ok? ==> r.value.gps == g)
  {
    match pair
    case JObj(p) =>
      if MacField !in p then Err(KeyError(MacField))
      else
        var mac := p[MacField];
        (match ChosenGps(p, gps)
         case Err(e) => Err(e)
         case Ok(None) => Err(UnboundLocalError("gps"))
         case Ok(Some(g)) =>
           match LocationFrom(g)
           case Err(e) => Err(e)
           case Ok(loc) => Ok(Parsed(map["name" := mac, "id" := mac, "location" := JObj(loc)], g)))
    case _ => Err(TypeError)
  }

  /**
   * The advertised-SSID branch stores the flag itself in `gps`, so when
   * Kismet reports that flag as a nonzero number the element raises TypeError.
   */
  lemma AdvertisedFlagRaises(p: map<string, Json>, gps: Option<Json>)
    requires MacField in p
    requires !UsesProbed(p)
    requires AdvertisedFlag in p && p[AdvertisedFlag].JNum? && p[AdvertisedFlag].n != 0.0
    ensures ParsePair(JObj(p), gps) == Err(TypeError)
  {
  }

  /**
   * A probed location flagged valid, with numeric `avg_lat` and `avg_lon`,
   * gives the device record those coordinates times 10^-6, whatever `gps`
   * held before.
   */
  lemma ProbedLocationScaled(p: map<string, Json>, gps: Option<Json>)
    requires MacField in p && UsesProbed(p) && ProbedGps in p
    requires p[ProbedGps].JObj? && LocValidFlag(p[ProbedGps].fields)
    requires AvgLat in p[ProbedGps].fields && p[ProbedGps].fields[AvgLat].JNum?
    requires AvgLon in p[ProbedGps].fields && p[ProbedGps].fields[AvgLon].JNum?
    ensures ParsePair(JObj(p), gps) == Ok(Parsed(
      map["name" := p[MacField], "id" := p[MacField],
          "location" := JObj(map["latitude" := JNum(p[ProbedGps].fields[AvgLat].n / 1000000.0),
                                 "longitude" := JNum(p[ProbedGps].fields[AvgLon].n / 1000000.0)])],
      p[ProbedGps]))
  {
  }
}
