/**
 * The Kismet device scanner: its last-seen cache, the per-device staleness
 * filter that decides whether to report a location to the host's `see`
 * callback, and one poll cycle over an HTTP reply.
 *
 * The `see` callback is modelled by the sequence of calls made to it.
 */
module DeviceTracker {
  import opened Wrappers
  import opened PyJson
  import opened Timestamps
  import opened KismetQuery
  import opened KismetReply

  /** What `_dev_data` stores per device id: the last timestamp seen and the reported flag. */
  datatype Entry = Entry(lastSeen: Option<int>, reported: bool)

  /** One call of the host's `see` callback, with all its keyword arguments. */
  datatype SeeCall = SeeCall(
    devId: string,
    gps: (real, real),
    locationName: Option<string>,
    gpsAccuracy: Json,
    battery: int,
    mac: string,
    hostName: Json,
    attributes: map<string, Json>,
    picture: Option<string>)

  /** The scanner's observable state: the last-seen cache and the calls made to `see` so far. */
  datatype Tracker = Tracker(devData: map<string, Entry>, seeCalls: seq<SeeCall>)

  /** How a call ends: by returning, or by letting a Python exception escape. */
  datatype Outcome = Returned | Raised(error: PyError)

  datatype Step = Step(tracker: Tracker, outcome: Outcome)

  /** Why `_update_device` returned without calling `see`. */
  datatype SkipReason = LocationMissing | NoNewTimestamp | GpsInvalid

  /** What `_update_device` does once the cache has been written. */
  datatype Decision = Skipped(reason: SkipReason) | Failed(error: PyError) | Called(call: SeeCall)

  /** The timestamp stored for `devId`, None for a device never seen. */
  function PrevOf(cache: map<string, Entry>, devId: string): Option<int> {
    if devId in cache then cache[devId].lastSeen else None
  }

  /**
   * The cache after `_prev_seen(devId, lastSeen)`: the entry holds the new
   * timestamp when there is one, whether or not it is newer, and the old one
   * otherwise; the reported flag is kept (false for a new device); no other
   * entry changes.
   */
  function Remember(cache: map<string, Entry>, devId: string, lastSeen: Option<int>): (r: map<string, Entry>)
    ensures r.Keys == cache.Keys + {devId}
    ensures forall k :: k in cache && k != devId ==> r[k] == cache[k]
    ensures lastSeen.Some? ==> r[devId].lastSeen == lastSeen
    ensures lastSeen.None? ==> r[devId].lastSeen == PrevOf(cache, devId)
    ensures r[devId].reported == (devId in cache && cache[devId].reported)
  {
    var (prev, reported) := if devId in cache then (cache[devId].lastSeen, cache[devId].reported) else (None, false);
    cache[devId := Entry(if lastSeen.Some? then lastSeen else prev, reported)]
  }

  /** `member.get("location")`. */
  function LocationOf(member: map<string, Json>): Json {
    Get(member, "location")
  }

  /** The parsed `ts` of the member's location; None when the location is not a dictionary. */
  function LastSeenOf(member: map<string, Json>): Option<int> {
    match LocationOf(member)
    case JObj(loc) => UtcFromTs(Get(loc, "ts"))
    case _ => None
  }

  /** `float()` of the location's latitude and longitude, None when either conversion fails. */
  function CoordsOf(member: map<string, Json>): Option<(real, real)> {
    match LocationOf(member)
    case JObj(loc) =>
      var lat, lon := ToFloat(Get(loc, "latitude")), ToFloat(Get(loc, "longitude"));
      if lat.Some? && lon.Some? then Some((lat.value, lon.value)) else None
    case _ => None
  }

  /** `loc.get("fix")`, passed on as the accuracy. */
  function AccuracyOf(member: map<string, Json>): Json {
    match LocationOf(member)
    case JObj(loc) => Get(loc, "fix")
    case _ => JNull
  }

  /** The new timestamp is present and strictly later than the stored one, if any. */
  predicate IsNewer(lastSeen: Option<int>, prevSeen: Option<int>) {
    lastSeen.Some? && (prevSeen.None? || prevSeen.value < lastSeen.value)
  }

  /**
   * The decision `_update_device` takes after writing the cache, given the
   * timestamp that was stored before.
   */
  function Decide(member: map<string, Json>, devId: string, prevSeen: Option<int>): (d: Decision)
    // the three ways of not reporting
    ensures !Truthy(LocationOf(member)) ==> d == Skipped(LocationMissing)
    ensures Truthy(LocationOf(member)) && !IsNewer(LastSeenOf(member), prevSeen) ==> d == Skipped(NoNewTimestamp)
    ensures Truthy(LocationOf(member)) && IsNewer(LastSeenOf(member), prevSeen) && CoordsOf(member).None? ==>
      d == Skipped(GpsInvalid)
    // `see` is called exactly when all checks pass and the member has a name
    ensures d.Called? <==>
      Truthy(LocationOf(member)) && IsNewer(LastSeenOf(member), prevSeen) && CoordsOf(member).Some? && "name" in member
    ensures d.Failed? ==> d.error == KeyError("name")
    ensures Truthy(LocationOf(member)) && IsNewer(LastSeenOf(member), prevSeen) && CoordsOf(member).Some? &&
            "name" !in member ==>
      d == Failed(KeyError("name"))
    // and then with these arguments
    ensures d.Called? ==> d.call.devId == devId && d.call.mac == devId
    ensures d.Called? ==> d.call.gps == CoordsOf(member).value && d.call.gpsAccuracy == AccuracyOf(member)
    ensures d.Called? ==> d.call.locationName.None? && d.call.battery == 100
    ensures d.Called? ==> d.call.hostName == member["name"] && d.call.attributes == map[] && d.call.picture.None?
  {
    var loc := LocationOf(member);
    if !Truthy(loc) then Skipped(LocationMissing)
    else if !IsNewer(LastSeenOf(member), prevSeen) then Skipped(NoNewTimestamp)
    else
      match CoordsOf(member)
      case None => Skipped(GpsInvalid)
      case Some(gps) =>
        if "name" !in member then Failed(KeyError("name"))
        else Called(SeeCall(devId, gps, None, AccuracyOf(member), 100, devId, member["name"], map[], None))
  }

  /**
   * `_update_device(member, devId)` on the scanner's state: the cache is
   * written whatever is decided afterwards, and `see` is called at most once.
   */
  function DeviceStep(t: Tracker, member: map<string, Json>, devId: string): (r: Step)
    ensures r.tracker.devData == Remember(t.devData, devId, LastSeenOf(member))
    ensures t.seeCalls <= r.tracker.seeCalls && |r.tracker.seeCalls| <= |t.seeCalls| + 1
    ensures |r.tracker.seeCalls| == |t.seeCalls| + 1 <==> Decide(member, devId, PrevOf(t.devData, devId)).Called?
    ensures r.outcome.Raised? ==> r.outcome.error == KeyError("name") && r.tracker.seeCalls == t.seeCalls
    ensures Decide(member, devId, PrevOf(t.devData, devId)).Called? ==>
      r.tracker.seeCalls == t.seeCalls + [Decide(member, devId, PrevOf(t.devData, devId)).call]
    ensures r.outcome.Raised? <==> Decide(member, devId, PrevOf(t.devData, devId)).Failed?
  {
    var cache := Remember(t.devData, devId, LastSeenOf(member));
    match Decide(member, devId, PrevOf(t.devData, devId))
    case Called(call) => Step(Tracker(cache, t.seeCalls + [call]), Returned)
    case Skipped(_) => Step(Tracker(cache, t.seeCalls), Returned)
    case Failed(e) => Step(Tracker(cache, t.seeCalls), Raised(e))
  }

  /**
   * The rest of the reply loop from a given element on: shape each element,
   * hand it to `_update_device`, and stop at the first exception.
   */
  function ProcessPairs(t: Tracker, items: seq<Json>, gps: Option<Json>): (r: Step)
    ensures t.seeCalls <= r.tracker.seeCalls
    ensures |r.tracker.seeCalls| <= |t.seeCalls| + |items|
    ensures t.devData.Keys <= r.tracker.devData.Keys
    // a loop that returns has handed every element to `_update_device`, which cached its MAC
    ensures r.outcome.Returned? ==>
      forall x :: x in items ==>
        x.JObj? && MacField in x.fields && x.fields[MacField].JStr? && x.fields[MacField].s in r.tracker.devData
    // and the only keys it adds are the elements' MACs
    ensures forall k :: k in r.tracker.devData && k !in t.devData ==>
      exists x :: x in items && x.JObj? && MacField in x.fields && x.fields[MacField] == JStr(k)
    // an element that cannot be shaped ends the loop with its error, before any change
    ensures items != [] && ParsePair(items[0], gps).Err? ==> r == Step(t, Raised(ParsePair(items[0], gps).error))
    decreases |items|
  {
    if items == [] then Step(t, Returned)
    else
      match ParsePair(items[0], gps)
      case Err(e) => Step(t, Raised(e))
      case Ok(p) =>
        match p.device["id"]
        case JStr(id) =>
          var s := DeviceStep(t, p.device, id);
          if s.outcome.Raised? then s else ProcessPairs(s.tracker, items[1..], Some(p.gps))
        case _ => Step(t, Raised(TypeError))
  }

  /**
   * One poll cycle (`_update_kismet`) given what the HTTP request returned.
   * Building the payload fails first whenever any SSID or client is configured.
   */
  function Poll(t: Tracker, ssids: seq<string>, clients: seq<string>, reply: HttpReply): (r: Step)
    ensures |ssids| > 0 || |clients| > 0 ==> r == Step(t, Raised(KeyError(FieldsKey)))
    ensures reply.ConnectionFailed? || (reply.Response? && !reply.ok) ==> r.tracker == t
    // with the payload built: a failed connection, an error status or a falsy body end the poll quietly
    ensures QueryFor(ssids, clients).Ok? &&
            (reply.ConnectionFailed? || (reply.Response? && !reply.ok) ||
             (reply.Response? && reply.json.Some? && !Truthy(reply.json.value))) ==>
      r == Step(t, Returned)
    // a body that is not JSON, or a truthy body that is not a list, raises with nothing changed
    ensures QueryFor(ssids, clients).Ok? && reply.Response? && reply.ok && reply.json.None? ==>
      r == Step(t, Raised(JsonDecodeError))
    ensures QueryFor(ssids, clients).Ok? && reply.Response? && reply.ok && reply.json.Some? &&
            Truthy(reply.json.value) && !reply.json.value.JArr? ==>
      r == Step(t, Raised(TypeError))
    // a non-empty list is handed to the reply loop, with `gps` still unbound
    ensures QueryFor(ssids, clients).Ok? && reply.Response? && reply.ok && reply.json.Some? &&
            Truthy(reply.json.value) && reply.json.value.JArr? ==>
      r == ProcessPairs(t, reply.json.value.items, None)
  {
    match QueryFor(ssids, clients)
    case Err(e) => Step(t, Raised(e))
    case Ok(_) =>
      match reply
      case ConnectionFailed => Step(t, Returned)
      case Response(ok, body) =>
        if !ok then Step(t, Returned)
        else
          match body
          case None => Step(t, Raised(JsonDecodeError))
          case Some(v) =>
            if !Truthy(v) then Step(t, Returned)
            else
              match v
              case JArr(items) => ProcessPairs(t, items, None)
              // iterating a dictionary, a string or a number never yields a dictionary
              case _ => Step(t, Raised(TypeError))
  }

  /** The value `gps` holds after the reply loop has shaped `items`, stopping at an element that fails to shape. */
  function GpsAfter(items: seq<Json>, gps: Option<Json>): Option<Json>
    decreases |items|
  {
    if items == [] then gps
    else
      match ParsePair(items[0], gps)
      case Err(_) => gps
      case Ok(p) => GpsAfter(items[1..], Some(p.gps))
  }

  /**
   * The reply loop stops at the first exception: over `a + b`, an exception
   * raised within `a` is the outcome of the whole loop and no element of `b`
   * is looked at; otherwise `b` is processed from the state and the `gps`
   * value that `a` left behind.
   */
  lemma {:induction false} ProcessPairsStopsAtFirstError(t: Tracker, a: seq<Json>, b: seq<Json>, gps: Option<Json>)
    ensures var ra := ProcessPairs(t, a, gps);
      ProcessPairs(t, a + b, gps) ==
        if ra.outcome.Raised? then ra else ProcessPairs(ra.tracker, b, GpsAfter(a, gps))
    decreases |a|
  {
    if a == [] {
      assert a + b == b;
    } else {
      var ab := a + b;
      assert ab[0] == a[0] && ab[1..] == a[1..] + b;
      var parsed := ParsePair(a[0], gps);
      if parsed.Ok? && parsed.value.device["id"].JStr? {
        var p := parsed.value;
        var s := DeviceStep(t, p.device, p.device["id"].s);
        if s.outcome.Returned? {
          assert ProcessPairs(t, ab, gps) == ProcessPairs(s.tracker, a[1..] + b, Some(p.gps));
          assert ProcessPairs(t, a, gps) == ProcessPairs(s.tracker, a[1..], Some(p.gps));
          assert GpsAfter(a, gps) == GpsAfter(a[1..], Some(p.gps));
          ProcessPairsStopsAtFirstError(s.tracker, a[1..], b, Some(p.gps));
        }
      }
    }
  }

  /** A device shaped from a reply element never carries a timestamp, so it is never reported. */
  lemma ParsedDeviceIsSkipped(pair: Json, gps: Option<Json>, t: Tracker, id: string)
    requires ParsePair(pair, gps).Ok?
    ensures LastSeenOf(ParsePair(pair, gps).value.device).None?
    ensures DeviceStep(t, ParsePair(pair, gps).value.device, id) ==
      Step(Tracker(Remember(t.devData, id, None), t.seeCalls), Returned)
  {
  }

  /**
   * `after` keeps every entry of `before` unchanged, and every entry it adds
   * has no timestamp and is not reported.
   */
  ghost predicate OnlyAddsBlankEntries(before: map<string, Entry>, after: map<string, Entry>) {
    before.Keys <= after.Keys &&
    (forall k :: k in before ==> after[k] == before[k]) &&
    (forall k :: k in after && k !in before ==> after[k] == Entry(None, false))
  }

  lemma OnlyAddsBlankEntriesTransitive(a: map<string, Entry>, b: map<string, Entry>, c: map<string, Entry>)
    requires OnlyAddsBlankEntries(a, b) && OnlyAddsBlankEntries(b, c)
    ensures OnlyAddsBlankEntries(a, c)
  {
  }

  /** The reply loop never calls `see`, and never changes a stored timestamp or reported flag. */
  lemma {:induction false} ReplyNeverReports(t: Tracker, items: seq<Json>, gps: Option<Json>)
    ensures ProcessPairs(t, items, gps).tracker.seeCalls == t.seeCalls
    ensures OnlyAddsBlankEntries(t.devData, ProcessPairs(t, items, gps).tracker.devData)
    decreases |items|
  {
    if items != [] {
      var parsed := ParsePair(items[0], gps);
      if parsed.Ok? && parsed.value.device["id"].JStr? {
        var id := parsed.value.device["id"].s;
        ParsedDeviceIsSkipped(items[0], gps, t, id);
        var s := DeviceStep(t, parsed.value.device, id);
        assert s.tracker == Tracker(Remember(t.devData, id, None), t.seeCalls);
        assert OnlyAddsBlankEntries(t.devData, s.tracker.devData);
        ReplyNeverReports(s.tracker, items[1..], Some(parsed.value.gps));
        var r := ProcessPairs(t, items, gps);
        assert r == ProcessPairs(s.tracker, items[1..], Some(parsed.value.gps));
        OnlyAddsBlankEntriesTransitive(t.devData, s.tracker.devData, r.tracker.devData);
      }
    }
  }

  /**
   * As written, a poll cycle never calls `see` and never changes a stored
   * timestamp: it only adds cache entries with no timestamp for new devices.
   */
  lemma PollNeverReports(t: Tracker, ssids: seq<string>, clients: seq<string>, reply: HttpReply)
    ensures Poll(t, ssids, clients, reply).tracker.seeCalls == t.seeCalls
    ensures OnlyAddsBlankEntries(t.devData, Poll(t, ssids, clients, reply).tracker.devData)
  {
    var r := Poll(t, ssids, clients, reply);
    if QueryFor(ssids, clients).Ok? && reply.Response? && reply.ok && reply.json.Some? &&
       Truthy(reply.json.value) && reply.json.value.JArr? {
      assert r == ProcessPairs(t, reply.json.value.items, None);
      ReplyNeverReports(t, reply.json.value.items, None);
    } else {
      assert r.tracker == t;
    }
  }

  /** A member whose location has timestamp `ts` (in seconds) and fixed coordinates. */
  function Reading(ts: real, name: string): map<string, Json> {
    map["location" := JObj(map["ts" := JNum(ts), "latitude" := JNum(1.0), "longitude" := JNum(2.0)]),
        "name" := JStr(name)]
  }

  /** A reading at a whole number of seconds parses to that many million microseconds, with coordinates. */
  lemma ReadingParses(secs: int, name: string)
    ensures LastSeenOf(Reading(secs as real, name)) == Some(secs * 1000000)
    ensures Truthy(LocationOf(Reading(secs as real, name)))
    ensures CoordsOf(Reading(secs as real, name)) == Some((1.0, 2.0)) && "name" in Reading(secs as real, name)
  {
    assert RoundHalfEven(secs as real * MicrosPerSecond) == secs * 1000000;
  }

  /**
   * The cache keeps the latest timestamp seen, not the latest reported: after
   * a stale reading at 5 s the device's cache entry is rewound, and a reading
   * at 7 s is reported although a reading at 10 s was reported before it.
   */
  lemma StaleReadingRewindsCache()
    ensures var s1 := DeviceStep(Tracker(map[], []), Reading(10.0, "phone"), "AA");
      var s2 := DeviceStep(s1.tracker, Reading(5.0, "phone"), "AA");
      var s3 := DeviceStep(s2.tracker, Reading(7.0, "phone"), "AA");
      |s1.tracker.seeCalls| == 1 && |s2.tracker.seeCalls| == 1 && |s3.tracker.seeCalls| == 2 &&
      s2.tracker.devData["AA"].lastSeen == Some(5000000)
  {
    var m10, m5, m7 := Reading(10.0, "phone"), Reading(5.0, "phone"), Reading(7.0, "phone");
    ReadingParses(10, "phone");
    ReadingParses(5, "phone");
    ReadingParses(7, "phone");
    var s1 := DeviceStep(Tracker(map[], []), m10, "AA");
    assert Decide(m10, "AA", None).Called?;
    var s2 := DeviceStep(s1.tracker, m5, "AA");
    assert Decide(m5, "AA", Some(10000000)) == Skipped(NoNewTimestamp);
    assert Decide(m7, "AA", Some(5000000)).Called?;
  }

  /**
   * For any stored state: once a reading with timestamp `b` has been
   * processed, a later reading with timestamp `c > b` that has coordinates and
   * a name is reported, whatever was reported before `b`.
   */
  lemma NewerThanLastSeenIsReported(
    t: Tracker, devId: string, stale: map<string, Json>, next: map<string, Json>)
    requires LastSeenOf(stale).Some? && LastSeenOf(next).Some?
    requires LastSeenOf(stale).value < LastSeenOf(next).value
    requires CoordsOf(next).Some? && "name" in next
    ensures var s1 := DeviceStep(t, stale, devId);
      var s2 := DeviceStep(s1.tracker, next, devId);
      s2.outcome == Returned && |s2.tracker.seeCalls| == |s1.tracker.seeCalls| + 1 &&
      s2.tracker.seeCalls[|s1.tracker.seeCalls|].devId == devId
  {
  }

  /**
   * The scanner object: the configured SSIDs and clients, the last-seen
   * cache `_dev_data`, and the record of calls made to `see`.
   */
  class KismetScanner {
    const ssids: seq<string>
    const clients: seq<string>
    var devData: map<string, Entry>
    var seeCalls: seq<SeeCall>
    /** Whether the periodic poll has been registered with `track_time_interval`. */
    var scheduled: bool

    function State(): Tracker
      reads this
    {
      Tracker(devData, seeCalls)
    }

    /** A scanner with an empty cache that has not called `see` yet. */
    constructor (ssids: seq<string>, clients: seq<string>)
      ensures this.ssids == ssids && this.clients == clients
      ensures devData == map[] && seeCalls == [] && !scheduled
    {
      this.ssids := ssids;
      this.clients := clients;
      devData := map[];
      seeCalls := [];
      scheduled := false;
    }

    /**
     * The end of `__init__`: one poll, then the periodic poll is registered.
     * An exception from the first poll escapes `__init__` before the
     * registration, so with any SSID or client configured the scanner never
     * polls again.
     */
    method Start(firstReply: HttpReply) returns (outcome: Outcome)
      requires !scheduled
      modifies this
      ensures Step(State(), outcome) == Poll(old(State()), ssids, clients, firstReply)
      ensures scheduled <==> outcome.Returned?
      ensures |ssids| > 0 || |clients| > 0 ==> !scheduled && State() == old(State())
    {
      outcome := UpdateKismet(firstReply);
      if outcome.Returned? {
        scheduled := true;
      }
    }

    /**
     * `_prev_seen`: returns the timestamp stored for `devId` (None for an
     * unseen device) and stores `lastSeen` in its place when present.
     */
    method PrevSeen(devId: string, lastSeen: Option<int>) returns (prev: Option<int>)
      modifies this`devData
      ensures prev == PrevOf(old(devData), devId)
      ensures devData == Remember(old(devData), devId, lastSeen)
    {
      var entry := if devId in devData then devData[devId] else Entry(None, false);
      prev := entry.lastSeen;
      devData := devData[devId := Entry(if lastSeen.Some? then lastSeen else prev, entry.reported)];
    }

    /**
     * `_update_device`: parse the timestamp, write the cache, and call `see`
     * when the reading is new and its coordinates convert.
     */
    method UpdateDevice(member: map<string, Json>, devId: string) returns (outcome: Outcome)
      modifies this`devData, this`seeCalls
      ensures Step(State(), outcome) == DeviceStep(old(State()), member, devId)
    {
      var prevSeen := PrevSeen(devId, LastSeenOf(member));
      match Decide(member, devId, prevSeen)
      case Called(call) =>
        seeCalls := seeCalls + [call];
        outcome := Returned;
      case Skipped(_) =>
        outcome := Returned;
      case Failed(e) =>
        outcome := Raised(e);
    }

    /**
     * `_update_kismet`: build the payload, then walk the reply, shaping each
     * element and passing it to `UpdateDevice`; `gps` keeps its value from
     * one element to the next.
     */
    method UpdateKismet(reply: HttpReply) returns (outcome: Outcome)
      modifies this`devData, this`seeCalls
      ensures Step(State(), outcome) == Poll(old(State()), ssids, clients, reply)
    {
      if |ssids| > 0 {
        return Raised(KeyError(FieldsKey));
      }
      if |clients| > 0 {
        return Raised(KeyError(FieldsKey));
      }
      var regex := BuildRegex(ssids, clients);
      // serialised and posted with the request, whose result is `reply`
      var payload := Payload(regex, [MacField, NameField]);
      assert Ok(payload) == QueryFor(ssids, clients);
      outcome := Returned;
      match reply
      case ConnectionFailed =>
      case Response(ok, body) =>
        if ok {
          match body
          case None =>
            outcome := Raised(JsonDecodeError);
          case Some(v) =>
            if Truthy(v) {
              if !v.JArr? {
                return Raised(TypeError);
              }
              var items := v.items;
              var gps: Option<Json> := None;
              var i := 0;
              while i < |items|
                invariant 0 <= i <= |items|
                invariant ProcessPairs(State(), items[i..], gps) == ProcessPairs(old(State()), items, None)
              {
                assert items[i..][1..] == items[i + 1..];
                var parsed := ParsePair(items[i], gps);
                if parsed.Err? {
                  return Raised(parsed.error);
                }
                var device := parsed.value.device;
                gps := Some(parsed.value.gps);
                if !device["id"].JStr? {
                  return Raised(TypeError);
                }
                var o := UpdateDevice(device, device["id"].s);
                if o.Raised? {
                  return o;
                }
                i := i + 1;
              }
            }
        }
    }
  }
}
