# Kismet device tracker — a Dafny model

This project models the core of a Home Assistant device tracker that polls a
Kismet wireless-sniffing server. On each poll it builds a query payload of
regex matchers from the configured SSIDs and client MAC addresses, posts it,
turns each element of the JSON reply into a device record with an optional
GPS location, and hands each record to a per-device staleness filter. The
filter keeps a last-seen cache (`_dev_data`) and calls the host's `see`
callback only for a reading that has a location, a parseable timestamp later
than the stored one, and coordinates that convert to numbers.

Modules:

- `Wrappers` (wrappers.dfy): `Option` and `Result`.
- `PyJson` (pyjson.dfy): JSON values as Python holds them, with the Python
  operations the code applies to them. These are truth testing, `== 0` and
  `== 1`, `dict.get`, `float()`, `in`, and scaling by `.000001`.
- `Timestamps` (timestamps.dfy): `_utc_from_ts`. An instant is an integer
  number of microseconds, rounded half to even as `datetime.fromtimestamp` does.
- `KismetQuery` (query.dfy): the payload built at the start of a poll.
- `KismetReply` (reply.dfy): the HTTP outcome and the shaping of one reply element.
- `DeviceTracker` (tracker.dfy): the scanner class `KismetScanner`.
  Its fields are the cache and the record of `see` calls. Its methods are
  `PrevSeen`, `UpdateDevice` and `UpdateKismet`. Each method is proved against
  a specification function (`Remember`, `DeviceStep`, `Poll`), and the lemmas
  are stated about those functions.

Python exceptions that escape a call are modelled as an `Outcome` of
`Raised(error)`. Exceptions the code catches become ordinary results: a
failed `float()` gives `None`, and a `.get` on a non-dictionary location gives
no timestamp. The `see` callback is modelled as the sequence of calls made to
it. The HTTP request is a parameter (`HttpReply`): a
`requests.exceptions.ConnectionError` (which the code catches, and which
includes a refused connection and a connect timeout), or a response with its
`ok` flag and its body decoded as JSON (or not JSON).

Behaviour of the code that the model keeps as written:

- The comment at device_tracker.py:109 says the device is updated only when
  there truly is an update. But `_prev_seen` has already written the cache by
  then (device_tracker.py:92, 102), and it writes any present timestamp, even
  an older one. A stale reading therefore rewinds the cache, and a later
  reading can be reported although it is older than one reported before
  (`StaleReadingRewindsCache`).
- `_update_kismet` appends to `parameters["fields"]` (device_tracker.py:170,
  173) before that key is assigned at device_tracker.py:183. So any configured
  SSID or client raises KeyError before a request is made (`QueryFor`,
  `Poll`). The first poll runs inside `__init__` (device_tracker.py:84), so the
  exception escapes the constructor before the periodic poll is registered
  (`KismetScanner.Start`). The regex loops are modelled on their own
  (`BuildRegex`).
- The reply loop fills only `latitude` and `longitude` of a device's location
  (device_tracker.py:216-217) and never a `ts` key, while `_update_device`
  rejects a reading without a parseable `ts` (device_tracker.py:109-111). So
  no device from a reply is ever reported (`PollNeverReports`).
- In the advertised-SSID branch, the value tested against 0 as a flag
  (device_tracker.py:211) becomes `gps` itself (device_tracker.py:212), unlike
  the probed branch, which reads a separate `gps` key. When that value is a
  nonzero number, the `in` test raises TypeError (`AdvertisedFlagRaises`). When neither
  flag is set, `gps` keeps the previous element's value, or is unbound on the
  first element (`ParsePair`).

The `reported` flag of a cache entry is never set to true anywhere in the code.
The model keeps it as the code stores it.

## Model

| member | source | states |
|---|---|---|
| `PyJson.ToFloat` | device_tracker.py:116-122 | `float()` succeeds exactly on numbers and booleans, and returns a number unchanged |
| `PyJson.TimesMicro` | device_tracker.py:216-217 | `v * .000001` succeeds exactly on numbers and booleans, and raises TypeError otherwise; the result times 10^6 is the value's float |
| `Timestamps.RoundHalfEven` | device_tracker.py:44-48 | the result is within one half of the input, and is even when exactly one half away |
| `Timestamps.UtcFromTs` | device_tracker.py:44-48 | a timestamp exists exactly when `float()` succeeds, and it is that many seconds to the nearest microsecond |
| `Timestamps.RoundHalfEvenMonotone` | device_tracker.py:44-48 | rounding to microseconds never reverses the order of two readings |
| `Timestamps.UtcFromTsMonotone` | device_tracker.py:44-48 | a reading that is not later as a float is not later as an instant, so the staleness test cannot be inverted by parsing |
| `Timestamps.SubMicrosecondLaterReadingCoincides` | device_tracker.py:44-48 | a reading on a whole microsecond `k` parses to `k`, and so does any reading less than half a microsecond later, which is therefore not newer |
| `KismetQuery.Upper` | device_tracker.py:181 | same length, no lower-case letter left, other characters unchanged, letters shifted to capitals |
| `KismetQuery.UpperIdempotent` | device_tracker.py:181 | upper-casing a MAC twice gives the same as once |
| `KismetQuery.NameMatchers` | device_tracker.py:175-177 | one `[name field, ssid]` matcher per SSID, in configuration order |
| `KismetQuery.MacMatchers` | device_tracker.py:179-181 | one `[macaddr field, upper(client)]` matcher per client, in configuration order |
| `KismetQuery.BuildRegex` | device_tracker.py:175-181 | the loops produce all SSID matchers, then all client matchers, each in configuration order, and nothing else |
| `KismetQuery.QueryFor` | device_tracker.py:166-183 | payload building raises KeyError on `fields` exactly when an SSID or a client is configured; otherwise the regex list is empty and `fields` is (macaddr, name) |
| `KismetReply.Scaled` | device_tracker.py:216-217 | a missing coordinate raises KeyError; a number is scaled by 10^-6 |
| `KismetReply.LocationFrom` | device_tracker.py:214-217 | empty for a falsy `gps`; a truthy list or string raises TypeError exactly when it contains the `loc_valid` key, and is otherwise empty; a dictionary gives an empty location unless `loc_valid == 1`, and then a missing `avg_lat` raises KeyError on it and a non-numeric one TypeError, then the same for `avg_lon`; with both numeric the location is exactly latitude `avg_lat` times 10^-6 and longitude `avg_lon` times 10^-6; never a timestamp; a truthy number or boolean `gps` raises TypeError |
| `KismetReply.ParsePair` | device_tracker.py:201-217 | a device's `name` and `id` are both the MAC; the probed location is preferred over the advertised one, otherwise `gps` carries over; errors for a non-dictionary element, a missing MAC, a missing probed location and an unbound `gps`; once `gps` is chosen the element succeeds exactly when its location does, and otherwise fails with the location's error |
| `KismetReply.AdvertisedFlagRaises` | device_tracker.py:211-214 | when the advertised branch is taken with a nonzero numeric flag, the element raises TypeError |
| `KismetReply.ProbedLocationScaled` | device_tracker.py:209-217 | an element whose probed flag is present and not 0, and whose probed `gps` is flagged valid with numeric `avg_lat` and `avg_lon`, gives exactly the device with the MAC as name and id and those coordinates times 10^-6, whatever `gps` held before |
| `DeviceTracker.Remember` | device_tracker.py:89-94 | the entry holds the new timestamp if present, even when it is older, else the old one; the reported flag is kept (false when new); no other key changes |
| `DeviceTracker.Decide` | device_tracker.py:104-157 | no call when the location is missing or empty, when the timestamp is missing or not strictly newer, or when the coordinates do not convert; otherwise one call, or KeyError when `name` is missing; the call has the device id, `(lat, lon)`, no zone name, `fix` as the accuracy, battery 100, the id as MAC, the member's name, empty attributes and no picture |
| `DeviceTracker.DeviceStep` | device_tracker.py:96-157 | the cache is written before and whatever the decision; the `see` record gains exactly `Decide`'s call when `Decide` accepts and is unchanged otherwise; the step raises exactly when `Decide` fails |
| `DeviceTracker.ProcessPairs` | device_tracker.py:201-220 | the reply loop only appends `see` calls, at most one per element, and never removes a cache key; every key it adds is the MAC of one of the elements; a loop that returns has cached the MAC of every element; a first element that cannot be shaped ends the loop with its error and nothing changed |
| `DeviceTracker.Poll` | device_tracker.py:159-229 | a configured SSID or client makes the poll raise KeyError with nothing changed; otherwise a connection error, a non-ok response or a falsy body return with nothing changed, a body that is not JSON raises the decode error, a truthy non-list body raises TypeError, and a list goes to the reply loop with `gps` unbound |
| `DeviceTracker.ProcessPairsStopsAtFirstError` | device_tracker.py:201-220 | over a list `a + b`, an exception raised within `a` is the loop's outcome and `b` is not looked at; otherwise `b` is processed from the state and `gps` value that `a` left |
| `DeviceTracker.ParsedDeviceIsSkipped` | device_tracker.py:203-219 | a device shaped from the reply has no timestamp, so `_update_device` only writes its cache entry and never calls `see` |
| `DeviceTracker.ReplyNeverReports` | device_tracker.py:201-220 | the reply loop never calls `see`, keeps every existing cache entry unchanged, and adds only entries with no timestamp that are not reported |
| `DeviceTracker.PollNeverReports` | device_tracker.py:159-229 | as written, a whole poll cycle never calls `see` and never changes a stored timestamp |
| `DeviceTracker.StaleReadingRewindsCache` | device_tracker.py:89-111 | readings at 10 s, 5 s and 7 s: the 5 s reading rewinds the cache and the 7 s reading is reported after the 10 s one |
| `DeviceTracker.NewerThanLastSeenIsReported` | device_tracker.py:89-111 | a reading with coordinates and a name is reported whenever it is newer than the reading just before it, whatever was reported earlier |
| `DeviceTracker.KismetScanner.constructor` | device_tracker.py:53-68 | a new scanner keeps its SSIDs and clients, with an empty cache and no `see` calls |
| `DeviceTracker.KismetScanner.Start` | device_tracker.py:84-87 | the first poll is `Poll` on the new state; the periodic poll is registered exactly when it returns, so never with a configured SSID or client |
| `DeviceTracker.KismetScanner.PrevSeen` | device_tracker.py:89-94 | returns the stored timestamp (none for an unseen device) and leaves the cache as `Remember` says |
| `DeviceTracker.KismetScanner.UpdateDevice` | device_tracker.py:96-157 | changes only the cache and the `see` record, to those of `DeviceStep` on the old state, with its outcome |
| `DeviceTracker.KismetScanner.UpdateKismet` | device_tracker.py:159-229 | changes only the cache and the `see` record, to those of `Poll` on the old state and the reply, with its outcome; the payload it builds is `QueryFor`'s; `gps` carries across loop iterations |

## Left out

- The HTTP request itself is a parameter (`HttpReply`). This covers the URL with the interval's seconds, basic auth and headers.
- `json.dumps` of the payload is not modelled. Library serialisation.
- Request failures that are not a `requests.exceptions.ConnectionError`, such as `TooManyRedirects` or `ChunkedEncodingError`, escape the poll uncaught. They are not modelled.
- All logging is left out. It is output only.
- The timer behind `track_time_interval` is left out. `Start` records only whether it was registered; each later poll is a call of `UpdateKismet`.
- `setup_scanner`, `__init__.py` and the configuration lookups in `KismetScanner.__init__` are left out. The SSIDs and clients are constructor parameters. Those lookups use names that device_tracker.py does not import.
- DeviceTracker.KismetScanner.constructor: as written, `setup_scanner` raises NameError on `DOMAIN` (device_tracker.py:37), and `__init__` would raise it on `CONF_KISMET_SERVER` (device_tracker.py:62). So no scanner is ever built and no poll ever runs. The constructor models device_tracker.py:59-68 as if those lookups succeeded.
- DeviceTracker.KismetScanner.Start: models device_tracker.py:84-87 under the same assumption that the configuration lookups in `__init__` succeeded. As written, line 84 is never reached.
- The server, port, user, password, interval, `_errs`, `_apis` and `_started` fields are left out. Nothing modelled reads them.
- `run_callback_threadsafe` and `async_active_zone` are left out. Their result is unused, since the zone name passed to `see` stays none.
- The `last_results` list is left out. It is built and then discarded.
- Floating point: coordinates and scaled values are exact reals, and `.000001` is exactly 10^-6.
- PyJson.ToFloat: text is never converted, whereas Python's `float()` also accepts numeric text such as "1.5". The only caller, the reply loop, passes numbers or nothing.
- Timestamps.UtcFromTs: timestamps outside the range of `datetime` are not modelled. Python rejects these, and some of those errors are not caught.
- KismetQuery.Upper: only ASCII letters are upper-cased. Python's `str.upper` also maps other Unicode letters.
- DeviceTracker.ProcessPairs: a reply element whose MAC is not a string is modelled as raising TypeError. Python raises only when that value is unhashable or the location is empty. Otherwise it uses the value as a cache key.
