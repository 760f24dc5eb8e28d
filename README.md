# Copenhagen Trackers — a Dafny model

This project models the core of the `copenhagen_trackers` Home Assistant
integration. The integration polls the Copenhagen Trackers cloud API for the
user's GPS trackers and shows each tracker in Home Assistant as entities:

- a device tracker (position, accuracy and an address line);
- six sensors (location text, geolocation, last update, battery, signal,
  profile name);
- two binary sensors (`can_update`, `should_update`);
- a momentary "force refresh" switch.

The model has these parts:

- **API client** (`api.dfy`, module `Api`). `TrackersApi` holds the
  credentials and a cached bearer token. It logs in only when the token is
  falsy. When the devices call is rejected with 401 or 403, it logs in again
  once and retries the GET once. The HTTP server is an oracle: the
  `Session` class answers each request with the next reply of a fixed
  sequence and records what it was sent. Each method is proved equal to a
  pure run function (`EnsureTokenRun`, `TryFetchRun`, `GetDevicesRun`), and
  the retry properties are lemmas about those functions.
- **Coordinator** (`coordinator.dfy`). One refresh wraps any exception of
  the fetch in `UpdateFailed`. Only a successful refresh records the sync
  time. The clock is a parameter.
- **Entity base** (`entity.dfy`). This covers:
  - the device lookup `device_data`, modelled as `next(...)` over the
    snapshot's `data` list, with `StopIteration` when no device matches;
  - the device-registry information built in the constructor, including
    `DEVICE_TYPE_MAP` with Python's `1 == True` key equality;
  - `get_location` and the default `unique_id`;
  - the generic platform setup loop. The first exception a constructor
    raises ends setup.
- **Platforms** (`device_tracker.dfy`, `sensor.dfy`, `binary_sensor.dfy`,
  `switch.dfy`, `platforms.dfy`). Each platform has its property readers,
  ids and names, and its `async_setup_entry`. A cross-platform lemma shows
  that the ten entities of one device have ten different unique ids.
- **Python semantics** (`python.dfy`, `wrappers.dfy`). The decoded JSON
  snapshot is a `Json` datatype. Python exceptions are `PyError` values in a
  `Result`. The Python operations the source relies on are written out:
  truthiness, `d[k]`, `d.get(k, default)`, `str()`, `float()`,
  `", ".join`, hashability.

## Model

| member | source | states |
|---|---|---|
| Python.Subscript | custom_components/copenhagen_trackers/entity.py:50 | `d[key]` succeeds iff `d` is a dict holding the key and returns the first such value; otherwise KeyError, or TypeError on a non-dict |
| Python.Get | custom_components/copenhagen_trackers/entity.py:63 | `d.get(key, default)` succeeds iff `d` is a dict, giving the stored value or the default; a non-dict raises AttributeError |
| Python.Join | custom_components/copenhagen_trackers/device_tracker.py:81 | `", ".join(parts)` succeeds iff every part is a string, otherwise TypeError; one part joins to itself |
| Python.JoinSnoc | custom_components/copenhagen_trackers/device_tracker.py:81 | joining one more string part appends the separator and that part, which fixes the text of every join of two or more parts |
| Python.ToFloat | custom_components/copenhagen_trackers/device_tracker.py:54 | `float(x)` keeps a number, raises TypeError for None, lists and dicts, and only TypeError or ValueError otherwise |
| Python.FloatOfDisplayedNumber | custom_components/copenhagen_trackers/device_tracker.py:54 | a coordinate sent as its decimal text reads back through `float` unchanged |
| Python.ParseNatRoundTrip | custom_components/copenhagen_trackers/device_tracker.py:54 | parsing the decimal text of a natural number gives the number back |
| Api.Fetch | custom_components/copenhagen_trackers/api.py:47-50 | the devices request goes to `<endpoint>/devices` with `Authorization: Bearer <token>` |
| Api.DevicesOutcome | custom_components/copenhagen_trackers/api.py:51-52 | a GET yields the decoded body iff a response with status below 400 came back; status 400 or more raises HttpError with that status |
| Api.LoginOutcome | custom_components/copenhagen_trackers/api.py:33-35 | a login yields a token iff the status is below 400 and the body has `access_token`, and the token is that value |
| Api.TrackersApi.constructor | custom_components/copenhagen_trackers/api.py:14-25 | keeps session and credentials; a missing access token is held as None |
| Api.TrackersApi.AcquireToken | custom_components/copenhagen_trackers/api.py:27-35 | posts exactly one login with the stored email and password and returns the login outcome of the next reply |
| Api.TrackersApi.EnsureToken | custom_components/copenhagen_trackers/api.py:37-40 | new token, result and requests sent are those of `EnsureTokenRun`; exactly the replies consumed are dropped |
| Api.TrackersApi.TryFetch | custom_components/copenhagen_trackers/api.py:46-63 | the `try` block behaves as `TryFetchRun`: token, result and requests sent |
| Api.TrackersApi.GetDevices | custom_components/copenhagen_trackers/api.py:42-63 | `async_get_devices` behaves as `GetDevicesRun`: token, result and requests sent |
| Api.EnsureTokenLogsInOnlyWhenFalsy | custom_components/copenhagen_trackers/api.py:37-40 | a truthy token sends nothing and is kept; a falsy one sends exactly one login and stores its token; a failed login keeps the old token and raises |
| Api.HeldTokenSingleGet | custom_components/copenhagen_trackers/api.py:44-52 | with a held token and a successful reply, one GET with that bearer token and no login is sent, and the body is returned |
| Api.RejectedTokenRetriedOnce | custom_components/copenhagen_trackers/api.py:53-62 | a 401/403 leads to exactly GET, login, GET with the renewed token, which is stored; the result is the second GET's outcome |
| Api.FailedReloginPropagates | custom_components/copenhagen_trackers/api.py:53-56 | when the re-login after a 401/403 fails, its error is raised, the old token is kept and no second GET is sent |
| Api.OtherFailureNotRetried | custom_components/copenhagen_trackers/api.py:53-63 | any other failure of the GET is re-raised after a single request, without a login |
| Api.TryFetchRetriesOnlyRejection | custom_components/copenhagen_trackers/api.py:46-63 | for any token: after a 401/403 and a successful login the renewed token is stored and one more GET carries it; a failed login is raised with the token kept; any other failure is raised after a single GET |
| Api.FreshTokenRejectedRetriedOnce | custom_components/copenhagen_trackers/api.py:37-62 | starting without a token, a GET rejected right after the first login leads to exactly login, GET, login, GET with the newer token, which is stored; the last GET decides the outcome |
| Api.InitialLoginFailureNotRetried | custom_components/copenhagen_trackers/api.py:37-44 | a failing first login raises before any GET is sent |
| Api.TryFetchSendsAtMostTwoGets | custom_components/copenhagen_trackers/api.py:46-63 | the `try` block sends one or two GETs and at most one login; a second GET or a login happens iff the first reply was 401/403 |
| Api.RetryIsBounded | custom_components/copenhagen_trackers/api.py:42-63 | a whole call sends at most two logins, two GETs, four requests; a second GET only after a 401/403; no login when a held token is accepted |
| Api.TwoFetchesOneLogin | custom_components/copenhagen_trackers/api.py:37-52 | two consecutive calls starting without a token log in once, reuse the cached token, and return both bodies |
| Coordinator.WrapFetch | custom_components/copenhagen_trackers/coordinator.py:42-43 | a successful fetch passes through; any exception becomes UpdateFailed of that exception |
| Coordinator.DataUpdateCoordinator.constructor | custom_components/copenhagen_trackers/coordinator.py:18-34 | keeps the API client; no sync time and no refresh requested yet |
| Coordinator.DataUpdateCoordinator.UpdateDataAsWritten | custom_components/copenhagen_trackers/coordinator.py:36-43 | as written, every refresh raises UpdateFailed(AttributeError) |
| Coordinator.DataUpdateCoordinator.UpdateData | custom_components/copenhagen_trackers/coordinator.py:36-48 | corrected refresh: the result is the client call's outcome wrapped by `WrapFetch`; `last_sync_time` becomes `now` only on success; the client state follows `GetDevicesRun` |
| Coordinator.DataUpdateCoordinator.RequestRefresh | custom_components/copenhagen_trackers/switch.py:44 | one more refresh is requested of the coordinator |
| Coordinator.CorrectedRefreshSucceeds | custom_components/copenhagen_trackers/coordinator.py:38-41 | with a held token and an answering server, the corrected refresh returns the server's document after a single GET |
| Entity.FindDevice | custom_components/copenhagen_trackers/entity.py:77-83 | `next(...)` returns the first device whose `id` equals the entity's id; StopIteration iff none matches; a lookup error on an earlier device is raised |
| Entity.DeviceDataOfSnapshot | custom_components/copenhagen_trackers/entity.py:77-83 | in a snapshot `{"data": devices}` the device list is `devices` and `device_data` is the first match |
| Entity.ModelName | custom_components/copenhagen_trackers/entity.py:50-51 | the model lookup raises TypeError exactly for an unhashable device type |
| Entity.ModelNames | custom_components/copenhagen_trackers/entity.py:20-23 | type 1 is "Cobblestone", 2 is "Gemstone" (and `True` hits key 1); any other type gives "Unknown model (<type>)" |
| Entity.NewDeviceInfo | custom_components/copenhagen_trackers/entity.py:50-58 | the device info is built from the entity's device; a failed device lookup propagates |
| Entity.DeviceInfoOf | custom_components/copenhagen_trackers/entity.py:50-58 | succeeds iff `name`, a hashable `device_type` and `firmware_version` are present and the id is hashable; then identifiers `{(DOMAIN, id)}`, name `<name> Tracker`, the mapped model and the firmware version; errors are only the missing keys or TypeError |
| Entity.GetLocation | custom_components/copenhagen_trackers/entity.py:60-65 | the stored location when it is truthy, else None; device lookup errors propagate |
| Entity.NameWithLabel | custom_components/copenhagen_trackers/sensor.py:46-49 | names are `<device name> <caption>`, and exist iff the device and its `name` do |
| Entity.NameWithLabelSeparates | custom_components/copenhagen_trackers/sensor.py:46-49 | two different captions give one device two different names |
| Entity.UniqueIdSeparatesSuffixes | custom_components/copenhagen_trackers/entity.py:72-75 | the base unique ids of one device differ when the suffixes do |
| Entity.Constructed | custom_components/copenhagen_trackers/entity.py:36-58 | one loop iteration builds one entity per class, all for `device["id"]` with the same device info, or raises |
| Entity.PerDevice | custom_components/copenhagen_trackers/sensor.py:24-32 | one iteration per device, in snapshot order |
| Entity.ConcatStopsAtFirstError | custom_components/copenhagen_trackers/sensor.py:24-32 | once an iteration raises, later devices change nothing: the setup raises that error |
| Entity.ConcatSucceeds | custom_components/copenhagen_trackers/sensor.py:24-32 | setup succeeds iff every device's iteration succeeds |
| Entity.ConcatTiles | custom_components/copenhagen_trackers/sensor.py:24-32 | the added list is the devices' blocks laid end to end, block `i` at offset `i * width` |
| Entity.SetupEntities | custom_components/copenhagen_trackers/binary_sensor.py:26-37 | the list added equals the setup function and is tiled by the per-device blocks |
| Entity.WellFormedDeviceInfo | custom_components/copenhagen_trackers/entity.py:50-58 | a device holding id, name, type and firmware, with hashable id and type, gets the device info built from those values |
| Entity.WellFormedSnapshotSetsUp | custom_components/copenhagen_trackers/sensor.py:19-34 | on a snapshot of one such device, every platform's setup succeeds with one entity per class, in order, all for that device with that device info |
| DeviceTracker.SetupTrackers | custom_components/copenhagen_trackers/device_tracker.py:25-33 | one tracker per device, the `i`-th built for the `i`-th device |
| DeviceTracker.LocationDetail | custom_components/copenhagen_trackers/device_tracker.py:49-55 | `float` of the detail when location, `details` and value are all truthy; None at the first falsy or absent step; AttributeError for a truthy non-dict location or `details`; the `float` error otherwise; lookup errors propagate |
| DeviceTracker.LocationAccuracy | custom_components/copenhagen_trackers/device_tracker.py:67-70 | ten times the `acc` detail; TypeError when that detail is None |
| DeviceTracker.AddressParts | custom_components/copenhagen_trackers/device_tracker.py:75-78 | exactly the values stored under road, city and country, in that order, None for an absent key; AttributeError for a non-dict location (None included) |
| DeviceTracker.TruthyParts | custom_components/copenhagen_trackers/device_tracker.py:76-80 | keeps only truthy parts and every truthy part; empty iff no part is truthy |
| DeviceTracker.TruthyPartsSnoc | custom_components/copenhagen_trackers/device_tracker.py:76-80 | filtering one more part keeps the earlier kept parts in order and appends that part iff it is truthy |
| DeviceTracker.AddressLine | custom_components/copenhagen_trackers/device_tracker.py:76-81 | joins the truthy parts; None iff none is truthy; TypeError iff a truthy part is not a string; a joined line is non-empty |
| DeviceTracker.LocationName | custom_components/copenhagen_trackers/device_tracker.py:72-81 | the address line of the location; AttributeError when there is no location; None iff road, city and country are all falsy |
| DeviceTracker.KeptPartsJoin | custom_components/copenhagen_trackers/device_tracker.py:76-81 | the kept parts, joined with ", ", equal the independent piece-by-piece `Sep` joining of all parts, and none are kept iff that text is empty |
| DeviceTracker.AddressLineIsJoinedAddress | custom_components/copenhagen_trackers/device_tracker.py:76-81 | for any parts that do not make the join raise, the line is the `Sep` joining of their texts, or None when it is empty |
| DeviceTracker.AddressLineOfStrings | custom_components/copenhagen_trackers/device_tracker.py:76-81 | for all road, city and country strings: None when all are empty, otherwise `Sep(Sep(road, city), country)`, so empty pieces drop out with their separators |
| DeviceTracker.LocationNameSpelledOut | custom_components/copenhagen_trackers/device_tracker.py:72-81 | for any dict location on which `location_name` does not raise: the road, city and country texts joined by `Sep` (absent or non-string ones empty), or None when all are empty |
| DeviceTracker.LocationOfTrackedDevice | custom_components/copenhagen_trackers/entity.py:60-65 | in a one-device snapshot the entity finds that device's location |
| DeviceTracker.ReadsNumericDetail | custom_components/copenhagen_trackers/device_tracker.py:49-55 | a numeric detail reads back as itself, and as None when it is 0 |
| DeviceTracker.TrackerReadsPosition | custom_components/copenhagen_trackers/device_tracker.py:57-70 | latitude and longitude read back from the snapshot, or None when 0; accuracy is ten times `acc`, and raises when `acc` is 0 |
| DeviceTracker.AddressLineOfThree | custom_components/copenhagen_trackers/device_tracker.py:76-81 | three non-empty parts give `road, city, country` |
| DeviceTracker.AddressLineSkipsEmptyCity | custom_components/copenhagen_trackers/device_tracker.py:76-81 | an empty city is dropped with its separator |
| DeviceTracker.ReadsAddress | custom_components/copenhagen_trackers/device_tracker.py:72-81 | a location with string parts gives their address line |
| DeviceTracker.TrackerReadsAddress | custom_components/copenhagen_trackers/device_tracker.py:72-81 | the tracker of a one-device snapshot shows `Sep(Sep(road, city), country)` of the stored strings, or None when all are empty |
| Sensor.SensorUniqueIdsDistinct | custom_components/copenhagen_trackers/sensor.py:41-158 | the six sensors of one device have six different unique ids |
| Sensor.SensorCaptionsDistinct | custom_components/copenhagen_trackers/sensor.py:46-163 | the six sensor captions are pairwise different |
| Sensor.SensorNamesDistinct | custom_components/copenhagen_trackers/sensor.py:46-163 | the six sensors of one device have six different names, and all exist when one does |
| Sensor.LocationText | custom_components/copenhagen_trackers/sensor.py:54-57 | a text iff the road is truthy, starting with `<road>, `; AttributeError for a non-dict location |
| Sensor.LocationValue | custom_components/copenhagen_trackers/sensor.py:51-57 | a device without a location shows None; otherwise the location's text |
| Sensor.LocationTextOfStrings | custom_components/copenhagen_trackers/sensor.py:54-56 | string road, city and country show as `road, city, country` |
| Sensor.SensorReadsLocation | custom_components/copenhagen_trackers/sensor.py:51-57 | the location sensor shows the snapshot's address with every separator kept, an empty city included |
| Sensor.GeoText | custom_components/copenhagen_trackers/sensor.py:77-80 | a text iff the details hold a truthy `lat`, starting with `<lat>,`; missing details show None; AttributeError for a non-dict location or non-dict `details` |
| Sensor.GeoLocationValue | custom_components/copenhagen_trackers/sensor.py:74-80 | a device without a location shows None; otherwise the location's geolocation text |
| Sensor.GeoTextOfNumbers | custom_components/copenhagen_trackers/sensor.py:77-79 | numeric details show as `<lat>,<lon>`, or None when `lat` is 0 |
| Sensor.SensorReadsGeoLocation | custom_components/copenhagen_trackers/sensor.py:74-80 | the geolocation sensor shows the snapshot's coordinates |
| Sensor.LocationTextOfAddress | custom_components/copenhagen_trackers/sensor.py:54-57 | a location with a road and optional city and country shows `<road>, <city>, <country>` with '' for an absent part, and None for an empty road |
| Sensor.GeoTextOfCoordinates | custom_components/copenhagen_trackers/sensor.py:77-80 | details with a latitude and an optional longitude show `<lat>,<lon>` with '' for an absent longitude, and None for a zero latitude |
| Sensor.FieldValue | custom_components/copenhagen_trackers/sensor.py:98-148 | the updated-at, battery and signal sensors show the stored field or None |
| Sensor.Profile | custom_components/copenhagen_trackers/sensor.py:168-175 | the profile guard holds the stored profile iff it is truthy |
| Sensor.ProfileNameValue | custom_components/copenhagen_trackers/sensor.py:165-170 | the profile's `name` or None; None without a profile; AttributeError for a profile that is not a dict |
| Sensor.ProfileAttributes | custom_components/copenhagen_trackers/sensor.py:172-180 | exactly `description` and `updated_at` of the profile, None-defaulted; None without a profile |
| Sensor.SetupSensors | custom_components/copenhagen_trackers/sensor.py:19-34 | six sensors per device in class order, entity `6*i + j` built for device `i` with class `j` |
| BinarySensor.IsOn | custom_components/copenhagen_trackers/binary_sensor.py:48-65 | on iff the flag is present and truthy; device lookup errors propagate |
| BinarySensor.BinarySensorUniqueIdsDistinct | custom_components/copenhagen_trackers/binary_sensor.py:21-22 | the two binary sensors of a device have different unique ids |
| BinarySensor.BinarySensorsReadFlags | custom_components/copenhagen_trackers/binary_sensor.py:48-65 | the binary sensors show the device's boolean flags |
| BinarySensor.MissingFlagsAreOff | custom_components/copenhagen_trackers/binary_sensor.py:48-65 | missing flags read as off |
| BinarySensor.SetupBinarySensors | custom_components/copenhagen_trackers/binary_sensor.py:26-37 | two binary sensors per device, entity `2*i + j` built for device `i` with class `j` |
| Switch.ForceRefreshUniqueIdIsBaseShape | custom_components/copenhagen_trackers/switch.py:25-28 | the switch's id is the base shape with suffix `force_refresh` |
| Switch.ForceRefreshSwitch.constructor | custom_components/copenhagen_trackers/entity.py:36-43 | keeps the coordinator and the device id |
| Switch.ForceRefreshSwitch.IsOn | custom_components/copenhagen_trackers/switch.py:35-39 | the switch is always off |
| Switch.ForceRefreshSwitch.TurnOn | custom_components/copenhagen_trackers/switch.py:41-45 | turning on requests exactly one refresh, and the switch still reads off |
| Switch.ForceRefreshSwitch.TurnOff | custom_components/copenhagen_trackers/switch.py:47-50 | turning off requests nothing |
| Switch.SetupSwitches | custom_components/copenhagen_trackers/switch.py:9-17 | one switch per device, the `i`-th built for the `i`-th device |
| Platforms.BaseShaped | custom_components/copenhagen_trackers/entity.py:72-75 | tracker, binary sensors and switch all have ids `cphtrackers_<id>_<suffix>` |
| Platforms.UniqueIdsDistinct | custom_components/copenhagen_trackers/entity.py:72-75 | the ten entities of one device have pairwise different unique ids |

## Left out

- HTTP transport, JSON decoding, `async`/`await` and logging. The server is
  the reply oracle of `Api.Session`. A reply that never arrives is a
  `ConnectionFailure`.
- `raise_for_status` is modelled as aiohttp defines it: status 400 or more
  raises, so a 3xx reply that reaches the client is read as success.
- The Home Assistant base classes are not part of this model. This covers
  `DataUpdateCoordinator` scheduling, storing `data`, debouncing and
  listeners. `async_request_refresh` is counted in
  `DataUpdateCoordinator.refreshRequests`. Entity readers take the
  coordinator's snapshot as a parameter.
- `generate_entity_id` (entity.py:45-48) is left out. It needs the
  running Home Assistant instance. `manufacturer: BRAND` is also left out,
  because `BRAND` is not defined anywhere in the integration.
- Translations, icons, device and state classes, and entity categories are
  left out. The tracker and the binary sensors take their names from
  translation files, which are not part of this model.
- Numbers are integers. `float()` accepts numbers, booleans and
  decimal-integer strings. Fractions, exponents, `inf` and `nan` are not
  modelled.
- `repr()` quotes strings without escaping. `str()` of a float is not
  modelled.
- Python's `1 == True` equality is modelled only for the model-map lookup
  (`Entity.HashKey`). The `id` comparison in `device_data` uses structural
  equality.
- A JSON object keeps its members in order, and a lookup finds the first
  member with the key. Python's `json.loads` keeps the last value of a
  repeated key, so the two differ only on documents that repeat a key.
- `config_flow.py` and `__init__.py` (entry setup, forwarding to platforms,
  reauthentication) are not part of this model.
- Import-time defects are not modelled. Each one stops a module from
  loading:
  - `const.py` defines neither `BRAND`, `ATTR_DATA` nor `ATTR_ID`, which
    `entity.py`, `device_tracker.py` and `binary_sensor.py` import, and
    `__init__.py:18` imports `BRAND` as well;
  - `sensor.py` and `switch.py` import `CopenhagenTrackersEntity` from the
    package root, which does not export it.
  The model assumes that these imports resolve, with `ATTR_DATA = "data"`
  and `ATTR_ID = "id"`.
- Entity.Constructed: the sensor and switch classes define no `SUFFIX`.
  The abstract property then returns None, and the string concatenation
  at entity.py:46 would raise TypeError in their constructors. The model
  builds them as if the id generation succeeded.
- Sensor.LocationValue: a device whose `location` is stored as null raises
  AttributeError (null has no `get`). The model states this through
  `LocationText`; it is not listed as a finding.
- DeviceTracker.LocationName: a device without a location raises
  AttributeError instead of returning None, as the code is written.
- DeviceTracker.LocationAccuracy: raises TypeError when the accuracy detail
  is missing or 0 (`None * 10`), as the code is written.

## Findings

| source | as written | input that shows it | evidently intended | confidence | as-written member | corrected member |
|---|---|---|---|---|---|---|
| custom_components/copenhagen_trackers/coordinator.py:39 | `_async_update_data` calls `self.api.async_get_devices_with_auth()`, which `CopenhagenTrackersAPI` does not define. The `AttributeError` is caught, and every refresh fails with `UpdateFailed` | any refresh, whatever the server answers (e.g. a held token and a 200 reply) | call `async_get_devices()`, return its document and record the sync time | not executed | `Coordinator.DataUpdateCoordinator.UpdateDataAsWritten` | `Coordinator.DataUpdateCoordinator.UpdateData`, `Coordinator.CorrectedRefreshSucceeds` |
