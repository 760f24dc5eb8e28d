/**
  The sensor platform: six sensors per device. Each has its own unique id
  and name, and reads its state straight from the device's entry in the
  snapshot.
*/
module Sensor {
  import opened Wrappers
  import opened Python
  import opened Entity
  import DeviceTracker

  /** The classes `async_setup_entry` creates for each device, in order. */
  const SensorKinds: seq<Kind> :=
    [LocationSensor, GeoLocationSensor, UpdatedAtSensor, BatterySensor, SignalSensor, ProfileNameSensor]

  /** The suffix each sensor's `unique_id` puts after the device id. */
  function SensorSuffix(kind: Kind): string
    requires kind in SensorKinds
  {
    match kind
    case LocationSensor => "location"
    case GeoLocationSensor => "geolocation"
    case UpdatedAtSensor => "updated_at"
    case BatterySensor => "battery_percentage"
    case SignalSensor => "signal_strength"
    case ProfileNameSensor => "profile_name"
  }

  /** The words each sensor's `name` puts after the device name. */
  function SensorCaption(kind: Kind): string
    requires kind in SensorKinds
  {
    match kind
    case LocationSensor => "location"
    case GeoLocationSensor => "geolocation"
    case UpdatedAtSensor => "updated at"
    case BatterySensor => "battery percentage"
    case SignalSensor => "signal strength"
    case ProfileNameSensor => "profile name"
  }

  /** `unique_id` of a sensor: `<device id>_<suffix>`, without the integration's prefix. */
  function SensorUniqueId(kind: Kind, id: Json): string
    requires kind in SensorKinds
  {
    Display(id) + "_" + SensorSuffix(kind)
  }

  /** `name` of a sensor: `<device name> <caption>`. */
  function SensorName(kind: Kind, snapshot: Json, id: Json): Result<string, PyError>
    requires kind in SensorKinds
  {
    NameWithLabel(snapshot, id, SensorCaption(kind))
  }

  /** The six sensors of one device have six different unique ids. */
  lemma SensorUniqueIdsDistinct(k1: Kind, k2: Kind, id: Json)
    requires k1 in SensorKinds && k2 in SensorKinds && k1 != k2
    ensures SensorUniqueId(k1, id) != SensorUniqueId(k2, id)
  {
    var head := Display(id) + "_";
    var s1, s2 := SensorSuffix(k1), SensorSuffix(k2);
    assert s1 != s2;
    assert SensorUniqueId(k1, id) == head + s1 && SensorUniqueId(k2, id) == head + s2;
    assert (head + s1)[|head|..] == s1;
    assert (head + s2)[|head|..] == s2;
  }

  lemma SensorCaptionsDistinct(k1: Kind, k2: Kind)
    requires k1 in SensorKinds && k2 in SensorKinds && k1 != k2
    ensures SensorCaption(k1) != SensorCaption(k2)
  {
  }

  /** The six sensors of one device have six different names. */
  lemma SensorNamesDistinct(k1: Kind, k2: Kind, snapshot: Json, id: Json)
    requires k1 in SensorKinds && k2 in SensorKinds && k1 != k2
    requires SensorName(k1, snapshot, id).Ok?
    ensures SensorName(k2, snapshot, id).Ok?
    ensures SensorName(k1, snapshot, id).value != SensorName(k2, snapshot, id).value
  {
    SensorCaptionsDistinct(k1, k2);
    NameWithLabelSeparates(snapshot, id, SensorCaption(k1), SensorCaption(k2));
  }

  /**
    The text of the location sensor for a location value: with a truthy
    road, `<road>, <city>, <country>` with '' for a missing city or country;
    otherwise None. Anything but a dict has no `get`.
  */
  function LocationText(location: Json): (r: Result<Option<string>, PyError>)
    ensures r.Ok? <==> location.Object?
    ensures r.Err? ==> r.error == AttributeError
    ensures r.Ok? ==>
      var road := Lookup(location.fields, "road");
      (r.value.Some? <==> road.Some? && Truthy(road.value))
    ensures r.Ok? && r.value.Some? ==>
      var road := Display(Lookup(location.fields, "road").value);
      |road| + 2 <= |r.value.value| && r.value.value[..|road| + 2] == road + ", "
  {
    if !location.Object? then Err(AttributeError)
    else
      var road := GetOr(location.fields, "road", Null);
      if !Truthy(road) then Ok(None)
      else
        var city := GetOr(location.fields, "city", Str(""));
        var country := GetOr(location.fields, "country", Str(""));
        var text := Display(road) + ", " + Display(city) + ", " + Display(country);
        assert text[..|Display(road)| + 2] == Display(road) + ", ";
        Ok(Some(text))
  }

  /**
    `LocationSensor.native_value`: the location text of the device's
    location. A device without a location reads as `{}`, so as None; a
    location stored as null is what `get` returns, and null has no `get`.
  */
  function LocationValue(snapshot: Json, id: Json): (r: Result<Option<string>, PyError>)
    ensures DeviceData(snapshot, id).Err? ==> r == Err(DeviceData(snapshot, id).error)
    ensures DeviceData(snapshot, id).Ok? ==>
      var location := Lookup(DeviceData(snapshot, id).value.fields, "location");
      && (location.None? ==> r == Ok(None))
      && (location.Some? ==> r == LocationText(location.value))
  {
    var device :- DeviceData(snapshot, id);
    LocationText(GetOr(device.fields, "location", Object([])))
  }

  /**
    The text of the geolocation sensor for a location value: with a truthy
    `lat` in its details, `<lat>,<lon>` with '' for a missing longitude;
    otherwise None. Missing details read as `{}`.
  */
  function GeoText(location: Json): (r: Result<Option<string>, PyError>)
    ensures !location.Object? ==> r == Err(AttributeError)
    ensures location.Object? && Lookup(location.fields, "details").None? ==> r == Ok(None)
    ensures location.Object? && Lookup(location.fields, "details").Some? && !Lookup(location.fields, "details").value.Object? ==>
      r == Err(AttributeError)
    ensures r.Err? ==> r.error == AttributeError
    ensures location.Object? ==>
      var details := Lookup(location.fields, "details");
      var lat := if details.Some? && details.value.Object? then Lookup(details.value.fields, "lat") else None;
      && (r.Ok? && r.value.Some? <==> lat.Some? && Truthy(lat.value))
      && (r.Ok? && r.value.Some? ==>
            |Display(lat.value)| + 1 <= |r.value.value| && r.value.value[..|Display(lat.value)| + 1] == Display(lat.value) + ",")
  {
    if !location.Object? then Err(AttributeError)
    else
      var details := GetOr(location.fields, "details", Object([]));
      if !details.Object? then Err(AttributeError)
      else
        var lat := GetOr(details.fields, "lat", Null);
        if !Truthy(lat) then Ok(None)
        else
          var text := Display(lat) + "," + Display(GetOr(details.fields, "lon", Str("")));
          assert text[..|Display(lat)| + 1] == Display(lat) + ",";
          Ok(Some(text))
  }

  /** `GeoLocationSensor.native_value`: the geolocation text of the device's location. */
  function GeoLocationValue(snapshot: Json, id: Json): (r: Result<Option<string>, PyError>)
    ensures DeviceData(snapshot, id).Err? ==> r == Err(DeviceData(snapshot, id).error)
    ensures DeviceData(snapshot, id).Ok? ==>
      var location := Lookup(DeviceData(snapshot, id).value.fields, "location");
      && (location.None? ==> r == Ok(None))
      && (location.Some? ==> r == GeoText(location.value))
  {
    var device :- DeviceData(snapshot, id);
    GeoText(GetOr(device.fields, "location", Object([])))
  }

  /** The device that a one-device snapshot of `TrackedDevice` finds. */
  lemma DeviceDataOfTracked(id: Json, location: Json)
    ensures DeviceData(SnapshotOf([DeviceTracker.TrackedDevice(id, location)]), id) == Ok(DeviceTracker.TrackedDevice(id, location))
    ensures Lookup(DeviceTracker.TrackedDevice(id, location).fields, "location") == Some(location)
  {
    var device := DeviceTracker.TrackedDevice(id, location);
    DeviceDataOfSnapshot([device], id);
    assert IdOf(device) == Ok(id);
    assert FindDevice([device], id) == Ok(device);
  }

  /** A location whose road, city and country are strings shows them joined, the road being non-empty. */
  lemma LocationTextOfStrings(location: Json, road: string, city: string, country: string)
    requires location.Object? && road != ""
    requires Lookup(location.fields, "road") == Some(Str(road))
    requires Lookup(location.fields, "city") == Some(Str(city))
    requires Lookup(location.fields, "country") == Some(Str(country))
    ensures LocationText(location) == Ok(Some(road + ", " + city + ", " + country))
  {
    assert GetOr(location.fields, "road", Null) == Str(road);
    assert GetOr(location.fields, "city", Str("")) == Str(city);
    assert GetOr(location.fields, "country", Str("")) == Str(country);
  }

  /**
    Unlike the tracker's address line, the location sensor keeps every
    separator: an empty city still shows as `, , `.
  */
  lemma SensorReadsLocation(id: Json, road: string, city: string, country: string, lat: int, lon: int, acc: int)
    requires road != ""
    ensures var snapshot := SnapshotOf([DeviceTracker.TrackedDevice(id, DeviceTracker.TrackedLocation(road, city, country, lat, lon, acc))]);
      LocationValue(snapshot, id) == Ok(Some(road + ", " + city + ", " + country))
  {
    var location := DeviceTracker.TrackedLocation(road, city, country, lat, lon, acc);
    var snapshot := SnapshotOf([DeviceTracker.TrackedDevice(id, location)]);
    DeviceDataOfTracked(id, location);
    assert LocationValue(snapshot, id) == LocationText(location);
    DeviceTracker.TrackedLocationFields(road, city, country, lat, lon, acc);
    LocationTextOfStrings(location, road, city, country);
  }

  /** A location whose details hold numbers shows `<lat>,<lon>` for a non-zero latitude and None for a zero one. */
  lemma GeoTextOfNumbers(location: Json, details: Json, lat: int, lon: int)
    requires location.Object? && details.Object?
    requires Lookup(location.fields, "details") == Some(details)
    requires Lookup(details.fields, "lat") == Some(Num(lat))
    requires Lookup(details.fields, "lon") == Some(Num(lon))
    ensures GeoText(location) == Ok(if lat != 0 then Some(Repr(Num(lat)) + "," + Repr(Num(lon))) else None)
  {
    assert GetOr(location.fields, "details", Object([])) == details;
    assert GetOr(details.fields, "lat", Null) == Num(lat);
    assert GetOr(details.fields, "lon", Str("")) == Num(lon);
  }

  /** The geolocation sensor shows the coordinates stored in the snapshot. */
  lemma SensorReadsGeoLocation(id: Json, road: string, city: string, country: string, lat: int, lon: int, acc: int)
    ensures var snapshot := SnapshotOf([DeviceTracker.TrackedDevice(id, DeviceTracker.TrackedLocation(road, city, country, lat, lon, acc))]);
      GeoLocationValue(snapshot, id) == Ok(if lat != 0 then Some(Repr(Num(lat)) + "," + Repr(Num(lon))) else None)
  {
    var location := DeviceTracker.TrackedLocation(road, city, country, lat, lon, acc);
    var snapshot := SnapshotOf([DeviceTracker.TrackedDevice(id, location)]);
    DeviceDataOfTracked(id, location);
    assert GeoLocationValue(snapshot, id) == GeoText(location);
    DeviceTracker.TrackedLocationFields(road, city, country, lat, lon, acc);
    DeviceTracker.TrackedDetailsFields(lat, lon, acc);
    GeoTextOfNumbers(location, DeviceTracker.TrackedDetails(lat, lon, acc), lat, lon);
  }

  // ---------------------------------------------------------------- texts of locations with absent parts

  /** A member that is there only when the value is. */
  function OptionalMember(key: string, value: Option<Json>): seq<Member> {
    if value.Some? then [Member(key, value.value)] else []
  }

  function OrEmpty(value: Option<string>): string {
    if value.Some? then value.value else ""
  }

  /** A location with a road, and a city and a country that may be absent. */
  function AddressObject(road: string, city: Option<string>, country: Option<string>): Json {
    Object([Member("road", Str(road))]
           + OptionalMember("city", if city.Some? then Some(Str(city.value)) else None)
           + OptionalMember("country", if country.Some? then Some(Str(country.value)) else None))
  }

  lemma AddressObjectFields(road: string, city: Option<string>, country: Option<string>)
    ensures var fields := AddressObject(road, city, country).fields;
      && Lookup(fields, "road") == Some(Str(road))
      && Lookup(fields, "city") == (if city.Some? then Some(Str(city.value)) else None)
      && Lookup(fields, "country") == (if country.Some? then Some(Str(country.value)) else None)
  {
    var head := [Member("road", Str(road))];
    var c := OptionalMember("city", if city.Some? then Some(Str(city.value)) else None);
    var k := OptionalMember("country", if country.Some? then Some(Str(country.value)) else None);
    assert AddressObject(road, city, country).fields == head + (c + k);
    LookupAppend(head, c + k, "city");
    LookupAppend(head, c + k, "country");
    LookupAppend(c, k, "city");
    LookupAppend(c, k, "country");
  }

  /**
    The location sensor's text: `<road>, <city>, <country>` with '' for an
    absent city or country, and None for an empty road.
  */
  lemma LocationTextOfAddress(road: string, city: Option<string>, country: Option<string>)
    ensures LocationText(AddressObject(road, city, country)) ==
      if road == "" then Ok(None) else Ok(Some(road + ", " + OrEmpty(city) + ", " + OrEmpty(country)))
  {
    var location := AddressObject(road, city, country);
    AddressObjectFields(road, city, country);
    assert GetOr(location.fields, "road", Null) == Str(road);
    assert Display(GetOr(location.fields, "city", Str(""))) == OrEmpty(city);
    assert Display(GetOr(location.fields, "country", Str(""))) == OrEmpty(country);
  }

  /** Details with a latitude and a longitude that may be absent. */
  function CoordinatesObject(lat: int, lon: Option<int>): Json {
    Object([Member("lat", Num(lat))] + OptionalMember("lon", if lon.Some? then Some(Num(lon.value)) else None))
  }

  /**
    The geolocation sensor's text: `<lat>,<lon>` with '' for an absent
    longitude, and None for a zero latitude.
  */
  lemma GeoTextOfCoordinates(lat: int, lon: Option<int>)
    ensures GeoText(Object([Member("details", CoordinatesObject(lat, lon))])) ==
      if lat == 0 then Ok(None) else Ok(Some(Repr(Num(lat)) + "," + (if lon.Some? then Repr(Num(lon.value)) else "")))
  {
    var details := CoordinatesObject(lat, lon);
    var rest := OptionalMember("lon", if lon.Some? then Some(Num(lon.value)) else None);
    LookupAppend([Member("lat", Num(lat))], rest, "lon");
    assert GetOr(details.fields, "lat", Null) == Num(lat);
    assert Display(GetOr(details.fields, "lon", Str(""))) == if lon.Some? then Repr(Num(lon.value)) else "";
  }

  /**
    `native_value` of the updated-at, battery and signal sensors:
    `device_data.get(field)`, the stored value or None.
  */
  function FieldValue(snapshot: Json, id: Json, field: string): (r: Result<Json, PyError>)
    ensures r.Ok? <==> DeviceData(snapshot, id).Ok?
    ensures r.Err? ==> r.error == DeviceData(snapshot, id).error
    ensures r.Ok? ==>
      var found := Lookup(DeviceData(snapshot, id).value.fields, field);
      r.value == if found.Some? then found.value else Null
  {
    var device :- DeviceData(snapshot, id);
    Ok(GetOr(device.fields, field, Null))
  }

  function UpdatedAtValue(snapshot: Json, id: Json): Result<Json, PyError> {
    FieldValue(snapshot, id, "updated_at")
  }

  function BatteryValue(snapshot: Json, id: Json): Result<Json, PyError> {
    FieldValue(snapshot, id, "battery_percentage")
  }

  function SignalValue(snapshot: Json, id: Json): Result<Json, PyError> {
    FieldValue(snapshot, id, "signal")
  }

  /** The device's profile when it is truthy, the guard both profile properties share. */
  function Profile(snapshot: Json, id: Json): (r: Result<Option<Json>, PyError>)
    ensures r.Ok? <==> DeviceData(snapshot, id).Ok?
    ensures r.Err? ==> r.error == DeviceData(snapshot, id).error
    ensures r.Ok? ==>
      var found := Lookup(DeviceData(snapshot, id).value.fields, "profile");
      (r.value.Some? <==> found.Some? && Truthy(found.value)) && (r.value.Some? ==> r.value.value == found.value)
  {
    var device :- DeviceData(snapshot, id);
    var profile := GetOr(device.fields, "profile", Null);
    Ok(if Truthy(profile) then Some(profile) else None)
  }

  /** `ProfileNameSensor.native_value`: the profile's `name`, or None without a profile. */
  function ProfileNameValue(snapshot: Json, id: Json): (r: Result<Json, PyError>)
    ensures Profile(snapshot, id).Err? ==> r == Err(Profile(snapshot, id).error)
    ensures Profile(snapshot, id) == Ok(None) ==> r == Ok(Null)
    ensures Profile(snapshot, id).Ok? && Profile(snapshot, id).value.Some? ==>
      var profile := Profile(snapshot, id).value.value;
      && (r.Ok? <==> profile.Object?)
      && (r.Err? ==> r.error == AttributeError)
      && (profile.Object? && Lookup(profile.fields, "name").Some? ==> r == Ok(Lookup(profile.fields, "name").value))
      && (profile.Object? && Lookup(profile.fields, "name").None? ==> r == Ok(Null))
  {
    var profile :- Profile(snapshot, id);
    if profile.None? then Ok(Null) else Get(profile.value, "name", Null)
  }

  /**
    `ProfileNameSensor.extra_state_attributes`: the profile's description
    and update time under `description` and `updated_at`, or None.
  */
  function ProfileAttributes(snapshot: Json, id: Json): (r: Result<Json, PyError>)
    ensures Profile(snapshot, id).Err? ==> r == Err(Profile(snapshot, id).error)
    ensures Profile(snapshot, id) == Ok(None) ==> r == Ok(Null)
    ensures Profile(snapshot, id).Ok? && Profile(snapshot, id).value.Some? ==>
      var profile := Profile(snapshot, id).value.value;
      && (r.Ok? <==> profile.Object?)
      && (r.Err? ==> r.error == AttributeError)
      && (r.Ok? ==>
            && r.value.Object?
            && Lookup(r.value.fields, "description") == Some(GetOr(profile.fields, "description", Null))
            && Lookup(r.value.fields, "updated_at") == Some(GetOr(profile.fields, "updated_at", Null))
            && |r.value.fields| == 2)
  {
    var profile :- Profile(snapshot, id);
    if profile.None? then Ok(Null)
    else if !profile.value.Object? then Err(AttributeError)
    else
      var fields := profile.value.fields;
      Ok(Object([Member("description", GetOr(fields, "description", Null)),
                 Member("updated_at", GetOr(fields, "updated_at", Null))]))
  }

  /** The `j`-th entity of the `i`-th device's block sits at `6 * i + j`. */
  lemma SensorBlockAt(snapshot: Json, devices: seq<Json>, out: seq<Entity>, i: nat, j: nat)
    requires Tiled(PerDevice(snapshot, devices, SensorKinds), 6, out)
    requires i < |devices| && j < 6
    ensures 6 * i + j < |out|
    ensures Constructed(snapshot, devices[i], SensorKinds).Ok?
    ensures Constructed(snapshot, devices[i], SensorKinds).value[j] == out[6 * i + j]
  {
    TiledAt(PerDevice(snapshot, devices, SensorKinds), 6, out, i, j);
    OffsetIsProduct(i, 6);
  }

  /** Where a successful setup puts the `j`-th sensor of the `i`-th device. */
  lemma SensorAt(snapshot: Json, devices: seq<Json>, out: seq<Entity>, i: nat, j: nat)
    requires Tiled(PerDevice(snapshot, devices, SensorKinds), 6, out)
    requires i < |devices| && j < 6
    ensures 6 * i + j < |out|
    ensures BuiltFor(snapshot, devices[i], SensorKinds[j], out[6 * i + j])
  {
    SensorBlockAt(snapshot, devices, out, i, j);
    ConstructedBuilt(snapshot, devices[i], SensorKinds, j, out[6 * i + j]);
  }

  /** `async_setup_entry`: the six sensors of each device, device after device. */
  method SetupSensors(snapshot: Json) returns (r: Result<seq<Entity>, PyError>)
    ensures r == Setup(snapshot, SensorKinds)
    ensures r.Ok? ==>
      var devices := DeviceList(snapshot).value;
      && DeviceList(snapshot).Ok?
      && |r.value| == 6 * |devices|
      && forall i, j :: 0 <= i < |devices| && 0 <= j < 6 ==>
           BuiltFor(snapshot, devices[i], SensorKinds[j], r.value[6 * i + j])
  {
    r := SetupEntities(snapshot, SensorKinds);
    if r.Ok? {
      var devices := DeviceList(snapshot).value;
      OffsetIsProduct(|devices|, 6);
      forall i, j | 0 <= i < |devices| && 0 <= j < 6
        ensures BuiltFor(snapshot, devices[i], SensorKinds[j], r.value[6 * i + j])
      {
        SensorAt(snapshot, devices, r.value, i, j);
      }
    }
  }
}
