/**
  The device-tracker platform: one `DeviceTracker` per device, reading
  latitude, longitude, accuracy and an address line from the device's
  location object.
*/
module DeviceTracker {
  import opened Wrappers
  import opened Python
  import opened Entity

  const Suffix := "location"

  /** The classes `async_setup_entry` creates for each device. */
  const TrackerKinds: seq<Kind> := [Tracker]

  /** `source_type`: the trackers always report a GPS source. */
  const SourceTypeGps := "gps"

  /** The `i`-th device's tracker sits at position `i`. */
  lemma TrackerBlockAt(snapshot: Json, devices: seq<Json>, out: seq<Entity>, i: nat)
    requires Tiled(PerDevice(snapshot, devices, TrackerKinds), 1, out)
    requires i < |devices|
    ensures i < |out|
    ensures Constructed(snapshot, devices[i], TrackerKinds).Ok?
    ensures Constructed(snapshot, devices[i], TrackerKinds).value[0] == out[i]
  {
    TiledAt(PerDevice(snapshot, devices, TrackerKinds), 1, out, i, 0);
    OffsetIsProduct(i, 1);
  }

  /** `async_setup_entry`: one tracker per device, in snapshot order. */
  method SetupTrackers(snapshot: Json) returns (r: Result<seq<Entity>, PyError>)
    ensures r == Setup(snapshot, TrackerKinds)
    ensures r.Ok? ==>
      var devices := DeviceList(snapshot).value;
      && DeviceList(snapshot).Ok?
      && |r.value| == |devices|
      && forall i :: 0 <= i < |devices| ==> BuiltFor(snapshot, devices[i], Tracker, r.value[i])
  {
    r := SetupEntities(snapshot, TrackerKinds);
    if r.Ok? {
      var devices := DeviceList(snapshot).value;
      OffsetIsProduct(|devices|, 1);
      forall i | 0 <= i < |devices|
        ensures BuiltFor(snapshot, devices[i], Tracker, r.value[i])
      {
        TrackerBlockAt(snapshot, devices, r.value, i);
        ConstructedBuilt(snapshot, devices[i], TrackerKinds, 0, r.value[i]);
      }
    }
  }

  /**
    The `details` object of `location` holds a truthy `key` whose float value
    is `x`, and the location and its details are truthy on the way there.
  */
  ghost predicate DetailFound(location: Json, key: string, x: int) {
    && location.Object? && Truthy(location)
    && var details := Lookup(location.fields, "details");
    && details.Some? && details.value.Object? && Truthy(details.value)
    && var value := Lookup(details.value.fields, key);
    && value.Some? && Truthy(value.value) && ToFloat(value.value) == Ok(x)
  }

  /**
    `get_location_details(key)`: `float(location["details"][key])` when the
    location, its details and the value are all truthy, otherwise None.
  */
  function LocationDetail(snapshot: Json, id: Json, key: string): (r: Result<Option<int>, PyError>)
    ensures GetLocation(snapshot, id).Err? ==> r == Err(GetLocation(snapshot, id).error)
    ensures GetLocation(snapshot, id) == Ok(Null) ==> r == Ok(None)
    ensures r.Ok? && r.value.Some? ==> DetailFound(GetLocation(snapshot, id).value, key, r.value.value)
    ensures forall x :: GetLocation(snapshot, id).Ok? && DetailFound(GetLocation(snapshot, id).value, key, x) ==>
      r == Ok(Some(x))
    ensures r.Err? && GetLocation(snapshot, id).Ok? ==>
      r.error == AttributeError || r.error == TypeError || r.error == ValueError
    ensures GetLocation(snapshot, id).Ok? && Truthy(GetLocation(snapshot, id).value) && !GetLocation(snapshot, id).value.Object? ==>
      r == Err(AttributeError)
    ensures GetLocation(snapshot, id).Ok? && GetLocation(snapshot, id).value.Object? ==>
      var details := Lookup(GetLocation(snapshot, id).value.fields, "details");
      && (details.None? || !Truthy(details.value) ==> r == Ok(None))
      && (details.Some? && Truthy(details.value) && !details.value.Object? ==> r == Err(AttributeError))
      && (details.Some? && Truthy(details.value) && details.value.Object? ==>
            var value := Lookup(details.value.fields, key);
            && (value.None? || !Truthy(value.value) ==> r == Ok(None))
            && (value.Some? && Truthy(value.value) ==> r == (match ToFloat(value.value)
                                                            case Ok(x) => Ok(Some(x))
                                                            case Err(e) => Err(e))))
  {
    var location :- GetLocation(snapshot, id);
    if !Truthy(location) then Ok(None)
    else
      var details :- Get(location, "details", Null);
      if !Truthy(details) then Ok(None)
      else
        var value :- Get(details, key, Null);
        if !Truthy(value) then Ok(None)
        else
          var number :- ToFloat(value);
          Ok(Some(number))
  }

  function Latitude(snapshot: Json, id: Json): Result<Option<int>, PyError> {
    LocationDetail(snapshot, id, "lat")
  }

  function Longitude(snapshot: Json, id: Json): Result<Option<int>, PyError> {
    LocationDetail(snapshot, id, "lon")
  }

  /** `location_accuracy`: ten times the `acc` detail; `None * 10` raises TypeError when it is missing. */
  function LocationAccuracy(snapshot: Json, id: Json): (r: Result<int, PyError>)
    ensures LocationDetail(snapshot, id, "acc") == Ok(None) ==> r == Err(TypeError)
    ensures r.Ok? <==> LocationDetail(snapshot, id, "acc").Ok? && LocationDetail(snapshot, id, "acc").value.Some?
    ensures r.Ok? ==> r.value == 10 * LocationDetail(snapshot, id, "acc").value.value
  {
    var accuracy :- LocationDetail(snapshot, id, "acc");
    if accuracy.None? then Err(TypeError) else Ok(accuracy.value * 10)
  }

  /** The keys `location_name` reads, in the order it joins them. */
  const AddressKeys: seq<string> := ["road", "city", "country"]

  /** `[location.get("road"), location.get("city"), location.get("country")]`. */
  function AddressParts(location: Json): (r: Result<seq<Json>, PyError>)
    ensures r.Ok? <==> location.Object?
    ensures r.Err? ==> r.error == AttributeError
    ensures r.Ok? ==> |r.value| == 3 && forall i :: 0 <= i < 3 ==>
      r.value[i] == (var stored := Lookup(location.fields, AddressKeys[i]); if stored.Some? then stored.value else Null)
  {
    if !location.Object? then Err(AttributeError)
    else Ok([Get(location, "road", Null).value, Get(location, "city", Null).value, Get(location, "country", Null).value])
  }

  /** The `if part` filter of the comprehension: the truthy parts, in order. */
  function TruthyParts(parts: seq<Json>): (r: seq<Json>)
    ensures |r| <= |parts|
    ensures forall i :: 0 <= i < |r| ==> Truthy(r[i]) && r[i] in parts
    ensures r == [] <==> forall i :: 0 <= i < |parts| ==> !Truthy(parts[i])
    ensures forall i :: 0 <= i < |parts| && Truthy(parts[i]) ==> parts[i] in r
  {
    if parts == [] then []
    else
      var rest := TruthyParts(parts[1..]);
      assert forall i :: 1 <= i < |parts| ==> parts[i] == parts[1..][i - 1];
      if Truthy(parts[0]) then [parts[0]] + rest else rest
  }

  /**
    `location_name`: the truthy ones of road, city and country joined with
    ", ", or None when none is truthy. Without a location, `get_location`
    gives None and `None.get` raises; a truthy part that is not a string
    makes the join raise.
  */
  function LocationName(snapshot: Json, id: Json): (r: Result<Option<string>, PyError>)
    ensures GetLocation(snapshot, id).Err? ==> r == Err(GetLocation(snapshot, id).error)
    ensures GetLocation(snapshot, id).Ok? && !GetLocation(snapshot, id).value.Object? ==> r == Err(AttributeError)
    ensures GetLocation(snapshot, id).Ok? && GetLocation(snapshot, id).value.Object? ==>
      var parts := AddressParts(GetLocation(snapshot, id).value).value;
      && (r.Ok? <==> forall i :: 0 <= i < 3 && Truthy(parts[i]) ==> parts[i].Str?)
      && (r.Err? ==> r.error == TypeError)
      && (r == Ok(None) <==> forall i :: 0 <= i < 3 ==> !Truthy(parts[i]))
    ensures r.Ok? && r.value.Some? ==> |r.value.value| > 0
  {
    var location :- GetLocation(snapshot, id);
    var parts :- AddressParts(location);
    AddressLine(parts)
  }

  /** `", ".join(location_parts) if location_parts else None` over the filtered parts. */
  function AddressLine(parts: seq<Json>): (r: Result<Option<string>, PyError>)
    ensures r.Ok? <==> forall i :: 0 <= i < |parts| && Truthy(parts[i]) ==> parts[i].Str?
    ensures r.Err? ==> r.error == TypeError
    ensures r == Ok(None) <==> forall i :: 0 <= i < |parts| ==> !Truthy(parts[i])
    ensures r.Ok? && r.value.Some? ==> |r.value.value| > 0
  {
    var kept := TruthyParts(parts);
    if kept == [] then Ok(None)
    else
      var joined :- Join(", ", kept);
      Ok(Some(joined))
  }

  /** Filtering one more part keeps the earlier ones in order and adds that part iff it is truthy. */
  lemma {:induction false} TruthyPartsSnoc(parts: seq<Json>, last: Json)
    ensures TruthyParts(parts + [last]) == TruthyParts(parts) + (if Truthy(last) then [last] else [])
    decreases |parts|
  {
    var all := parts + [last];
    if parts == [] {
      assert all == [last];
      assert all[1..] == [];
    } else {
      assert all[0] == parts[0];
      assert all[1..] == parts[1..] + [last];
      TruthyPartsSnoc(parts[1..], last);
    }
  }

  // ---------------------------------------------------------------- the address line, spelled out

  /** The text a part contributes: a string's own text, nothing for anything else. */
  function PartText(part: Json): string {
    if part.Str? then part.s else ""
  }

  /** Two address pieces with ", " between them, an empty piece dropping out together with its separator. */
  function Sep(a: string, b: string): string {
    if a == "" then b else if b == "" then a else a + ", " + b
  }

  /** The address line built piece by piece from the left with `Sep`. */
  function JoinedAddress(parts: seq<Json>): string {
    if parts == [] then "" else Sep(JoinedAddress(parts[..|parts| - 1]), PartText(parts[|parts| - 1]))
  }

  /** The filtered, joined parts are the pieces laid together with `Sep`. */
  lemma {:induction false} KeptPartsJoin(parts: seq<Json>)
    requires forall i :: 0 <= i < |parts| && Truthy(parts[i]) ==> parts[i].Str?
    ensures TruthyParts(parts) == [] <==> JoinedAddress(parts) == ""
    ensures TruthyParts(parts) != [] ==> Join(", ", TruthyParts(parts)) == Ok(JoinedAddress(parts))
    decreases |parts|
  {
    if parts != [] {
      var init, last := parts[..|parts| - 1], parts[|parts| - 1];
      assert parts == init + [last];
      assert forall i :: 0 <= i < |init| ==> init[i] == parts[i];
      KeptPartsJoin(init);
      TruthyPartsSnoc(init, last);
      var kept := TruthyParts(init);
      assert JoinedAddress(parts) == Sep(JoinedAddress(init), PartText(last));
      if !Truthy(last) {
        assert PartText(last) == "";
        assert TruthyParts(parts) == kept;
      } else if kept == [] {
        assert TruthyParts(parts) == [last];
      } else {
        assert TruthyParts(parts) == kept + [last];
        JoinSnoc(", ", kept, last.s);
      }
    }
  }

  /** `location_name`'s line for any parts: None when no piece has text, otherwise the pieces joined by `Sep`. */
  lemma AddressLineIsJoinedAddress(parts: seq<Json>)
    requires AddressLine(parts).Ok?
    ensures AddressLine(parts) == if JoinedAddress(parts) == "" then Ok(None) else Ok(Some(JoinedAddress(parts)))
  {
    KeptPartsJoin(parts);
  }

  /** The three pieces laid together with `Sep`. */
  lemma JoinedAddressOfThree(parts: seq<Json>)
    requires |parts| == 3
    ensures JoinedAddress(parts) == Sep(Sep(PartText(parts[0]), PartText(parts[1])), PartText(parts[2]))
  {
    assert JoinedAddress(parts[..1]) == PartText(parts[0]) by {
      assert parts[..1][..0] == [];
    }
    assert JoinedAddress(parts[..2]) == Sep(PartText(parts[0]), PartText(parts[1])) by {
      assert parts[..2][..1] == parts[..1];
    }
  }

  /**
    `location_name` for any device with a dict location, whenever it does not
    raise: the texts of road, city and country (absent or non-string ones
    count as empty) joined by `Sep`, or None when all three are empty.
  */
  lemma LocationNameSpelledOut(snapshot: Json, id: Json)
    requires GetLocation(snapshot, id).Ok? && GetLocation(snapshot, id).value.Object?
    requires LocationName(snapshot, id).Ok?
    ensures var fields := GetLocation(snapshot, id).value.fields;
      var line := Sep(Sep(PartText(GetOr(fields, "road", Null)), PartText(GetOr(fields, "city", Null))),
                      PartText(GetOr(fields, "country", Null)));
      LocationName(snapshot, id) == if line == "" then Ok(None) else Ok(Some(line))
  {
    var location := GetLocation(snapshot, id).value;
    var parts := AddressParts(location).value;
    assert parts == [GetOr(location.fields, "road", Null), GetOr(location.fields, "city", Null), GetOr(location.fields, "country", Null)];
    assert LocationName(snapshot, id) == AddressLine(parts);
    AddressLineIsJoinedAddress(parts);
    JoinedAddressOfThree(parts);
  }

  /** Road, city and country strings: every combination of empty and non-empty pieces. */
  lemma AddressLineOfStrings(road: string, city: string, country: string)
    ensures AddressLine([Str(road), Str(city), Str(country)]) ==
      if road == city == country == "" then Ok(None) else Ok(Some(Sep(Sep(road, city), country)))
  {
    var parts := [Str(road), Str(city), Str(country)];
    JoinedAddressOfThree(parts);
    AddressLineIsJoinedAddress(parts);
  }

  // ---------------------------------------------------------------- reading a known device back

  /** A location object with the given address strings and numeric details. */
  function TrackedLocation(road: string, city: string, country: string, lat: int, lon: int, acc: int): Json {
    Object([Member("road", Str(road)), Member("city", Str(city)), Member("country", Str(country)),
            Member("details", TrackedDetails(lat, lon, acc))])
  }

  function TrackedDetails(lat: int, lon: int, acc: int): Json {
    Object([Member("lat", Num(lat)), Member("lon", Num(lon)), Member("acc", Num(acc))])
  }

  /** The four lookups `location_name` and `get_location_details` make in such a location. */
  lemma TrackedLocationFields(road: string, city: string, country: string, lat: int, lon: int, acc: int)
    ensures var fields := TrackedLocation(road, city, country, lat, lon, acc).fields;
      && Lookup(fields, "road") == Some(Str(road))
      && Lookup(fields, "city") == Some(Str(city))
      && Lookup(fields, "country") == Some(Str(country))
      && Lookup(fields, "details") == Some(TrackedDetails(lat, lon, acc))
  {
    var fields := TrackedLocation(road, city, country, lat, lon, acc).fields;
    assert fields[1..] == [fields[1], fields[2], fields[3]];
    assert fields[1..][1..] == [fields[2], fields[3]];
    assert fields[1..][1..][1..] == [fields[3]];
  }

  lemma TrackedDetailsFields(lat: int, lon: int, acc: int)
    ensures var fields := TrackedDetails(lat, lon, acc).fields;
      && Lookup(fields, "lat") == Some(Num(lat))
      && Lookup(fields, "lon") == Some(Num(lon))
      && Lookup(fields, "acc") == Some(Num(acc))
  {
    var fields := TrackedDetails(lat, lon, acc).fields;
    assert fields[1..] == [fields[1], fields[2]];
    assert fields[1..][1..] == [fields[2]];
  }

  /** A device with that location. */
  function TrackedDevice(id: Json, location: Json): Json {
    Object([Member("id", id), Member("location", location)])
  }

  /** The entity of a one-device snapshot finds that device's location. */
  lemma LocationOfTrackedDevice(id: Json, road: string, city: string, country: string, lat: int, lon: int, acc: int)
    ensures var location := TrackedLocation(road, city, country, lat, lon, acc);
      GetLocation(SnapshotOf([TrackedDevice(id, location)]), id) == Ok(location)
  {
    var location := TrackedLocation(road, city, country, lat, lon, acc);
    var device := TrackedDevice(id, location);
    DeviceDataOfSnapshot([device], id);
    assert IdOf(device) == Ok(id);
    assert FindDevice([device], id) == Ok(device);
    assert Lookup(device.fields, "location") == Some(location);
  }

  /** A numeric detail reads back as itself, or as None when it is 0. */
  lemma ReadsNumericDetail(snapshot: Json, id: Json, key: string, location: Json, details: Json, v: int)
    requires GetLocation(snapshot, id) == Ok(location) && location.Object? && Truthy(location)
    requires Lookup(location.fields, "details") == Some(details) && details.Object? && Truthy(details)
    requires Lookup(details.fields, key) == Some(Num(v))
    ensures LocationDetail(snapshot, id, key) == Ok(if v != 0 then Some(v) else None)
  {
  }

  /**
    The tracker reports the coordinates stored in the snapshot, except that a
    coordinate of 0 is falsy and reads as None; the accuracy is scaled by 10,
    and an accuracy of 0 makes the property raise.
  */
  lemma TrackerReadsPosition(id: Json, lat: int, lon: int, acc: int)
    ensures var snapshot := SnapshotOf([TrackedDevice(id, TrackedLocation("Vesterbrogade", "Copenhagen", "Denmark", lat, lon, acc))]);
      && Latitude(snapshot, id) == Ok(if lat != 0 then Some(lat) else None)
      && Longitude(snapshot, id) == Ok(if lon != 0 then Some(lon) else None)
      && LocationAccuracy(snapshot, id) == if acc != 0 then Ok(10 * acc) else Err(TypeError)
  {
    var location := TrackedLocation("Vesterbrogade", "Copenhagen", "Denmark", lat, lon, acc);
    var snapshot := SnapshotOf([TrackedDevice(id, location)]);
    var details := TrackedDetails(lat, lon, acc);
    LocationOfTrackedDevice(id, "Vesterbrogade", "Copenhagen", "Denmark", lat, lon, acc);
    TrackedLocationFields("Vesterbrogade", "Copenhagen", "Denmark", lat, lon, acc);
    TrackedDetailsFields(lat, lon, acc);
    ReadsNumericDetail(snapshot, id, "lat", location, details, lat);
    ReadsNumericDetail(snapshot, id, "lon", location, details, lon);
    ReadsNumericDetail(snapshot, id, "acc", location, details, acc);
  }

  /** All three parts present: they are joined in road, city, country order. */
  lemma AddressLineOfThree(road: string, city: string, country: string)
    requires road != "" && city != "" && country != ""
    ensures AddressLine([Str(road), Str(city), Str(country)]) == Ok(Some(road + ", " + city + ", " + country))
  {
    var parts := [Str(road), Str(city), Str(country)];
    assert parts[1..] == [Str(city), Str(country)];
    assert parts[1..][1..] == [Str(country)];
    assert parts[1..][1..][1..] == [];
    assert TruthyParts([Str(country)]) == [Str(country)];
    assert TruthyParts([Str(city), Str(country)]) == [Str(city), Str(country)];
    assert TruthyParts(parts) == parts;
    assert Join(", ", parts[1..]) == Ok(city + ", " + country);
    assert road + ", " + (city + ", " + country) == road + ", " + city + ", " + country;
  }

  /** An empty part is skipped together with its separator. */
  lemma AddressLineSkipsEmptyCity(road: string, country: string)
    requires road != "" && country != ""
    ensures AddressLine([Str(road), Str(""), Str(country)]) == Ok(Some(road + ", " + country))
  {
    var parts := [Str(road), Str(""), Str(country)];
    assert parts[1..] == [Str(""), Str(country)];
    assert parts[1..][1..] == [Str(country)];
    assert parts[1..][1..][1..] == [];
    assert TruthyParts([Str(country)]) == [Str(country)];
    assert TruthyParts([Str(""), Str(country)]) == [Str(country)];
    var kept := [Str(road), Str(country)];
    assert TruthyParts(parts) == kept;
    assert kept[1..] == [Str(country)];
  }

  /** The address line of a location whose road, city and country are strings. */
  lemma ReadsAddress(snapshot: Json, id: Json, location: Json, road: string, city: string, country: string)
    requires GetLocation(snapshot, id) == Ok(location) && location.Object?
    requires Lookup(location.fields, "road") == Some(Str(road))
    requires Lookup(location.fields, "city") == Some(Str(city))
    requires Lookup(location.fields, "country") == Some(Str(country))
    ensures LocationName(snapshot, id) == AddressLine([Str(road), Str(city), Str(country)])
  {
    assert AddressParts(location) == Ok([Str(road), Str(city), Str(country)]);
  }

  /** The tracker's address line is built from the road, city and country stored in the snapshot. */
  lemma TrackerReadsAddress(id: Json, road: string, city: string, country: string)
    ensures var snapshot := SnapshotOf([TrackedDevice(id, TrackedLocation(road, city, country, 1, 1, 1))]);
      LocationName(snapshot, id) ==
        if road == city == country == "" then Ok(None) else Ok(Some(Sep(Sep(road, city), country)))
  {
    AddressLineOfStrings(road, city, country);
    var location := TrackedLocation(road, city, country, 1, 1, 1);
    LocationOfTrackedDevice(id, road, city, country, 1, 1, 1);
    TrackedLocationFields(road, city, country, 1, 1, 1);
    ReadsAddress(SnapshotOf([TrackedDevice(id, location)]), id, location, road, city, country);
  }
}
