/**
  The binary-sensor platform: per device, whether a firmware update can be
  installed and whether one is recommended, read from the device's flags.
*/
module BinarySensor {
  import opened Wrappers
  import opened Python
  import opened Entity

  const CanUpdateField := "can_update"
  const ShouldUpdateField := "should_update"

  /** The classes `async_setup_entry` creates for each device, in order. */
  const BinarySensorKinds: seq<Kind> := [CanUpdate, ShouldUpdate]

  /** The `SUFFIX` of each binary sensor, the same text as the flag it reads. */
  function BinarySensorSuffix(kind: Kind): string
    requires kind in BinarySensorKinds
  {
    if kind == CanUpdate then CanUpdateField else ShouldUpdateField
  }

  /**
    `is_on`: `bool(device_data.get(field, False))`, so a missing flag is off
    and any truthy value is on.
  */
  function IsOn(snapshot: Json, id: Json, field: string): (r: Result<bool, PyError>)
    ensures r.Ok? <==> DeviceData(snapshot, id).Ok?
    ensures r.Err? ==> r.error == DeviceData(snapshot, id).error
    ensures r.Ok? ==>
      var flag := Lookup(DeviceData(snapshot, id).value.fields, field);
      r.value <==> flag.Some? && Truthy(flag.value)
  {
    var device :- DeviceData(snapshot, id);
    Ok(Truthy(GetOr(device.fields, field, Bool(false))))
  }

  function CanUpdateIsOn(snapshot: Json, id: Json): Result<bool, PyError> {
    IsOn(snapshot, id, CanUpdateField)
  }

  function ShouldUpdateIsOn(snapshot: Json, id: Json): Result<bool, PyError> {
    IsOn(snapshot, id, ShouldUpdateField)
  }

  /** The two binary sensors of a device have different unique ids. */
  lemma BinarySensorUniqueIdsDistinct(id: Json)
    ensures UniqueId(id, BinarySensorSuffix(CanUpdate)) != UniqueId(id, BinarySensorSuffix(ShouldUpdate))
  {
    UniqueIdSeparatesSuffixes(id, CanUpdateField, ShouldUpdateField);
  }

  /** Reading the flags of a device that reports both: each sensor shows its own flag. */
  lemma BinarySensorsReadFlags(id: Json, canUpdate: bool, shouldUpdate: bool)
    ensures var device := Object([Member("id", id), Member("can_update", Bool(canUpdate)),
                                  Member("should_update", Bool(shouldUpdate))]);
      && CanUpdateIsOn(SnapshotOf([device]), id) == Ok(canUpdate)
      && ShouldUpdateIsOn(SnapshotOf([device]), id) == Ok(shouldUpdate)
  {
    var device := Object([Member("id", id), Member("can_update", Bool(canUpdate)),
                          Member("should_update", Bool(shouldUpdate))]);
    DeviceDataOfSnapshot([device], id);
    assert FindDevice([device], id) == Ok(device);
    assert device.fields[1..] == [device.fields[1], device.fields[2]];
    assert device.fields[1..][1..] == [device.fields[2]];
  }

  /** A device that reports neither flag shows both sensors off. */
  lemma MissingFlagsAreOff(id: Json)
    ensures var device := Object([Member("id", id)]);
      CanUpdateIsOn(SnapshotOf([device]), id) == Ok(false) && ShouldUpdateIsOn(SnapshotOf([device]), id) == Ok(false)
  {
    var device := Object([Member("id", id)]);
    DeviceDataOfSnapshot([device], id);
    assert FindDevice([device], id) == Ok(device);
  }

  /** The `j`-th entity of the `i`-th device's block sits at `2 * i + j`. */
  lemma BinarySensorBlockAt(snapshot: Json, devices: seq<Json>, out: seq<Entity>, i: nat, j: nat)
    requires Tiled(PerDevice(snapshot, devices, BinarySensorKinds), 2, out)
    requires i < |devices| && j < 2
    ensures 2 * i + j < |out|
    ensures Constructed(snapshot, devices[i], BinarySensorKinds).Ok?
    ensures Constructed(snapshot, devices[i], BinarySensorKinds).value[j] == out[2 * i + j]
  {
    TiledAt(PerDevice(snapshot, devices, BinarySensorKinds), 2, out, i, j);
    OffsetIsProduct(i, 2);
  }

  /** `async_setup_entry`: the can-update and should-update sensors of each device, device after device. */
  method SetupBinarySensors(snapshot: Json) returns (r: Result<seq<Entity>, PyError>)
    ensures r == Setup(snapshot, BinarySensorKinds)
    ensures r.Ok? ==>
      var devices := DeviceList(snapshot).value;
      && DeviceList(snapshot).Ok?
      && |r.value| == 2 * |devices|
      && forall i, j :: 0 <= i < |devices| && 0 <= j < 2 ==>
           BuiltFor(snapshot, devices[i], BinarySensorKinds[j], r.value[2 * i + j])
  {
    r := SetupEntities(snapshot, BinarySensorKinds);
    if r.Ok? {
      var devices := DeviceList(snapshot).value;
      OffsetIsProduct(|devices|, 2);
      forall i, j | 0 <= i < |devices| && 0 <= j < 2
        ensures BuiltFor(snapshot, devices[i], BinarySensorKinds[j], r.value[2 * i + j])
      {
        BinarySensorBlockAt(snapshot, devices, r.value, i, j);
        ConstructedBuilt(snapshot, devices[i], BinarySensorKinds, j, r.value[2 * i + j]);
      }
    }
  }
}
