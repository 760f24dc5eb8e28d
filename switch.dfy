/**
  The switch platform: one momentary "force refresh" switch per device.
  Turning it on asks the coordinator for a refresh; it always reads as off.
*/
module Switch {
  import opened Wrappers
  import opened Python
  import opened Entity
  import opened Coordinator

  /** The classes `async_setup_entry` creates for each device. */
  const SwitchKinds: seq<Kind> := [ForceRefresh]

  /** `unique_id`: `cphtrackers_<device id>_force_refresh`. */
  function ForceRefreshUniqueId(id: Json): string {
    "cphtrackers_" + Display(id) + "_force_refresh"
  }

  /** `name`: `<device name> tracker force refresh`. */
  function ForceRefreshName(snapshot: Json, id: Json): Result<string, PyError> {
    NameWithLabel(snapshot, id, "tracker force refresh")
  }

  /** The switch's own id has the shape of the base entity's, with `force_refresh` as the suffix. */
  lemma ForceRefreshUniqueIdIsBaseShape(id: Json)
    ensures ForceRefreshUniqueId(id) == UniqueId(id, "force_refresh")
  {
    assert Prefix + "_" == "cphtrackers_";
  }

  /** `ForceRefreshSwitch`. */
  class ForceRefreshSwitch {
    const coordinator: DataUpdateCoordinator
    const deviceId: Json

    constructor (coordinator: DataUpdateCoordinator, deviceId: Json)
      ensures this.coordinator == coordinator && this.deviceId == deviceId
    {
      this.coordinator := coordinator;
      this.deviceId := deviceId;
    }

    /** `is_on`: a momentary switch, always off. */
    function IsOn(): (on: bool)
      ensures !on
    {
      false
    }

    /** `async_turn_on`: requests exactly one refresh and touches nothing else; the switch stays off. */
    method TurnOn()
      modifies coordinator`refreshRequests
      ensures coordinator.refreshRequests == old(coordinator.refreshRequests) + 1
      ensures !IsOn()
    {
      coordinator.RequestRefresh();
    }

    /** `async_turn_off`: does nothing. */
    method TurnOff()
      ensures coordinator.refreshRequests == old(coordinator.refreshRequests)
      ensures !IsOn()
    {
    }
  }

  /** The `i`-th device's switch sits at position `i`. */
  lemma SwitchBlockAt(snapshot: Json, devices: seq<Json>, out: seq<Entity>, i: nat)
    requires Tiled(PerDevice(snapshot, devices, SwitchKinds), 1, out)
    requires i < |devices|
    ensures i < |out|
    ensures Constructed(snapshot, devices[i], SwitchKinds).Ok?
    ensures Constructed(snapshot, devices[i], SwitchKinds).value[0] == out[i]
  {
    TiledAt(PerDevice(snapshot, devices, SwitchKinds), 1, out, i, 0);
    OffsetIsProduct(i, 1);
  }

  /** `async_setup_entry`: one force-refresh switch per device, in snapshot order. */
  method SetupSwitches(snapshot: Json) returns (r: Result<seq<Entity>, PyError>)
    ensures r == Setup(snapshot, SwitchKinds)
    ensures r.Ok? ==>
      var devices := DeviceList(snapshot).value;
      && DeviceList(snapshot).Ok?
      && |r.value| == |devices|
      && forall i :: 0 <= i < |devices| ==> BuiltFor(snapshot, devices[i], ForceRefresh, r.value[i])
  {
    r := SetupEntities(snapshot, SwitchKinds);
    if r.Ok? {
      var devices := DeviceList(snapshot).value;
      OffsetIsProduct(|devices|, 1);
      forall i | 0 <= i < |devices|
        ensures BuiltFor(snapshot, devices[i], ForceRefresh, r.value[i])
      {
        SwitchBlockAt(snapshot, devices, r.value, i);
        ConstructedBuilt(snapshot, devices[i], SwitchKinds, 0, r.value[i]);
      }
    }
  }
}
