/**
  `CopenhagenTrackersEntity`, the base of every entity: finding the entity's
  device in the coordinator's snapshot, the device-registry information
  built at construction, the location object, the default unique id, and
  the per-device entity lists the platform setups build.

  Every reader takes the snapshot it reads (the coordinator's `data`) as a
  parameter, since the entity reads it afresh on every property access.
*/
module Entity {
  import opened Wrappers
  import opened Python

  const Domain := "copenhagen_trackers"
  const Prefix := "cphtrackers"

  /** `DEVICE_TYPE_MAP`. */
  const DeviceTypeMap: map<int, string> := map[1 := "Cobblestone", 2 := "Gemstone"]

  // ---------------------------------------------------------------- device_data

  /** `device["id"]`. */
  function IdOf(device: Json): Result<Json, PyError> {
    Subscript(device, "id")
  }

  /** `coordinator.data["data"]` as the `for` loops and the generator iterate it. */
  function DeviceList(snapshot: Json): Result<seq<Json>, PyError> {
    var listed :- Subscript(snapshot, "data");
    Iter(listed)
  }

  /** Every device before position `i` has an id, and none of those ids is `id`. */
  ghost predicate PassedOver(devices: seq<Json>, i: int, id: Json)
    requires 0 <= i <= |devices|
  {
    forall k :: 0 <= k < i ==> IdOf(devices[k]).Ok? && IdOf(devices[k]).value != id
  }

  /**
    `next(device for device in devices if device["id"] == id)`: the first
    device whose id is `id`; StopIteration when none is; the lookup's own
    KeyError or TypeError on a device without an id before that.
  */
  function FindDevice(devices: seq<Json>, id: Json): (r: Result<Json, PyError>)
    ensures r.Ok? ==> r.value.Object? && IdOf(r.value) == Ok(id)
    ensures r.Ok? ==> exists i :: 0 <= i < |devices| && devices[i] == r.value && PassedOver(devices, i, id)
    ensures forall i :: 0 <= i < |devices| && IdOf(devices[i]) == Ok(id) && PassedOver(devices, i, id) ==>
              r == Ok(devices[i])
    ensures r == Err(StopIteration) <==> PassedOver(devices, |devices|, id)
    ensures r.Err? && r.error != StopIteration ==>
      exists i :: 0 <= i < |devices| && PassedOver(devices, i, id) && IdOf(devices[i]) == Err(r.error)
  {
    if devices == [] then Err(StopIteration)
    else
      match IdOf(devices[0])
      case Err(e) => Err(e)
      case Ok(found) =>
        if found == id then Ok(devices[0])
        else
          var r := FindDevice(devices[1..], id);
          assert forall i :: 1 <= i <= |devices| ==>
            (PassedOver(devices, i, id) <==> PassedOver(devices[1..], i - 1, id));
          r
  }

  /** The `device_data` property. */
  function DeviceData(snapshot: Json, id: Json): Result<Json, PyError> {
    var devices :- DeviceList(snapshot);
    FindDevice(devices, id)
  }

  // ---------------------------------------------------------------- device info

  /** Whether `DEVICE_TYPE_MAP.get(code)` finds an entry (True hashes and compares as 1). */
  function HashKey(code: Json): Option<int> {
    match code
    case Num(n) => Some(n)
    case Bool(b) => Some(if b then 1 else 0)
    case _ => None
  }

  /** `DEVICE_TYPE_MAP.get(code, f"Unknown model ({code})")`; a list or dict key is unhashable. */
  function ModelName(code: Json): (r: Result<string, PyError>)
    ensures r.Err? <==> !Hashable(code)
    ensures r.Err? ==> r.error == TypeError
  {
    if !Hashable(code) then Err(TypeError)
    else if HashKey(code).Some? && HashKey(code).value in DeviceTypeMap then Ok(DeviceTypeMap[HashKey(code).value])
    else Ok("Unknown model (" + Display(code) + ")")
  }

  /** The model table: codes 1 and 2 are named; every other hashable code is reported as unknown, with the code. */
  lemma ModelNames(code: Json)
    requires Hashable(code)
    ensures code == Num(1) ==> ModelName(code) == Ok("Cobblestone")
    ensures code == Num(2) ==> ModelName(code) == Ok("Gemstone")
    ensures ModelName(code) == Ok("Cobblestone") || ModelName(code) == Ok("Gemstone") <==>
            code == Num(1) || code == Num(2) || code == Bool(true)
    ensures code != Num(1) && code != Num(2) && code != Bool(true) ==>
            ModelName(code) == Ok("Unknown model (" + Display(code) + ")")
  {
    var unknown := "Unknown model (" + Display(code) + ")";
    assert unknown[0] == 'U';
  }

  /** `_attr_device_info`; the manufacturer is the `BRAND` constant, which is not part of this model. */
  datatype DeviceInfo = DeviceInfo(identifiers: set<(string, Json)>, name: string, model: string, swVersion: Json)

  /**
    The device-registry part of `__init__`: reads `name`, `device_type` and
    `firmware_version` of the entity's device, in the order the constructor
    does, and raises as it does when one is missing.
  */
  function NewDeviceInfo(snapshot: Json, id: Json): (r: Result<DeviceInfo, PyError>)
    ensures DeviceData(snapshot, id).Err? ==> r == Err(DeviceData(snapshot, id).error)
    ensures DeviceData(snapshot, id).Ok? ==> r == DeviceInfoOf(DeviceData(snapshot, id).value, id)
  {
    match DeviceData(snapshot, id)
    case Err(e) => Err(e)
    case Ok(device) => DeviceInfoOf(device, id)
  }

  /** The constructor's reads of the found `device`, in source order. */
  function DeviceInfoOf(device: Json, id: Json): (r: Result<DeviceInfo, PyError>)
    ensures r.Ok? ==>
      && Subscript(device, "name").Ok?
      && Subscript(device, "device_type").Ok?
      && ModelName(Subscript(device, "device_type").value).Ok?
      && Subscript(device, "firmware_version").Ok?
      && r.value.identifiers == {(Domain, id)}
      && r.value.name == Display(Subscript(device, "name").value) + " Tracker"
      && r.value.model == ModelName(Subscript(device, "device_type").value).value
      && r.value.swVersion == Subscript(device, "firmware_version").value
    ensures r.Err? ==>
      || r.error == KeyError("name") || r.error == KeyError("device_type")
      || r.error == KeyError("firmware_version") || r.error == TypeError
    ensures r.Ok? <==>
      && Subscript(device, "name").Ok?
      && Subscript(device, "device_type").Ok? && Hashable(Subscript(device, "device_type").value)
      && Hashable(id)
      && Subscript(device, "firmware_version").Ok?
  {
    var name :- Subscript(device, "name");
    var code :- Subscript(device, "device_type");
    var model :- ModelName(code);
    if !Hashable(id) then Err(TypeError)
    else
      var firmware :- Subscript(device, "firmware_version");
      Ok(DeviceInfo({(Domain, id)}, Display(name) + " Tracker", model, firmware))
  }

  // ---------------------------------------------------------------- location and unique id

  /** `get_location`: the device's `location` when it is truthy, otherwise None. */
  function GetLocation(snapshot: Json, id: Json): (r: Result<Json, PyError>)
    ensures r.Ok? <==> DeviceData(snapshot, id).Ok?
    ensures DeviceData(snapshot, id).Err? ==> r == Err(DeviceData(snapshot, id).error)
    ensures r.Ok? ==>
      var found := Lookup(DeviceData(snapshot, id).value.fields, "location");
      && (r.value == Null || Truthy(r.value))
      && (Truthy(r.value) <==> found.Some? && Truthy(found.value))
      && (Truthy(r.value) ==> r.value == found.value)
  {
    var device :- DeviceData(snapshot, id);
    if !Truthy(device) then Ok(Null)
    else
      match Get(device, "location", Null)
      case Ok(location) => Ok(if Truthy(location) then location else Null)
      case Err(e) => Err(e)
  }

  /** The base `unique_id`: `cphtrackers_<device id>_<SUFFIX>`. */
  function UniqueId(id: Json, suffix: string): string {
    Prefix + "_" + Display(id) + "_" + suffix
  }

  /** `f"{self.device_data['name']} <caption>"`, the names the sensors and the switch give themselves. */
  function NameWithLabel(snapshot: Json, id: Json, caption: string): (r: Result<string, PyError>)
    ensures r.Ok? <==> DeviceData(snapshot, id).Ok? && Subscript(DeviceData(snapshot, id).value, "name").Ok?
    ensures r.Ok? ==> r.value == Display(Subscript(DeviceData(snapshot, id).value, "name").value) + " " + caption
  {
    var device :- DeviceData(snapshot, id);
    var name :- Subscript(device, "name");
    Ok(Display(name) + " " + caption)
  }

  /** Two different captions give one device two different names, and both or neither exist. */
  lemma NameWithLabelSeparates(snapshot: Json, id: Json, c1: string, c2: string)
    requires c1 != c2
    requires NameWithLabel(snapshot, id, c1).Ok?
    ensures NameWithLabel(snapshot, id, c2).Ok?
    ensures NameWithLabel(snapshot, id, c1).value != NameWithLabel(snapshot, id, c2).value
  {
    var head := Display(Subscript(DeviceData(snapshot, id).value, "name").value) + " ";
    assert NameWithLabel(snapshot, id, c1).value == head + c1;
    assert NameWithLabel(snapshot, id, c2).value == head + c2;
    assert (head + c1)[|head|..] == c1;
    assert (head + c2)[|head|..] == c2;
  }

  /** Two entities of one device whose suffixes differ get different base unique ids. */
  lemma UniqueIdSeparatesSuffixes(id: Json, s1: string, s2: string)
    requires s1 != s2
    ensures UniqueId(id, s1) != UniqueId(id, s2)
  {
    var head := Prefix + "_" + Display(id) + "_";
    assert UniqueId(id, s1) == head + s1 && UniqueId(id, s2) == head + s2;
    assert (head + s1)[|head|..] == s1;
    assert (head + s2)[|head|..] == s2;
  }

  // ---------------------------------------------------------------- example snapshots

  /** The snapshot `{"data": devices}`, as the devices endpoint returns it. */
  function SnapshotOf(devices: seq<Json>): Json {
    Object([Member("data", List(devices))])
  }

  /** In a well-formed snapshot, `device_data` is the search over its device list. */
  lemma DeviceDataOfSnapshot(devices: seq<Json>, id: Json)
    ensures DeviceList(SnapshotOf(devices)) == Ok(devices)
    ensures DeviceData(SnapshotOf(devices), id) == FindDevice(devices, id)
  {
  }

  // ---------------------------------------------------------------- platform setup

  /** The entity classes the four platforms create. */
  datatype Kind =
    | Tracker
    | LocationSensor | GeoLocationSensor | UpdatedAtSensor | BatterySensor | SignalSensor | ProfileNameSensor
    | CanUpdate | ShouldUpdate
    | ForceRefresh

  /** One constructed entity: its class, the device it follows, and its registry information. */
  datatype Entity = Entity(kind: Kind, deviceId: Json, info: DeviceInfo)

  /**
    The entities one loop iteration adds for `device`: `device["id"]`, then
    one constructor call per class in the platform's order. All the
    constructors read the same snapshot, so they build the same device info.
  */
  function Constructed(snapshot: Json, device: Json, kinds: seq<Kind>): (r: Result<seq<Entity>, PyError>)
    ensures r.Ok? <==> IdOf(device).Ok? && NewDeviceInfo(snapshot, IdOf(device).value).Ok?
    ensures r.Ok? ==> |r.value| == |kinds|
    ensures r.Ok? ==> forall j :: 0 <= j < |kinds| ==>
      r.value[j] == Entity(kinds[j], IdOf(device).value, NewDeviceInfo(snapshot, IdOf(device).value).value)
  {
    var id :- IdOf(device);
    var info :- NewDeviceInfo(snapshot, id);
    Ok(seq(|kinds|, j requires 0 <= j < |kinds| => Entity(kinds[j], id, info)))
  }

  /** What each device contributes, in snapshot order. */
  function PerDevice(snapshot: Json, devices: seq<Json>, kinds: seq<Kind>): (r: seq<Result<seq<Entity>, PyError>>)
    ensures |r| == |devices|
    ensures forall i :: 0 <= i < |devices| ==> r[i] == Constructed(snapshot, devices[i], kinds)
  {
    seq(|devices|, i requires 0 <= i < |devices| => Constructed(snapshot, devices[i], kinds))
  }

  /** The list after extending it block by block; the first exception ends the loop. */
  function Concat<T>(blocks: seq<Result<seq<T>, PyError>>): Result<seq<T>, PyError>
    decreases |blocks|
  {
    if blocks == [] then Ok([])
    else
      var before :- Concat(blocks[..|blocks| - 1]);
      var last :- blocks[|blocks| - 1];
      Ok(before + last)
  }

  /** What a platform's `async_setup_entry` passes to `async_add_entities`. */
  function Setup(snapshot: Json, kinds: seq<Kind>): Result<seq<Entity>, PyError> {
    var devices :- DeviceList(snapshot);
    Concat(PerDevice(snapshot, devices, kinds))
  }

  /** A device entry holding every key the constructor reads. */
  function WellFormedDevice(id: Json, name: Json, code: Json, firmware: Json): Json {
    Object([Member("id", id), Member("name", name), Member("device_type", code), Member("firmware_version", firmware)])
  }

  lemma WellFormedDeviceFields(id: Json, name: Json, code: Json, firmware: Json)
    ensures var fields := WellFormedDevice(id, name, code, firmware).fields;
      && Lookup(fields, "id") == Some(id)
      && Lookup(fields, "name") == Some(name)
      && Lookup(fields, "device_type") == Some(code)
      && Lookup(fields, "firmware_version") == Some(firmware)
  {
    var fields := WellFormedDevice(id, name, code, firmware).fields;
    assert fields[1..] == [fields[1], fields[2], fields[3]];
    assert fields[1..][1..] == [fields[2], fields[3]];
    assert fields[1..][1..][1..] == [fields[3]];
  }

  /** The device info of a well-formed device with a hashable id and type. */
  lemma WellFormedDeviceInfo(id: Json, name: Json, code: Json, firmware: Json)
    requires Hashable(id) && Hashable(code)
    ensures NewDeviceInfo(SnapshotOf([WellFormedDevice(id, name, code, firmware)]), id) ==
      Ok(DeviceInfo({(Domain, id)}, Display(name) + " Tracker", ModelName(code).value, firmware))
  {
    var device := WellFormedDevice(id, name, code, firmware);
    WellFormedDeviceFields(id, name, code, firmware);
    DeviceDataOfSnapshot([device], id);
    assert IdOf(device) == Ok(id);
    assert FindDevice([device], id) == Ok(device);
  }

  /**
    Setup succeeds on a snapshot of one well-formed device: whatever the
    platform's classes, it adds one entity per class, in order, all built
    for that device with the same device info.
  */
  lemma WellFormedSnapshotSetsUp(kinds: seq<Kind>, id: Json, name: Json, code: Json, firmware: Json)
    requires Hashable(id) && Hashable(code)
    ensures var snapshot := SnapshotOf([WellFormedDevice(id, name, code, firmware)]);
      var info := DeviceInfo({(Domain, id)}, Display(name) + " Tracker", ModelName(code).value, firmware);
      && Setup(snapshot, kinds).Ok?
      && |Setup(snapshot, kinds).value| == |kinds|
      && forall j :: 0 <= j < |kinds| ==> Setup(snapshot, kinds).value[j] == Entity(kinds[j], id, info)
  {
    var device := WellFormedDevice(id, name, code, firmware);
    var snapshot := SnapshotOf([device]);
    WellFormedDeviceFields(id, name, code, firmware);
    WellFormedDeviceInfo(id, name, code, firmware);
    DeviceDataOfSnapshot([device], id);
    assert IdOf(device) == Ok(id);
    var block := Constructed(snapshot, device, kinds);
    assert block.Ok?;
    var blocks := PerDevice(snapshot, [device], kinds);
    assert blocks == [block];
    assert blocks[..0] == [];
    assert Concat(blocks) == Ok([] + block.value);
    assert [] + block.value == block.value;
  }

  /** Where the `i`-th run of `width` elements starts: `i * width`, counted up run by run. */
  function Offset(i: nat, width: nat): nat {
    if i == 0 then 0 else Offset(i - 1, width) + width
  }

  lemma {:induction false} OffsetIsProduct(i: nat, width: nat)
    ensures Offset(i, width) == i * width
  {
    if i > 0 {
      OffsetIsProduct(i - 1, width);
    }
  }

  lemma {:induction false} OffsetGrows(i: nat, m: nat, width: nat)
    requires i < m
    ensures Offset(i, width) + width <= Offset(m, width)
    decreases m
  {
    if i < m - 1 {
      OffsetGrows(i, m - 1, width);
    }
  }

  /** The `i`-th run of `width` elements. */
  function Block<T>(xs: seq<T>, width: nat, i: nat): seq<T>
    requires Offset(i, width) + width <= |xs|
  {
    xs[Offset(i, width) .. Offset(i, width) + width]
  }

  /** `out` is the blocks' values laid end to end, `width` elements each. */
  ghost predicate Tiled<T>(blocks: seq<Result<seq<T>, PyError>>, width: nat, out: seq<T>) {
    && |out| == Offset(|blocks|, width)
    && forall i :: 0 <= i < |blocks| ==> Offset(i, width) + width <= |out| && blocks[i] == Ok(Block(out, width, i))
  }

  /** Once a block raises, the loop raises that exception whatever follows. */
  lemma {:induction false} ConcatStopsAtFirstError<T>(blocks: seq<Result<seq<T>, PyError>>, k: nat)
    requires k <= |blocks|
    requires Concat(blocks[..k]).Err?
    ensures Concat(blocks) == Concat(blocks[..k])
    decreases |blocks| - k
  {
    if k < |blocks| {
      assert blocks[..k + 1][..k] == blocks[..k];
      ConcatStopsAtFirstError(blocks, k + 1);
    } else {
      assert blocks[..k] == blocks;
    }
  }

  /** The loop gets through every device exactly when no block raises. */
  lemma {:induction false} ConcatSucceeds<T>(blocks: seq<Result<seq<T>, PyError>>)
    ensures Concat(blocks).Ok? <==> forall i :: 0 <= i < |blocks| ==> blocks[i].Ok?
    decreases |blocks|
  {
    if blocks != [] {
      var prefix := blocks[..|blocks| - 1];
      ConcatSucceeds(prefix);
      assert forall i :: 0 <= i < |prefix| ==> prefix[i] == blocks[i];
    }
  }

  lemma BlockOfAppend<T>(before: seq<T>, last: seq<T>, width: nat, i: nat)
    requires Offset(i, width) + width <= |before|
    ensures Block(before + last, width, i) == Block(before, width, i)
  {
  }

  /** A successful loop lays the blocks end to end, in order. */
  lemma {:induction false} ConcatTiles<T>(blocks: seq<Result<seq<T>, PyError>>, width: nat)
    requires forall i :: 0 <= i < |blocks| && blocks[i].Ok? ==> |blocks[i].value| == width
    requires Concat(blocks).Ok?
    ensures Tiled(blocks, width, Concat(blocks).value)
    decreases |blocks|
  {
    if blocks != [] {
      var n := |blocks|;
      var prefix := blocks[..n - 1];
      ConcatTiles(prefix, width);
      var before := Concat(prefix).value;
      var last := blocks[n - 1].value;
      var out := Concat(blocks).value;
      assert out == before + last;
      assert |out| == Offset(n, width);
      forall i | 0 <= i < n
        ensures Offset(i, width) + width <= |out|
        ensures blocks[i] == Ok(Block(out, width, i))
      {
        if i < n - 1 {
          OffsetGrows(i, n - 1, width);
          assert prefix[i] == blocks[i];
          BlockOfAppend(before, last, width, i);
        } else {
          assert Offset(i, width) == |before|;
          assert Block(out, width, i) == last;
        }
      }
    }
  }

  /** The `j`-th element of the `i`-th block sits at `i * width + j`. */
  lemma TiledAt<T>(blocks: seq<Result<seq<T>, PyError>>, width: nat, out: seq<T>, i: nat, j: nat)
    requires Tiled(blocks, width, out)
    requires i < |blocks| && j < width
    ensures Offset(i, width) + j < |out|
    ensures blocks[i].Ok? && |blocks[i].value| == width && blocks[i].value[j] == out[Offset(i, width) + j]
  {
    assert Offset(i, width) + width <= |out| && blocks[i] == Ok(Block(out, width, i));
  }

  /** `entity` is the one of class `kind` built for `device`: its id and the device info read from the snapshot. */
  ghost predicate BuiltFor(snapshot: Json, device: Json, kind: Kind, entity: Entity) {
    && IdOf(device).Ok?
    && NewDeviceInfo(snapshot, IdOf(device).value).Ok?
    && entity == Entity(kind, IdOf(device).value, NewDeviceInfo(snapshot, IdOf(device).value).value)
  }

  /** The `j`-th entity of a device's block is the one of class `kinds[j]` built for it. */
  lemma ConstructedBuilt(snapshot: Json, device: Json, kinds: seq<Kind>, j: nat, entity: Entity)
    requires j < |kinds|
    requires Constructed(snapshot, device, kinds).Ok? && Constructed(snapshot, device, kinds).value[j] == entity
    ensures BuiltFor(snapshot, device, kinds[j], entity)
  {
  }

  /** The `for` loop of a platform's `async_setup_entry`. */
  method SetupEntities(snapshot: Json, kinds: seq<Kind>) returns (r: Result<seq<Entity>, PyError>)
    ensures r == Setup(snapshot, kinds)
    ensures r.Ok? ==> DeviceList(snapshot).Ok? && Tiled(PerDevice(snapshot, DeviceList(snapshot).value, kinds), |kinds|, r.value)
  {
    var listed := DeviceList(snapshot);
    if listed.Err? {
      return Err(listed.error);
    }
    var devices := listed.value;
    ghost var blocks := PerDevice(snapshot, devices, kinds);
    var entities := [];
    var i := 0;
    while i < |devices|
      invariant 0 <= i <= |devices|
      invariant Concat(blocks[..i]) == Ok(entities)
    {
      assert blocks[..i + 1][..i] == blocks[..i];
      var block := Constructed(snapshot, devices[i], kinds);
      assert block == blocks[i];
      if block.Err? {
        ConcatStopsAtFirstError(blocks, i + 1);
        return Err(block.error);
      }
      entities := entities + block.value;
      i := i + 1;
    }
    assert blocks[..i] == blocks;
    ConcatTiles(blocks, |kinds|);
    r := Ok(entities);
  }
}
