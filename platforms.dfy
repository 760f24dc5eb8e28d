/**
  The four platforms together: every entity one device gets, and the
  unique id each of them registers under.
*/
module Platforms {
  import opened Python
  import opened Entity
  import DeviceTracker
  import Sensor
  import BinarySensor
  import Switch

  /** The suffix of the entities whose id has the base `cphtrackers_<id>_<suffix>` shape. */
  function BaseSuffix(kind: Kind): string
    requires kind !in Sensor.SensorKinds
  {
    match kind
    case Tracker => DeviceTracker.Suffix
    case CanUpdate => BinarySensor.BinarySensorSuffix(CanUpdate)
    case ShouldUpdate => BinarySensor.BinarySensorSuffix(ShouldUpdate)
    case ForceRefresh => "force_refresh"
  }

  /** The `unique_id` an entity of class `kind` for device `id` reports. */
  function UniqueIdOf(kind: Kind, id: Json): string {
    match kind
    case Tracker => UniqueId(id, DeviceTracker.Suffix)
    case CanUpdate => UniqueId(id, BinarySensor.BinarySensorSuffix(CanUpdate))
    case ShouldUpdate => UniqueId(id, BinarySensor.BinarySensorSuffix(ShouldUpdate))
    case ForceRefresh => Switch.ForceRefreshUniqueId(id)
    case _ => Sensor.SensorUniqueId(kind, id)
  }

  /** The entities that do not override `unique_id` keep the base shape; the switch's override has it too. */
  lemma BaseShaped(kind: Kind, id: Json)
    requires kind !in Sensor.SensorKinds
    ensures UniqueIdOf(kind, id) == UniqueId(id, BaseSuffix(kind))
  {
    if kind == ForceRefresh {
      Switch.ForceRefreshUniqueIdIsBaseShape(id);
    }
  }

  lemma BaseLength(kind: Kind, id: Json)
    requires kind !in Sensor.SensorKinds
    ensures |UniqueIdOf(kind, id)| == 13 + |Display(id)| + |BaseSuffix(kind)|
  {
    BaseShaped(kind, id);
  }

  lemma SensorLength(kind: Kind, id: Json)
    requires kind in Sensor.SensorKinds
    ensures |UniqueIdOf(kind, id)| == 1 + |Display(id)| + |Sensor.SensorSuffix(kind)|
  {
  }

  /** No sensor suffix is exactly as much longer than a base suffix as the `cphtrackers_` prefix. */
  lemma SuffixLengthsDiffer(sensor: Kind, base: Kind)
    requires sensor in Sensor.SensorKinds && base !in Sensor.SensorKinds
    ensures |Sensor.SensorSuffix(sensor)| != 12 + |BaseSuffix(base)|
  {
  }

  /**
    The ten entities of one device register under ten different unique
    ids: within a shape the suffixes differ, and across the two shapes the
    lengths do.
  */
  lemma UniqueIdsDistinct(k1: Kind, k2: Kind, id: Json)
    requires k1 != k2
    ensures UniqueIdOf(k1, id) != UniqueIdOf(k2, id)
  {
    if k1 in Sensor.SensorKinds && k2 in Sensor.SensorKinds {
      Sensor.SensorUniqueIdsDistinct(k1, k2, id);
    } else if k1 !in Sensor.SensorKinds && k2 !in Sensor.SensorKinds {
      BaseShaped(k1, id);
      BaseShaped(k2, id);
      UniqueIdSeparatesSuffixes(id, BaseSuffix(k1), BaseSuffix(k2));
    } else if k1 in Sensor.SensorKinds {
      SensorLength(k1, id);
      BaseLength(k2, id);
      SuffixLengthsDiffer(k1, k2);
    } else {
      BaseLength(k1, id);
      SensorLength(k2, id);
      SuffixLengthsDiffer(k2, k1);
    }
  }
}
