/** Unique ids of the integration's entities: every entity is identified by
    the vehicle's VIN, an underscore and a per-entity suffix. */
module Entities {
  const LOCATION_SUFFIX: string := "location"
  const DOOR_LOCK_SUFFIX: string := "door_lock"
  const REMOTE_START_SUFFIX: string := "remote_start"

  /** `f"{vin}_{suffix}"` */
  function EntityId(vin: string, suffix: string): (r: string)
    ensures |r| == |vin| + 1 + |suffix|
    ensures r[..|vin|] == vin && r[|vin|] == '_' && r[|vin| + 1..] == suffix
  {
    vin + "_" + suffix
  }

  /** For one vehicle, distinct suffixes give distinct ids. */
  lemma EntityIdInjective(vin: string, a: string, b: string)
    ensures EntityId(vin, a) == EntityId(vin, b) <==> a == b
  {
    if EntityId(vin, a) == EntityId(vin, b) {
      assert a == EntityId(vin, a)[|vin| + 1..];
      assert b == EntityId(vin, b)[|vin| + 1..];
    }
  }
}
