/// modules/pre_process.py: the per-step record assembly used by the
/// collector. Event flags are written into the caller's sensor dict, then
/// six dicts are merged with `{**a, **b, ...}`, where a later dict silently
/// overrides an earlier one on a shared key.
module PreProcess {
  import opened Common

  /// The default `other_data={'other_data': -1}`.
  const DefaultOther: map<string, Value> := map["other_data" := Int(-1)]

  /// `{**sensor, **waypoint, **traffic, **vehicle, **collision, **other}`.
  function StepRecord(sensor: map<string, Value>, waypoint: map<string, Value>, traffic: map<string, Value>,
                      vehicle: map<string, Value>, collision: map<string, Value>, other: map<string, Value>)
    : (r: map<string, Value>)
    ensures r.Keys == sensor.Keys + waypoint.Keys + traffic.Keys + vehicle.Keys + collision.Keys + other.Keys
    ensures forall k | k in r :: r[k] == (
              if k in other then other[k]
              else if k in collision then collision[k]
              else if k in vehicle then vehicle[k]
              else if k in traffic then traffic[k]
              else if k in waypoint then waypoint[k]
              else sensor[k])
  {
    sensor + waypoint + traffic + vehicle + collision + other
  }

  /// The sensor dict after the flag loop: `obstacle` and `collision` hold
  /// whether each key was present before; nothing else changes.
  function WithEventFlags(sensor: map<string, Value>): (r: map<string, Value>)
    ensures r.Keys == sensor.Keys + {"obstacle", "collision"}
    ensures r["obstacle"] == Bool("obstacle" in sensor)
    ensures r["collision"] == Bool("collision" in sensor)
    ensures forall k :: k in sensor && k != "obstacle" && k != "collision" ==> r[k] == sensor[k]
  {
    FlagAll(sensor, ["obstacle", "collision"])
  }

  /// One pass of the flag loop: `name` now says whether it was present.
  function SetFlag(d: map<string, Value>, name: string): map<string, Value>
  {
    d[name := Bool(name in d)]
  }

  /// The flag loop over `names`, in order.
  function FlagAll(d: map<string, Value>, names: seq<string>): map<string, Value>
    decreases |names|
  {
    if names == [] then d else FlagAll(SetFlag(d, names[0]), names[1..])
  }

  /// With the default `other_data`, every record carries `other_data: -1`
  /// (nothing is merged after it).
  lemma DefaultOtherAlwaysWins(sensor: map<string, Value>, waypoint: map<string, Value>, traffic: map<string, Value>,
                               vehicle: map<string, Value>, collision: map<string, Value>)
    ensures "other_data" in StepRecord(sensor, waypoint, traffic, vehicle, collision, DefaultOther)
    ensures StepRecord(sensor, waypoint, traffic, vehicle, collision, DefaultOther)["other_data"] == Int(-1)
  {
  }

  /// The record always has a `collision` entry; unless a later dict
  /// overrides it, it says whether the sensor dict reported a collision.
  lemma CollisionFlagInRecord(sensor: map<string, Value>, waypoint: map<string, Value>, traffic: map<string, Value>,
                              vehicle: map<string, Value>, collision: map<string, Value>, other: map<string, Value>)
    ensures "collision" in StepRecord(WithEventFlags(sensor), waypoint, traffic, vehicle, collision, other)
    ensures "collision" !in waypoint + traffic + vehicle + collision + other ==>
      StepRecord(WithEventFlags(sensor), waypoint, traffic, vehicle, collision, other)["collision"]
        == Bool("collision" in sensor)
  {
  }

  class PreProcessData {
    var nCollision: int

    constructor ()
      ensures nCollision == 0
    {
      nCollision := 0;
    }

    /// `preprocess_sensor_data`: counts one collision per sensor dict that
    /// has a `collision` key.
    method PreprocessSensorData(sensorData: map<string, Value>)
      modifies this
      ensures nCollision == old(nCollision) + (if "collision" in sensorData then 1 else 0)
    {
      if "collision" in sensorData {
        nCollision := nCollision + 1;
      }
    }

    /// `process(sensor_data, waypoint_data, traffic_data, collision_data,
    /// vehicle_data, other_data)`. `vehicleData == None` is the default
    /// `-1`, which `**` rejects with TypeError, after the flags are written.
    method Process(sensorData: Dict, waypointData: map<string, Value>, trafficData: map<string, Value>,
                   collisionData: map<string, Value>, vehicleData: Option<map<string, Value>>,
                   otherData: map<string, Value>)
      returns (r: Result<map<string, Value>, Exception>)
      modifies sensorData
      ensures sensorData.entries == WithEventFlags(old(sensorData.entries))
      ensures vehicleData.None? ==> r == Err(TypeError)
      ensures vehicleData.Some? ==>
        r == Ok(StepRecord(sensorData.entries, waypointData, trafficData, vehicleData.value, collisionData, otherData))
      ensures nCollision == old(nCollision)
    {
      var eventSensors := ["obstacle", "collision"];
      ghost var original := sensorData.entries;
      for n := 0 to |eventSensors|
        invariant FlagAll(sensorData.entries, eventSensors[n..]) == WithEventFlags(original)
      {
        var eventSensor := eventSensors[n];
        assert eventSensors[n..][1..] == eventSensors[n + 1..];
        if eventSensor in sensorData.entries {
          sensorData.entries := sensorData.entries[eventSensor := Bool(true)];
        } else {
          sensorData.entries := sensorData.entries[eventSensor := Bool(false)];
        }
      }
      if vehicleData.None? {
        return Err(TypeError);
      }
      r := Ok(StepRecord(sensorData.entries, waypointData, trafficData, vehicleData.value, collisionData, otherData));
    }
  }
}
