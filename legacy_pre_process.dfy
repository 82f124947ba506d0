/// pre_process.py: the older record assembly. No event flags; five dicts
/// merged with `{**a, **b, ...}`, the later one winning on a shared key.
module LegacyPreProcess {
  import opened Common

  /// The default `other_data={'other_data': -1}`.
  const DefaultOther: map<string, Value> := map["other_data" := Int(-1)]

  /// `{**sensor, **waypoint, **traffic, **vehicle, **other}`.
  function StepRecord(sensor: map<string, Value>, waypoint: map<string, Value>, traffic: map<string, Value>,
                      vehicle: map<string, Value>, other: map<string, Value>)
    : (r: map<string, Value>)
    ensures r.Keys == sensor.Keys + waypoint.Keys + traffic.Keys + vehicle.Keys + other.Keys
    ensures forall k | k in r :: r[k] == (
              if k in other then other[k]
              else if k in vehicle then vehicle[k]
              else if k in traffic then traffic[k]
              else if k in waypoint then waypoint[k]
              else sensor[k])
  {
    sensor + waypoint + traffic + vehicle + other
  }

  /// With the default `other_data`, every record carries `other_data: -1`.
  lemma DefaultOtherAlwaysWins(sensor: map<string, Value>, waypoint: map<string, Value>,
                               traffic: map<string, Value>, vehicle: map<string, Value>)
    ensures StepRecord(sensor, waypoint, traffic, vehicle, DefaultOther)["other_data"] == Int(-1)
  {
  }

  class PreProcessData {
    var nCollision: int

    constructor ()
      ensures nCollision == 0
    {
      nCollision := 0;
    }

    /// `preprocess_sensor_data`: one more collision iff the dict has a
    /// `collision` key.
    method PreprocessSensorData(sensorData: map<string, Value>)
      modifies this
      ensures nCollision == old(nCollision) + (if "collision" in sensorData then 1 else 0)
    {
      if "collision" in sensorData {
        nCollision := nCollision + 1;
      }
    }

    /// `process(sensor_data, waypoint_data, traffic_data, vehicle_data,
    /// other_data)`: changes nothing, neither the inputs nor `n_collision`.
    /// `vehicleData == None` is the default `-1`, rejected by `**`.
    method Process(sensorData: map<string, Value>, waypointData: map<string, Value>,
                   trafficData: map<string, Value>, vehicleData: Option<map<string, Value>>,
                   otherData: map<string, Value>)
      returns (r: Result<map<string, Value>, Exception>)
      ensures vehicleData.None? ==> r == Err(TypeError)
      ensures vehicleData.Some? ==>
        r == Ok(StepRecord(sensorData, waypointData, trafficData, vehicleData.value, otherData))
    {
      if vehicleData.None? {
        return Err(TypeError);
      }
      r := Ok(StepRecord(sensorData, waypointData, trafficData, vehicleData.value, otherData));
    }
  }
}
