/// agents/navigation/utils.py: flattening a route of waypoints into
/// `[x, y, yaw]` rows. A waypoint whose transform cannot be read (the
/// AttributeError branch) is replaced by the hero's current position.
module Navigation {

  /// A transform: location x, y and rotation yaw.
  datatype Pose = Pose(x: real, y: real, yaw: real)

  /// A route entry: either it carries a transform or reading its
  /// `.transform.location` / `.rotation` raises AttributeError.
  datatype Waypoint = Located(transform: Pose) | Unlocated

  /// The row recorded for one pose.
  function Row(p: Pose): seq<real>
  {
    [p.x, p.y, p.yaw]
  }

  /// The pose a waypoint contributes: its own, or the fallback.
  function PoseOrFallback(w: Waypoint, current: Pose): Pose
  {
    if w.Located? then w.transform else current
  }

  /// `process_waypoints`: one row per waypoint, in route order.
  method ProcessWaypoints(waypoints: seq<Waypoint>, currentPosition: Pose) returns (processed: seq<seq<real>>)
    ensures |processed| == |waypoints|
    ensures forall i :: 0 <= i < |waypoints| ==> |processed[i]| == 3
    ensures forall i :: 0 <= i < |waypoints| && waypoints[i].Located? ==>
      processed[i] == [waypoints[i].transform.x, waypoints[i].transform.y, waypoints[i].transform.yaw]
    ensures forall i :: 0 <= i < |waypoints| && waypoints[i].Unlocated? ==>
      processed[i] == [currentPosition.x, currentPosition.y, currentPosition.yaw]
  {
    processed := [];
    for n := 0 to |waypoints|
      invariant |processed| == n
      invariant forall i :: 0 <= i < n ==> processed[i] == Row(PoseOrFallback(waypoints[i], currentPosition))
    {
      match waypoints[n]
      case Located(t) =>
        processed := processed + [[t.x, t.y, t.yaw]];
      case Unlocated =>
        processed := processed + [[currentPosition.x, currentPosition.y, currentPosition.yaw]];
    }
  }
}
