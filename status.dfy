/** The snapshot a car reports to the dispatcher (Common/ElevatorStatus.java). */
module Status {
  import opened Wrappers
  import opened Common

  /**
   * An immutable snapshot: its fields are final and a datatype value cannot change,
   * so every getter returns exactly what the constructor was given.
   */
  datatype ElevatorStatus = ElevatorStatus(
    elevatorId: int,
    direction: Direction,
    floorNumber: int,
    stopRequestFloorsGoingUp: seq<int>,
    stopRequestFloorsGoingDown: seq<int>)

  /**
   * getStopRequestFloorsInDirection: the going-up list for UP; the going-down list for
   * every other argument, DOWN, STOPPED and null (None) alike.
   */
  function StopRequestFloorsInDirection(s: ElevatorStatus, d: Option<Direction>): (floors: seq<int>)
    ensures d == Some(Up) ==> floors == s.stopRequestFloorsGoingUp
    ensures d != Some(Up) ==> floors == s.stopRequestFloorsGoingDown
  {
    if d == Some(Up) then s.stopRequestFloorsGoingUp else s.stopRequestFloorsGoingDown
  }
}
