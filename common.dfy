/** Option type standing for Java's nullable references. */
module Wrappers {
  datatype Option<+T> = None | Some(value: T)
}

/** Enumerations and configuration constants shared by every process (package Common). */
module Common {

  /** Direction of travel of a car, or of a request (Direction.java). */
  datatype Direction = Up | Down | Stopped

  /** Life cycle of one request (RequestStatus.java): once picked up it is never pending again. */
  datatype RequestStatus = Pending | PassengerPickedUp

  /** Fault injected into a request: none, a transient door fault, or a hard floor-timer fault. */
  datatype FaultType = NoFault | DoorFault | FloorTimerFault

  const NumberOfFloors := 10
  const NumberOfElevators := 5

  const SchedulerPort := 50000
  const SchedulerPort2 := 50001
  const FloorControllerPort := 50002

  /** Simulated durations, in milliseconds. */
  const BaseMoveTime := 5762
  const IncrementalMoveTime := 2240
  const LoadingTime := 11210

  /** Java's Integer.MAX_VALUE, the scheduler's initial "minimum distance". */
  const IntMaxValue := 0x7fff_ffff
}

/** One passenger journey (Common/ElevatorRequest.java). */
module Requests {
  import opened Wrappers
  import opened Common

  /**
   * `time` is the time of day at which the call is made, in any fixed unit;
   * `floor` is the origin, `carButton` the destination pressed inside the car,
   * `floorButton` the text of the hall button ("up" or "down").
   */
  datatype Request = Request(
    time: int,
    floor: int,
    floorButton: string,
    carButton: int,
    status: RequestStatus,
    fault: FaultType)

  /** A request whose direction is defined (origin and destination differ). */
  predicate WellFormed(r: Request) {
    r.floor != r.carButton
  }

  /** The constructor: every new request starts out pending, with the given fields. */
  function NewRequest(time: int, floor: int, floorButton: string, carButton: int, fault: FaultType): (r: Request)
    ensures r.status == Pending
    ensures r.time == time && r.floor == floor && r.floorButton == floorButton
    ensures r.carButton == carButton && r.fault == fault
  {
    Request(time, floor, floorButton, carButton, Pending, fault)
  }

  /** setStatus: only the status changes. */
  function WithStatus(r: Request, s: RequestStatus): (r': Request)
    ensures r'.status == s
    ensures r'.time == r.time && r'.floor == r.floor && r'.floorButton == r.floorButton
    ensures r'.carButton == r.carButton && r'.fault == r.fault
  {
    r.(status := s)
  }

  /** The floor the car must reach to make progress on `r`: the origin while pending, the destination after. */
  function CurrentTargetFloor(r: Request): (f: int)
    ensures r.status == Pending ==> f == r.floor
    ensures r.status == PassengerPickedUp ==> f == r.carButton
  {
    if r.status == Pending then r.floor else r.carButton
  }

  /**
   * getDirection: derived from origin and destination only (the hall button is ignored);
   * null (None) when they coincide, never STOPPED.
   */
  function DirectionOf(r: Request): (d: Option<Direction>)
    ensures d == None <==> r.carButton == r.floor
    ensures d == Some(Up) <==> r.carButton > r.floor
    ensures d == Some(Down) <==> r.carButton < r.floor
    ensures d != Some(Stopped)
  {
    if r.carButton == r.floor then None
    else if r.carButton - r.floor > 0 then Some(Up)
    else Some(Down)
  }

  /** Changing the status never changes the direction of a request. */
  lemma DirectionIgnoresStatus(r: Request, s: RequestStatus)
    ensures DirectionOf(WithStatus(r, s)) == DirectionOf(r)
    ensures WellFormed(WithStatus(r, s)) == WellFormed(r)
  {
  }

  /** Once picked up, the current target lies on the side of the origin that the direction names. */
  lemma PickedUpTargetFollowsDirection(r: Request)
    requires r.status == PassengerPickedUp && WellFormed(r)
    ensures DirectionOf(r) == Some(Up) <==> CurrentTargetFloor(r) > r.floor
    ensures DirectionOf(r) == Some(Down) <==> CurrentTargetFloor(r) < r.floor
  {
  }
}
