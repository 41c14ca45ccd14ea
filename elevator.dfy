/**
 * One car (Elevator/Elevator.java and the four state classes IdleState, CloseDoorState,
 * MovingState and OpenDoorState). The car talks to its own queue through the scheduler
 * and its controller, which only forward; here each such round trip is a direct call
 * into the queue. Lamp messages for the floors are collected in `floorMessages`.
 *
 * The timing helpers (setTime, setDeadline, setTotalTime, synchDeadline) and the
 * capacity, switch, fault and passenger-counter helpers are called by the state classes
 * but defined neither in Elevator.java nor in ElevatorSubsystem.java: the timing calls are
 * recorded in order in `timing`, and what the other helpers answer is an input of each
 * step (`Collaborators`).
 */
module Car {
  import opened Wrappers
  import opened Common
  import opened Requests
  import opened RequestQueue
  import opened Protocol

  /** The four states of the car's state machine. */
  datatype State = Idle | CloseDoor | Moving | OpenDoor

  /** One call of a timing helper, with its argument in milliseconds. */
  datatype TimingCall = SetTime(ms: int) | SetDeadline(ms: int) | SetTotalTime(ms: int) | SynchDeadline

  /**
   * What the helpers that the state classes call, and that neither Elevator.java nor
   * ElevatorSubsystem.java defines, answer during one step: whether the car is full; the
   * request switchPrimaryRequest hands back and the queue's up and down lists as it leaves
   * them; the boarding and unboarding passenger counts read after the counters are updated;
   * whether the door has a transient fault; whether the car has a hard fault; and whether
   * the accumulated time exceeds the deadline.
   */
  datatype Collaborators = Collaborators(
    atMaxCapacity: bool,
    switchedPrimary: Request,
    switchedUp: seq<Request>,
    switchedDown: seq<Request>,
    boardingCount: int,
    unboardingCount: int,
    transientFault: bool,
    hardFault: bool,
    timeExceedsDeadline: bool)

  /** A request the car can serve: its direction is defined and its destination has a lamp. */
  predicate Serviceable(r: Request) {
    WellFormed(r) && 1 <= r.carButton <= NumberOfFloors
  }

  /**
   * What the queue's invariant and the car's need of switchPrimaryRequest's answer: the new
   * primary request can be served, and each list it leaves holds only requests of its own
   * direction, each with a lamp.
   */
  predicate SwitchUsable(c: Collaborators) {
    && Serviceable(c.switchedPrimary)
    && AllTravel(c.switchedUp, Up) && AllTravel(c.switchedDown, Down)
    && ButtonsIn(c.switchedUp, NumberOfFloors) && ButtonsIn(c.switchedDown, NumberOfFloors)
  }

  /**
   * The direction IDLE chooses toward `target` from `floor`: STOPPED when already there,
   * UP when the target is above, DOWN when below.
   */
  function DirectionToward(target: int, floor: int): (d: Direction)
    ensures d == Stopped <==> target == floor
    ensures d == Up <==> target > floor
    ensures d == Down <==> target < floor
  {
    if target == floor then Stopped
    else if target - floor > 0 then Up
    else Down
  }

  /**
   * The direction OPEN_DOOR chooses for a new primary request: UP when its target is above,
   * DOWN otherwise, also when the target is the current floor.
   */
  function DirectionAfterStop(target: int, floor: int): (d: Direction)
    ensures d == Up <==> target > floor
    ensures d == Down <==> target <= floor
  {
    if target - floor > 0 then Up else Down
  }

  /** The floor change of one step of travel: +1 for UP, -1 for every other direction. */
  function Step(d: Direction): (delta: int)
    ensures delta == 1 <==> d == Up
    ensures delta == -1 <==> d != Up
  {
    if d == Up then 1 else -1
  }

  /** `target` lies strictly ahead of `floor` for a car stepping in direction `d`. */
  predicate Ahead(floor: int, d: Direction, target: int) {
    if d == Up then target > floor else target < floor
  }

  /** The number of one-floor steps from `floor` to `target` in direction `d`. */
  function Gap(floor: int, d: Direction, target: int): int {
    if d == Up then target - floor else floor - target
  }

  /** Some request of `rs` has `floor` as its current target: the queue's stop answer. */
  predicate StopRequiredIn(rs: seq<Request>, floor: int) {
    exists r :: r in rs && CurrentTargetFloor(r) == floor
  }

  /**
   * Where MOVING stops: stepping from `floor` one floor at a time in direction `d`, the first
   * floor that is the primary target or where the queue `rs` requires a stop. Every floor
   * passed on the way is neither.
   */
  function StopFloor(floor: int, d: Direction, target: int, rs: seq<Request>): (stop: int)
    requires Ahead(floor, d, target)
    ensures Ahead(floor, d, stop) && !Ahead(target, d, stop)
    ensures stop == target || StopRequiredIn(rs, stop)
    ensures forall f :: Ahead(floor, d, f) && Ahead(f, d, stop) ==> f != target && !StopRequiredIn(rs, f)
    decreases Gap(floor, d, target)
  {
    var next := floor + Step(d);
    if next == target || StopRequiredIn(rs, next) then next
    else StopFloor(next, d, target, rs)
  }

  /** The deadline and time updates of `k` floors of travel. */
  function TravelTiming(k: nat): (calls: seq<TimingCall>)
    ensures |calls| == 2 * k
  {
    if k == 0 then []
    else TravelTiming(k - 1) + [SetDeadline(IncrementalMoveTime * 3 / 2), SetTime(IncrementalMoveTime)]
  }

  /**
   * The timing calls of a MOVING pass over `k` floors: resynchronise the deadline, allow
   * 1.5 base move times, spend half a base move time accelerating, then per floor allow 1.5
   * and spend one incremental move time, then spend half a base move time braking.
   */
  function MovingTiming(k: nat): seq<TimingCall> {
    [SynchDeadline, SetDeadline(BaseMoveTime * 3 / 2), SetTime(BaseMoveTime / 2)]
      + TravelTiming(k) + [SetTime(BaseMoveTime / 2)]
  }

  /**
   * One reading of the timing helpers, which Elevator.java does not define:
   * setTime, setDeadline and setTotalTime add their argument to the time, the deadline and
   * the total time, and synchDeadline sets the deadline to the time.
   */
  datatype Clock = Clock(time: int, deadline: int, totalTime: int)

  function Apply(k: Clock, call: TimingCall): Clock {
    match call
    case SetTime(ms) => k.(time := k.time + ms)
    case SetDeadline(ms) => k.(deadline := k.deadline + ms)
    case SetTotalTime(ms) => k.(totalTime := k.totalTime + ms)
    case SynchDeadline => k.(deadline := k.time)
  }

  /** The clock after the calls `calls`, in order. */
  function Replay(k: Clock, calls: seq<TimingCall>): Clock {
    if calls == [] then k else Apply(Replay(k, calls[..|calls| - 1]), calls[|calls| - 1])
  }

  /** Replaying two call sequences one after the other is replaying their concatenation. */
  lemma {:induction false} ReplayAppend(k: Clock, a: seq<TimingCall>, b: seq<TimingCall>)
    ensures Replay(k, a + b) == Replay(Replay(k, a), b)
    decreases |b|
  {
    if b != [] {
      assert (a + b)[..|a + b| - 1] == a + b[..|b| - 1];
      ReplayAppend(k, a, b[..|b| - 1]);
    } else {
      assert a + b == a;
    }
  }

  /** Replaying one call applies it. */
  lemma ReplayOne(k: Clock, a: TimingCall)
    ensures Replay(k, [a]) == Apply(k, a)
  {
    assert [a][..0] == [];
  }

  /** Each floor of travel allows 1.5 incremental move times and spends one: the slack grows by 1120 ms per floor. */
  lemma {:induction false} TravelSlack(k: Clock, n: nat)
    ensures Replay(k, TravelTiming(n)).time == k.time + n * IncrementalMoveTime
    ensures Replay(k, TravelTiming(n)).deadline == k.deadline + n * (IncrementalMoveTime * 3 / 2)
  {
    if n > 0 {
      var step := [SetDeadline(IncrementalMoveTime * 3 / 2), SetTime(IncrementalMoveTime)];
      ReplayAppend(k, TravelTiming(n - 1), step);
      TravelSlack(k, n - 1);
      var k1 := Replay(k, TravelTiming(n - 1));
      assert step[..1] == [step[0]];
      ReplayOne(k1, step[0]);
    }
  }

  /**
   * Under this reading, a MOVING pass over n floors ends with the deadline 2881 + 1120 n ms
   * after the time, whatever the clock was before: the "time past the deadline" check at
   * the end of MOVING can never succeed, and only a hard fault can stop the car there.
   */
  lemma MovingNeverLate(k: Clock, n: nat)
    ensures var k' := Replay(k, MovingTiming(n));
      k'.deadline - k'.time == BaseMoveTime * 3 / 2 - BaseMoveTime / 2 * 2 + n * (IncrementalMoveTime * 3 / 2 - IncrementalMoveTime)
      && !(k'.time > k'.deadline)
  {
    var start := [SynchDeadline, SetDeadline(BaseMoveTime * 3 / 2), SetTime(BaseMoveTime / 2)];
    var brake := [SetTime(BaseMoveTime / 2)];
    assert MovingTiming(n) == (start + TravelTiming(n)) + brake;
    ReplayAppend(k, start + TravelTiming(n), brake);
    ReplayAppend(k, start, TravelTiming(n));
    assert start[..2] == [SynchDeadline, SetDeadline(BaseMoveTime * 3 / 2)];
    assert start[..2][..1] == [SynchDeadline];
    ReplayOne(k, SynchDeadline);
    var k0 := Replay(k, start);
    assert k0.deadline - k0.time == BaseMoveTime * 3 / 2 - BaseMoveTime / 2;
    TravelSlack(k0, n);
  }

  /** The time spent closing the door: half the loading time plus the boarding time. */
  function CloseDelay(boardingCount: int, boardingTimePerPassenger: int): int {
    LoadingTime / 2 + boardingCount * boardingTimePerPassenger
  }

  /**
   * The timing calls of OPEN_DOOR: the door delay (the full loading time with a transient
   * door fault, half of it otherwise) against half a loading time of deadline; with the
   * fault, the wait and the normal retry; then the unboarding time.
   */
  function OpenTiming(transientFault: bool, transientFaultTime: int, unboarding: int): seq<TimingCall> {
    var delay := if transientFault then LoadingTime else LoadingTime / 2;
    [SetTime(delay), SetDeadline(LoadingTime / 2), SetTotalTime(delay)]
      + (if transientFault then [SetTotalTime(transientFaultTime), SetTime(LoadingTime / 2), SetTotalTime(LoadingTime / 2)] else [])
      + [SetTime(unboarding), SetTotalTime(unboarding), SetDeadline(unboarding)]
  }

  /** The requests a shutdown hands back: every waiting queued request, then the primary one if not yet picked up. */
  function ShutdownRequests(up: seq<Request>, down: seq<Request>, primary: Request): (rs: seq<Request>)
    ensures forall x :: x in rs <==> ((x in up || x in down) && x.status != PassengerPickedUp) || (x == primary && primary.status != PassengerPickedUp)
  {
    Waiting(up) + Waiting(down) + (if primary.status != PassengerPickedUp then [primary] else [])
  }

  /** The transitions processState can make. */
  predicate Transition(from: State, to: State) {
    match from
    case Idle => to in {Idle, CloseDoor}
    case CloseDoor => to == Moving
    case Moving => to in {Moving, OpenDoor}
    case OpenDoor => to in {CloseDoor, Idle}
  }

  class Elevator {
    const subsystem: ElevatorSubsystem
    const elevatorId: int
    const boardingTimePerPassenger: int
    const transientFaultTime: int

    var currentState: State
    var direction: Direction
    var floorNumber: int
    var motorRunning: bool
    var doorOpen: bool
    var primaryRequest: Option<Request>

    /** Every timing-helper call, in order. */
    var timing: seq<TimingCall>
    /** Every lamp message sent toward the floors, in order. */
    var floorMessages: seq<SystemRequest>
    /** The requests handed back by a shutdown, once the car has reported one. */
    var shutdownReport: Option<seq<Request>>

    /** The queue is consistent; outside IDLE there is a primary request, and it can be served. */
    ghost predicate Valid()
      reads this, subsystem
    {
      && subsystem.Valid()
      && (currentState != Idle ==> primaryRequest.Some?)
      && (primaryRequest.Some? ==> Serviceable(primaryRequest.value))
    }

    /** A new car: IDLE at floor 1, no direction, no primary request, motor off, door open. */
    constructor (subsystem: ElevatorSubsystem, elevatorId: int, boardingTimePerPassenger: int, transientFaultTime: int)
      requires subsystem.Valid()
      ensures Valid()
      ensures this.subsystem == subsystem && this.elevatorId == elevatorId
      ensures this.boardingTimePerPassenger == boardingTimePerPassenger && this.transientFaultTime == transientFaultTime
      ensures currentState == Idle && direction == Stopped && floorNumber == 1
      ensures primaryRequest == None && !motorRunning && doorOpen
      ensures timing == [] && floorMessages == [] && shutdownReport == None
    {
      this.subsystem := subsystem;
      this.elevatorId := elevatorId;
      this.boardingTimePerPassenger := boardingTimePerPassenger;
      this.transientFaultTime := transientFaultTime;
      currentState := Idle;
      direction := Stopped;
      floorNumber := 1;
      primaryRequest := None;
      motorRunning := false;
      doorOpen := true;
      timing, floorMessages, shutdownReport := [], [], None;
    }

    /** getNextFloorNumber: one floor up when going UP, one floor down otherwise (STOPPED included). */
    function NextFloorNumber(): (next: int)
      reads this
      ensures next == floorNumber + 1 <==> direction == Up
      ensures next == floorNumber - 1 <==> direction != Up
    {
      if direction == Up then floorNumber + 1 else floorNumber - 1
    }

    /**
     * IDLE: the direction is reset, the car asks its queue once for a primary request; with
     * one, it heads toward that request's current target and goes to CLOSE_DOOR; without,
     * it stays IDLE (the next step asks again). The floor never changes.
     */
    method HandleIdle()
      requires Valid() && currentState == Idle
      modifies this, subsystem
      ensures Valid()
      ensures floorNumber == old(floorNumber) && doorOpen == old(doorOpen) && motorRunning == old(motorRunning)
      ensures timing == old(timing) && floorMessages == old(floorMessages) && shutdownReport == old(shutdownReport)
      ensures subsystem.elevatorLamps == old(subsystem.elevatorLamps)
      ensures NextPrimary(old(subsystem.upRequests), old(subsystem.downRequests)).None? ==>
        && primaryRequest.None? && currentState == Idle && direction == Stopped
        && subsystem.upRequests == old(subsystem.upRequests) && subsystem.downRequests == old(subsystem.downRequests)
      ensures NextPrimary(old(subsystem.upRequests), old(subsystem.downRequests)).Some? ==>
        var s := NextPrimary(old(subsystem.upRequests), old(subsystem.downRequests)).value;
        && primaryRequest == Some(s.primary) && currentState == CloseDoor
        && direction == DirectionToward(CurrentTargetFloor(s.primary), floorNumber)
        && subsystem.upRequests == s.up && subsystem.downRequests == s.down
    {
      direction := Stopped;
      primaryRequest := subsystem.ReceiveNewPrimaryRequest();
      if primaryRequest.Some? {
        direction := DirectionToward(CurrentTargetFloor(primaryRequest.value), floorNumber);
        currentState := CloseDoor;
      }
    }

    /**
     * CLOSE_DOOR: when the primary request's passenger waits on this floor, either the car
     * is full and the primary request is switched (the queue as switchPrimaryRequest leaves
     * it), or the passenger boards (picked up, lamp on); the direction follows the primary
     * request in both cases. Then the passengers at this floor in this direction board and
     * light their lamps, the door closes after its delay, the direction lamp goes off and the
     * car goes to MOVING.
     */
    method HandleCloseDoor(c: Collaborators)
      requires Valid() && currentState == CloseDoor
      requires BoardsAt(primaryRequest.value, floorNumber) && c.atMaxCapacity ==> SwitchUsable(c)
      modifies this`primaryRequest, this`direction, this`doorOpen, this`currentState, this`timing, this`floorMessages, subsystem
      ensures Valid()
      ensures currentState == Moving && !doorOpen
      ensures floorNumber == old(floorNumber) && motorRunning == old(motorRunning) && shutdownReport == old(shutdownReport)
      ensures var p := old(primaryRequest.value);
        && (BoardsAt(p, floorNumber) && c.atMaxCapacity ==>
              primaryRequest == Some(c.switchedPrimary) && Some(direction) == DirectionOf(c.switchedPrimary))
        && (BoardsAt(p, floorNumber) && !c.atMaxCapacity ==>
              && primaryRequest == Some(WithStatus(p, PassengerPickedUp)) && Some(direction) == DirectionOf(p)
              && subsystem.elevatorLamps[p.carButton - 1])
        && (!BoardsAt(p, floorNumber) ==> primaryRequest == old(primaryRequest) && direction == old(direction))
      ensures var switched := BoardsAt(old(primaryRequest.value), floorNumber) && c.atMaxCapacity;
        var up0 := if switched then c.switchedUp else old(subsystem.upRequests);
        var down0 := if switched then c.switchedDown else old(subsystem.downRequests);
        && (direction == Up ==> subsystem.upRequests == PickedUp(up0, floorNumber) && subsystem.downRequests == down0)
        && (direction != Up ==> subsystem.downRequests == PickedUp(down0, floorNumber) && subsystem.upRequests == up0)
      ensures var p := old(primaryRequest.value);
        var switched := BoardsAt(p, floorNumber) && c.atMaxCapacity;
        var lamps0 := if BoardsAt(p, floorNumber) && !c.atMaxCapacity
                      then old(subsystem.elevatorLamps)[p.carButton - 1 := true] else old(subsystem.elevatorLamps);
        var rs0 := if direction == Up then (if switched then c.switchedUp else old(subsystem.upRequests))
                   else (if switched then c.switchedDown else old(subsystem.downRequests));
        subsystem.elevatorLamps == LampsAfterPickUp(lamps0, rs0, floorNumber)
      ensures var delay := CloseDelay(c.boardingCount, boardingTimePerPassenger);
        timing == old(timing) + [SetDeadline(delay), SetTime(delay), SetTotalTime(delay)]
      ensures floorMessages == old(floorMessages) + [LampUpdate(SetFloorDirectionLamps, floorNumber, Some(direction), false, elevatorId)]
    {
      BoardAtFloor(c);
      var delay := CloseDelay(c.boardingCount, boardingTimePerPassenger);
      doorOpen, currentState, timing, floorMessages :=
        false, Moving,
        timing + [SetDeadline(delay), SetTime(delay), SetTotalTime(delay)],
        floorMessages + [LampUpdate(SetFloorDirectionLamps, floorNumber, Some(direction), false, elevatorId)];
    }

    /**
     * The boarding half of CLOSE_DOOR: the boarding decision for the primary request, then
     * the pick-up at this floor in the direction that decision leaves.
     */
    method BoardAtFloor(c: Collaborators)
      requires Valid() && currentState == CloseDoor
      requires BoardsAt(primaryRequest.value, floorNumber) && c.atMaxCapacity ==> SwitchUsable(c)
      modifies this`primaryRequest, this`direction, subsystem
      ensures Valid()
      ensures var p := old(primaryRequest.value);
        && (BoardsAt(p, floorNumber) && c.atMaxCapacity ==>
              primaryRequest == Some(c.switchedPrimary) && Some(direction) == DirectionOf(c.switchedPrimary))
        && (BoardsAt(p, floorNumber) && !c.atMaxCapacity ==>
              && primaryRequest == Some(WithStatus(p, PassengerPickedUp)) && Some(direction) == DirectionOf(p)
              && subsystem.elevatorLamps[p.carButton - 1])
        && (!BoardsAt(p, floorNumber) ==> primaryRequest == old(primaryRequest) && direction == old(direction))
      ensures var switched := BoardsAt(old(primaryRequest.value), floorNumber) && c.atMaxCapacity;
        var up0 := if switched then c.switchedUp else old(subsystem.upRequests);
        var down0 := if switched then c.switchedDown else old(subsystem.downRequests);
        && (direction == Up ==> subsystem.upRequests == PickedUp(up0, floorNumber) && subsystem.downRequests == down0)
        && (direction != Up ==> subsystem.downRequests == PickedUp(down0, floorNumber) && subsystem.upRequests == up0)
      ensures var p := old(primaryRequest.value);
        var switched := BoardsAt(p, floorNumber) && c.atMaxCapacity;
        var lamps0 := if BoardsAt(p, floorNumber) && !c.atMaxCapacity
                      then old(subsystem.elevatorLamps)[p.carButton - 1 := true] else old(subsystem.elevatorLamps);
        var rs0 := if direction == Up then (if switched then c.switchedUp else old(subsystem.upRequests))
                   else (if switched then c.switchedDown else old(subsystem.downRequests));
        subsystem.elevatorLamps == LampsAfterPickUp(lamps0, rs0, floorNumber)
    {
      BoardPrimary(c);
      subsystem.ProcessRequestsAtCurrentFloor(floorNumber, direction);
    }

    /**
     * The boarding decision of CLOSE_DOOR: when the primary request's passenger waits on
     * this floor, a full car switches to the request switchPrimaryRequest returns, and the
     * queue's lists become the ones it leaves (the waiting flag follows them); otherwise the
     * passenger boards and the destination lamp goes on, and the lists are not touched. The
     * direction then follows the primary request.
     */
    method BoardPrimary(c: Collaborators)
      requires Valid() && currentState == CloseDoor
      requires BoardsAt(primaryRequest.value, floorNumber) && c.atMaxCapacity ==> SwitchUsable(c)
      modifies this`primaryRequest, this`direction, subsystem
      ensures Valid()
      ensures var p := old(primaryRequest.value);
        && (BoardsAt(p, floorNumber) && c.atMaxCapacity ==>
              && primaryRequest == Some(c.switchedPrimary) && Some(direction) == DirectionOf(c.switchedPrimary)
              && subsystem.upRequests == c.switchedUp && subsystem.downRequests == c.switchedDown
              && subsystem.elevatorLamps == old(subsystem.elevatorLamps))
        && (BoardsAt(p, floorNumber) && !c.atMaxCapacity ==>
              && primaryRequest == Some(WithStatus(p, PassengerPickedUp)) && Some(direction) == DirectionOf(p)
              && subsystem.upRequests == old(subsystem.upRequests) && subsystem.downRequests == old(subsystem.downRequests)
              && subsystem.elevatorLamps == old(subsystem.elevatorLamps)[p.carButton - 1 := true])
        && (!BoardsAt(p, floorNumber) ==>
              && primaryRequest == old(primaryRequest) && direction == old(direction)
              && subsystem.upRequests == old(subsystem.upRequests) && subsystem.downRequests == old(subsystem.downRequests)
              && subsystem.elevatorLamps == old(subsystem.elevatorLamps))
    {
      var p := primaryRequest.value;
      if CurrentTargetFloor(p) == floorNumber && p.status == Pending {
        if c.atMaxCapacity {
          primaryRequest, direction := Some(c.switchedPrimary), DirectionOf(c.switchedPrimary).value;
          subsystem.upRequests, subsystem.downRequests := c.switchedUp, c.switchedDown;
          subsystem.hasWaitingRequests := |c.switchedUp| + |c.switchedDown| > 0;
        } else {
          primaryRequest, direction := Some(WithStatus(p, PassengerPickedUp)), DirectionOf(p).value;
          subsystem.SetElevatorLamps(p.carButton, true);
        }
      }
    }

    /**
     * MOVING: with the motor on, the car steps one floor at a time in its direction, asking
     * its queue at each next floor whether a stop is required, until it reaches the primary
     * target or such a floor (at least one step). Then, on a hard fault or when the time is
     * past the deadline, it reports the requests it cannot serve and turns the motor off
     * without changing state; otherwise it turns the motor off and goes to OPEN_DOOR.
     */
    method HandleMoving(c: Collaborators)
      requires Valid() && currentState == Moving
      requires Ahead(floorNumber, direction, CurrentTargetFloor(primaryRequest.value))
      modifies this
      ensures Valid()
      ensures direction == old(direction) && primaryRequest == old(primaryRequest) && doorOpen == old(doorOpen)
      ensures var rs := subsystem.RequestsFor(direction);
        floorNumber == StopFloor(old(floorNumber), direction, CurrentTargetFloor(old(primaryRequest.value)), rs)
      ensures timing == old(timing) + MovingTiming(Gap(old(floorNumber), direction, floorNumber))
      ensures floorMessages == old(floorMessages) && !motorRunning
      ensures c.hardFault || c.timeExceedsDeadline ==>
        && currentState == Moving
        && shutdownReport == Some(ShutdownRequests(subsystem.upRequests, subsystem.downRequests, primaryRequest.value))
      ensures !(c.hardFault || c.timeExceedsDeadline) ==> currentState == OpenDoor && shutdownReport == old(shutdownReport)
    {
      var d, p := direction, primaryRequest.value;
      var floor := Travel(floorNumber, d, CurrentTargetFloor(p));
      var report, next := shutdownReport, OpenDoor;
      if c.hardFault || c.timeExceedsDeadline {
        var waiting := subsystem.GetWaitingRequests();
        report, next := Some(waiting + (if p.status != PassengerPickedUp then [p] else [])), Moving;
      }
      floorNumber, motorRunning, shutdownReport, currentState, timing :=
        floor, false, report, next, timing + MovingTiming(Gap(floorNumber, d, floor));
    }

    /**
     * The do-while loop of MOVING: from `start`, step to the next floor in direction `d`,
     * ask the queue whether a stop is required there (answered as one byte), and go on
     * until that floor is `target` or a stop is required.
     */
    method Travel(start: int, d: Direction, target: int) returns (floor: int)
      requires Ahead(start, d, target)
      ensures floor == StopFloor(start, d, target, subsystem.RequestsFor(d))
    {
      ghost var rs := subsystem.RequestsFor(d);
      floor := start;
      var moving := true;
      while moving
        invariant moving ==> Ahead(floor, d, target) && StopFloor(start, d, target, rs) == StopFloor(floor, d, target, rs)
        invariant !moving ==> floor == StopFloor(start, d, target, rs)
        decreases if moving then Gap(floor, d, target) + 1 else 0
      {
        var next := floor + Step(d);
        var required := subsystem.IsStopRequiredForFloor(next, d);
        var stopHere := ReadStopReply(StopReply(required));
        floor := next;
        moving := target != next && !stopHere;
      }
    }

    /**
     * OPEN_DOOR: the door opens (twice as slowly, then after a wait once more, with a
     * transient door fault, so the fault never stops the car), the passengers delivered at
     * this floor in this direction leave the queue, and the primary request is examined.
     * If it is complete, its lamp goes off and the next primary request is taken from the
     * queue: none sends the car to IDLE; one sets the direction toward it and sends the car
     * to CLOSE_DOOR. If it is not complete, the car goes to CLOSE_DOOR in the same direction.
     * Unless the car goes IDLE, the floor lamp goes off and the direction lamp on.
     */
    method HandleOpenDoor(c: Collaborators)
      requires Valid() && currentState == OpenDoor
      modifies this`timing, this`doorOpen, this`primaryRequest, this`direction, this`currentState, this`floorMessages, subsystem
      ensures Valid()
      ensures doorOpen && floorNumber == old(floorNumber) && motorRunning == old(motorRunning)
      ensures shutdownReport == old(shutdownReport)
      ensures timing == old(timing) + OpenTiming(c.transientFault, transientFaultTime, c.unboardingCount * boardingTimePerPassenger)
      ensures var d, p := old(direction), old(primaryRequest.value);
        var up1 := if d == Up then Kept(old(subsystem.upRequests), floorNumber) else old(subsystem.upRequests);
        var down1 := if d != Up then Kept(old(subsystem.downRequests), floorNumber) else old(subsystem.downRequests);
        && (!CompletesAt(p, floorNumber) ==>
              && currentState == CloseDoor && direction == d && primaryRequest == old(primaryRequest)
              && subsystem.upRequests == up1 && subsystem.downRequests == down1)
        && (CompletesAt(p, floorNumber) && NextPrimary(up1, down1).None? ==>
              && currentState == Idle && direction == d && primaryRequest.None?
              && subsystem.upRequests == up1 && subsystem.downRequests == down1)
        && (CompletesAt(p, floorNumber) && NextPrimary(up1, down1).Some? ==>
              var s := NextPrimary(up1, down1).value;
              && currentState == CloseDoor && primaryRequest == Some(s.primary)
              && direction == DirectionAfterStop(CurrentTargetFloor(s.primary), floorNumber)
              && subsystem.upRequests == s.up && subsystem.downRequests == s.down)
      ensures var p, rs := old(primaryRequest.value), old(subsystem.RequestsFor(direction));
        && (CompletesAt(p, floorNumber) ==> subsystem.elevatorLamps == old(subsystem.elevatorLamps)[floorNumber - 1 := false])
        && (!CompletesAt(p, floorNumber) ==>
              subsystem.elevatorLamps == if SomeCompletes(rs, |rs|, floorNumber)
                                         then old(subsystem.elevatorLamps)[floorNumber - 1 := false]
                                         else old(subsystem.elevatorLamps))
      ensures currentState == Idle ==> floorMessages == old(floorMessages)
      ensures currentState == CloseDoor ==>
        floorMessages == old(floorMessages) + [LampUpdate(SetFloorLamps, floorNumber, Some(direction), false, elevatorId),
                                               LampUpdate(SetFloorDirectionLamps, floorNumber, Some(direction), true, elevatorId)]
    {
      timing, doorOpen := timing + OpenTiming(c.transientFault, transientFaultTime, c.unboardingCount * boardingTimePerPassenger), true;
      ghost var lamps, p := subsystem.elevatorLamps, primaryRequest.value;
      subsystem.ProcessCompletedRequests(floorNumber, direction);
      ghost var delivered := subsystem.elevatorLamps;
      ExaminePrimary();
      if CompletesAt(p, floorNumber) {
        LampOffTwice(lamps, floorNumber - 1);
      }
    }

    /**
     * The second half of OPEN_DOOR, once the delivered passengers have left the queue: a
     * completed primary request is replaced by the next one from the queue (IDLE if there is
     * none, otherwise CLOSE_DOOR toward it); an incomplete one keeps the car's direction and
     * sends it to CLOSE_DOOR. Unless the car goes IDLE, the floor lamp goes off and the
     * direction lamp on.
     */
    method ExaminePrimary()
      requires Valid() && primaryRequest.Some?
      modifies this`primaryRequest, this`direction, this`currentState, this`floorMessages, subsystem
      ensures Valid()
      ensures var d, p, up, down := old(direction), old(primaryRequest.value), old(subsystem.upRequests), old(subsystem.downRequests);
        && (!CompletesAt(p, floorNumber) ==>
              && currentState == CloseDoor && direction == d && primaryRequest == old(primaryRequest)
              && subsystem.upRequests == up && subsystem.downRequests == down)
        && (CompletesAt(p, floorNumber) ==> subsystem.elevatorLamps == old(subsystem.elevatorLamps)[p.carButton - 1 := false])
        && (!CompletesAt(p, floorNumber) ==> subsystem.elevatorLamps == old(subsystem.elevatorLamps))
        && (CompletesAt(p, floorNumber) && NextPrimary(up, down).None? ==>
              && currentState == Idle && direction == d && primaryRequest.None?
              && subsystem.upRequests == up && subsystem.downRequests == down)
        && (CompletesAt(p, floorNumber) && NextPrimary(up, down).Some? ==>
              var s := NextPrimary(up, down).value;
              && currentState == CloseDoor && primaryRequest == Some(s.primary)
              && direction == DirectionAfterStop(CurrentTargetFloor(s.primary), floorNumber)
              && subsystem.upRequests == s.up && subsystem.downRequests == s.down)
      ensures currentState == Idle ==> floorMessages == old(floorMessages)
      ensures currentState == CloseDoor ==>
        floorMessages == old(floorMessages) + [LampUpdate(SetFloorLamps, floorNumber, Some(direction), false, elevatorId),
                                               LampUpdate(SetFloorDirectionLamps, floorNumber, Some(direction), true, elevatorId)]
    {
      var d, p := direction, primaryRequest.value;
      var primary := primaryRequest;
      if CurrentTargetFloor(p) == floorNumber && p.status == PassengerPickedUp {
        primary := ReleasePrimary();
        if primary.None? {
          primaryRequest, currentState := None, Idle;
          return;
        }
        d := DirectionAfterStop(CurrentTargetFloor(primary.value), floorNumber);
      }
      primaryRequest, direction, currentState, floorMessages :=
        primary, d, CloseDoor,
        floorMessages + [LampUpdate(SetFloorLamps, floorNumber, Some(d), false, elevatorId),
                         LampUpdate(SetFloorDirectionLamps, floorNumber, Some(d), true, elevatorId)];
    }

    /**
     * A completed primary request: its destination lamp goes off and the next primary
     * request is taken from the queue (none when the queue is empty).
     */
    method ReleasePrimary() returns (next: Option<Request>)
      requires Valid() && primaryRequest.Some?
      modifies subsystem
      ensures subsystem.Valid()
      ensures subsystem.elevatorLamps == old(subsystem.elevatorLamps)[old(primaryRequest.value.carButton) - 1 := false]
      ensures NextPrimary(old(subsystem.upRequests), old(subsystem.downRequests)).None? ==>
        && next.None?
        && subsystem.upRequests == old(subsystem.upRequests) && subsystem.downRequests == old(subsystem.downRequests)
      ensures NextPrimary(old(subsystem.upRequests), old(subsystem.downRequests)).Some? ==>
        var s := NextPrimary(old(subsystem.upRequests), old(subsystem.downRequests)).value;
        next == Some(s.primary) && subsystem.upRequests == s.up && subsystem.downRequests == s.down
      ensures next.Some? ==> Serviceable(next.value)
    {
      subsystem.SetElevatorLamps(primaryRequest.value.carButton, false);
      next := subsystem.ReceiveNewPrimaryRequest();
    }

    /**
     * processState: runs the handler of the current state. Every step follows the cycle
     * IDLE -> CLOSE_DOOR -> MOVING -> OPEN_DOOR -> CLOSE_DOOR or IDLE, IDLE may wait in
     * place, and MOVING stays put only when it has reported a shutdown.
     */
    method ProcessState(c: Collaborators)
      requires Valid()
      requires currentState == CloseDoor && BoardsAt(primaryRequest.value, floorNumber) && c.atMaxCapacity ==> SwitchUsable(c)
      requires currentState == Moving ==> Ahead(floorNumber, direction, CurrentTargetFloor(primaryRequest.value))
      modifies this, subsystem
      ensures Valid()
      ensures Transition(old(currentState), currentState)
      ensures old(currentState) == Moving && currentState == Moving ==> shutdownReport.Some?
    {
      match currentState {
        case Idle => HandleIdle();
        case CloseDoor => HandleCloseDoor(c);
        case Moving => HandleMoving(c);
        case OpenDoor => HandleOpenDoor(c);
      }
    }
  }
}
