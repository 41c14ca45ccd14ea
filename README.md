# Elevator simulator: a verified model of its core

This project models the core of a Java elevator simulator in Dafny. The simulator has three
processes: a floor subsystem that replays hall calls, a scheduler that dispatches them, and one
controller per car. They talk in `SystemRequest` envelopes. The model covers:

- the per-car request queue (`ElevatorSubsystem`): two ordered lists of requests, one per travel
  direction, the in-car button lamps, pick-up and drop-off at a floor, the choice of the next
  primary request, the stop question and the fault query;
- the car's state machine (`Elevator` and its `IdleState`, `CloseDoorState`, `MovingState` and
  `OpenDoorState`): IDLE → CLOSE_DOOR → MOVING → OPEN_DOOR → CLOSE_DOOR or IDLE, with the timing
  calls each state makes;
- the request value (`ElevatorRequest`): its status, its current target and its direction;
- the status snapshot a car reports (`ElevatorStatus`);
- the message envelope (`SystemRequest`): its constructors, its text rendering and the one-byte
  stop answer;
- the dispatcher (`Scheduler`): the choice of a car for a new hall call, and where each message is
  forwarded;
- one floor (`Floor`): hall calls held per direction until due, the hall lamps and the direction
  lamps;
- `count_running_time` from the timing-diagram script: the maximal runs of a state in a trace.

Modules follow the source:

| file | module | models |
|---|---|---|
| `common.dfy` | `Wrappers`, `Common`, `Requests` | option type, enums and constants, the request value |
| `queue.dfy` | `RequestQueue` | `ElevatorSubsystem` |
| `status.dfy` | `Status` | `ElevatorStatus` |
| `protocol.dfy` | `Protocol` | `SystemRequest`, `SystemRequestType` |
| `elevator.dfy` | `Car` | `Elevator` and its four states |
| `scheduler.dfy` | `Dispatcher` | `Scheduler` |
| `floor.dfy` | `Floors` | `Floor` |
| `timing.dfy` | `RunningTime` | `count_running_time` |

Objects whose fields the source updates in place are classes:

- the queue (`ElevatorSubsystem`), whose lists are `seq` fields that its methods reassign;
- the car (`Elevator`);
- the floor (`Floor`), whose direction lamps are a two-dimensional array;
- the scheduler (`Scheduler`), whose port table is an array.

Requests, statuses and envelopes are values. The loops of the modelled operations are methods with
loops, each proved equal to a function. There are two exceptions: IDLE's poll is one attempt per
step, and the scheduler's gathering of statuses is a parameter. The properties the source
promises are stated as lemmas about those functions.

The state classes call some helpers that neither `Elevator.java` nor `ElevatorSubsystem.java`
defines. Their answers are inputs of each step (`Car.Collaborators`):

- capacity;
- switchPrimaryRequest: the request it hands back, and the queue's two lists as it leaves them;
- the boarding and unboarding counters;
- the transient and hard fault checks;
- the deadline comparison.

The timing helpers (setTime, setDeadline, setTotalTime, synchDeadline) are recorded, in order, as
a list of calls. One possible reading of them (`Car.Replay`) is studied on its own in
`Car.MovingNeverLate`.

## Model

| member | source | states |
|---|---|---|
| Requests.NewRequest | src/Common/ElevatorRequest.java:30-36 | a new request is PENDING and carries exactly the given time, floor, hall button, car button and fault |
| Requests.WithStatus | src/Common/ElevatorRequest.java:50-52 | setStatus changes the status and no other field |
| Requests.CurrentTargetFloor | src/Common/ElevatorRequest.java:84-89 | the target is the origin while pending and the destination once picked up |
| Requests.DirectionOf | src/Common/ElevatorRequest.java:95-102 | null exactly when origin and destination coincide, UP exactly when the destination is above, DOWN exactly when below, never STOPPED |
| Requests.DirectionIgnoresStatus | src/Common/ElevatorRequest.java:95-102 | changing the status changes neither the direction nor well-formedness |
| Requests.PickedUpTargetFollowsDirection | src/Common/ElevatorRequest.java:84-102 | for a picked-up request, the direction is UP iff the target is above the origin, and DOWN iff it is below |
| Status.StopRequestFloorsInDirection | src/Common/ElevatorStatus.java:55-57 | the going-up list for UP, the going-down list for every other argument including null |
| RequestQueue.Kept | src/Elevator/ElevatorSubsystem.java:114-136 | drop-off never lengthens a list |
| RequestQueue.KeptMembers | src/Elevator/ElevatorSubsystem.java:114-136 | a request stays after a drop-off at a floor iff it was there and is not a picked-up request destined for that floor |
| RequestQueue.PickedUp | src/Elevator/ElevatorSubsystem.java:151-169 | same length; exactly the pending requests whose origin is the floor become picked up, every other request is unchanged |
| RequestQueue.PickedUpKeepsShape | src/Elevator/ElevatorSubsystem.java:151-169 | a pick-up changes no request's direction and no destination button |
| RequestQueue.Waiting | src/Elevator/ElevatorSubsystem.java:260-275 | a request is kept iff it is in the list and not yet picked up |
| RequestQueue.PendingOrigins | src/Elevator/ElevatorSubsystem.java:51-61 | a floor is listed iff some pending request of the list has it as its origin |
| RequestQueue.FirstPickedUp | src/Elevator/ElevatorSubsystem.java:194-205 | the position of the first picked-up request; none iff no request is picked up |
| RequestQueue.RemoveAt | src/Elevator/ElevatorSubsystem.java:198-212 | ArrayList.remove(i): one element shorter, the same multiset minus `s[i]`, the order kept |
| RequestQueue.NextPrimary | src/Elevator/ElevatorSubsystem.java:180-214 | a primary request is found iff some list is non-empty |
| RequestQueue.NextPrimaryTakesOne | src/Elevator/ElevatorSubsystem.java:180-214 | taking the primary request removes exactly that request from one list, and loses and adds nothing |
| RequestQueue.NextPrimaryKeepsShape | src/Elevator/ElevatorSubsystem.java:180-214 | the remaining lists still hold only requests of their direction, each with a lamp |
| RequestQueue.NextPrimaryPrefersBoarded | src/Elevator/ElevatorSubsystem.java:194-213 | a picked-up request is chosen whenever one is queued, the up list first; otherwise the head of the up list, then that of the down list |
| RequestQueue.ElevatorSubsystem.constructor | src/Elevator/ElevatorSubsystem.java:35-43 | empty lists, no waiting work, every lamp off |
| RequestQueue.ElevatorSubsystem.GetStopRequestFloorsInDirection | src/Elevator/ElevatorSubsystem.java:51-61 | returns the origins of the pending requests of the direction's list, in order |
| RequestQueue.ElevatorSubsystem.AddNewRequest | src/Elevator/ElevatorSubsystem.java:68-74 | appends the request to the list of its direction only, and sets the waiting flag |
| RequestQueue.ElevatorSubsystem.SetElevatorLamps | src/Elevator/ElevatorSubsystem.java:91-98 | changes exactly the lamp of the given button |
| RequestQueue.ElevatorSubsystem.ProcessCompletedRequests | src/Elevator/ElevatorSubsystem.java:108-141 | the direction's list loses exactly the requests completed at the floor, in order; their lamp goes off; the flag clears once both lists are empty |
| RequestQueue.ElevatorSubsystem.ProcessRequestsAtCurrentFloor | src/Elevator/ElevatorSubsystem.java:151-169 | in the direction's list the requests boarding at the floor become picked up and light their destination lamps; the other list is untouched |
| RequestQueue.ElevatorSubsystem.ReceiveNewPrimaryRequest | src/Elevator/ElevatorSubsystem.java:180-214 | returns and removes the request NextPrimary selects; null and no change when both lists are empty |
| RequestQueue.ElevatorSubsystem.IsStopRequiredForFloor | src/Elevator/ElevatorSubsystem.java:224-242 | true iff some request of the direction's list has that floor as its current target |
| RequestQueue.ElevatorSubsystem.HasFault | src/Elevator/ElevatorSubsystem.java:244-258 | true iff some picked-up request in either list carries the fault and is destined for the floor |
| RequestQueue.ElevatorSubsystem.GetWaitingRequests | src/Elevator/ElevatorSubsystem.java:260-275 | the requests not yet picked up, those of the up list first |
| RequestQueue.TakeNextPrimary | src/Elevator/ElevatorSubsystem.java:180-214 | the scans and removals compute NextPrimary |
| RequestQueue.WaitingIn | src/Elevator/ElevatorSubsystem.java:263-273 | the scan of one list computes Waiting |
| RequestQueue.FindFirstPickedUp | src/Elevator/ElevatorSubsystem.java:194-205 | the search loop computes FirstPickedUp |
| RequestQueue.PickUpAt | src/Elevator/ElevatorSubsystem.java:151-169 | the loop computes PickedUp and lights lamp j iff it was on or someone boarding pressed j + 1 |
| RequestQueue.RemoveCompletedAt | src/Elevator/ElevatorSubsystem.java:114-136 | the removal loop computes Kept, and lamp `floor` goes off iff some request completed there |
| Car.DirectionToward | src/Elevator/IdleState.java:58-64 | STOPPED iff at the target, UP iff the target is above, DOWN iff it is below |
| Car.DirectionAfterStop | src/Elevator/OpenDoorState.java:111-115 | UP iff the new target is above, DOWN otherwise |
| Car.Step | src/Elevator/Elevator.java:63-68 | +1 exactly for UP, -1 for every other direction |
| Car.StopFloor | src/Elevator/MovingState.java:58-78 | the stop lies ahead and not past the target; it is the target or a floor where the queue needs a stop; no floor passed before it is either |
| Car.TravelTiming | src/Elevator/MovingState.java:64-72 | two timing calls per floor travelled |
| Car.ReplayAppend | src/Elevator/MovingState.java:46-85 | replaying two runs of timing calls in turn is replaying their concatenation |
| Car.TravelSlack | src/Elevator/MovingState.java:64-72 | n floors of travel add n incremental move times to the time and 1.5 times that to the deadline |
| Car.MovingNeverLate | src/Elevator/MovingState.java:46-89 | under the accumulating reading, a MOVING pass over n floors ends 2881 + 1120 n ms before its deadline |
| Car.ShutdownRequests | src/Elevator/MovingState.java:89-105 | a request is handed back iff it is queued or primary and not yet picked up |
| Car.Elevator.constructor | src/Elevator/Elevator.java:43-56 | IDLE at floor 1, STOPPED, no primary request, motor off, door open |
| Car.Elevator.NextFloorNumber | src/Elevator/Elevator.java:63-68 | the floor above iff going UP, the floor below otherwise |
| Car.Elevator.HandleIdle | src/Elevator/IdleState.java:34-70 | takes NextPrimary from the queue; with one, heads toward its target and goes to CLOSE_DOOR; without one, stays IDLE and changes nothing |
| Car.Elevator.HandleCloseDoor | src/Elevator/CloseDoorState.java:37-82 | the primary request boards or is switched; in the direction's list (the switched lists after a switch) the passengers at this floor board; the lamps are those LampsAfterPickUp gives on top of the primary's; the close delay is timed, the door closes, the direction lamp goes off, and the car goes to MOVING |
| Car.Elevator.BoardAtFloor | src/Elevator/CloseDoorState.java:43-62 | the boarding half of CLOSE_DOOR: the primary request boards or is switched, then in the direction's list (the switched lists after a switch) exactly the passengers at this floor board; the lamps are those LampsAfterPickUp gives on top of the primary's; the door, timing, state and messages are untouched |
| Car.Elevator.BoardPrimary | src/Elevator/CloseDoorState.java:44-57 | a waiting primary passenger boards when the car has room, with only its lamp turned on and the lists untouched; when the car is full, the primary request and the lists become those switchPrimaryRequest gives; the direction then follows the primary request |
| Car.Elevator.HandleMoving | src/Elevator/MovingState.java:36-111 | the car ends at StopFloor with the MOVING timing calls and the motor off; it goes to OPEN_DOOR unless a fault or lateness makes it report the unserved requests and stay |
| Car.Elevator.Travel | src/Elevator/MovingState.java:58-78 | the do-while loop stops at StopFloor for the queue of the travel direction |
| Car.Elevator.HandleOpenDoor | src/Elevator/OpenDoorState.java:39-147 | the OPEN_DOOR timing calls, the door opens, delivered passengers leave the queue, then ExaminePrimary; lamp `floor` goes off iff the primary or a queued request completes here, and every other lamp stays |
| Car.Elevator.ExaminePrimary | src/Elevator/OpenDoorState.java:84-145 | a completed primary request turns off its lamp only and is replaced by NextPrimary (IDLE if none, otherwise CLOSE_DOOR toward it); an incomplete one keeps the direction and every lamp; the lamp messages are sent unless the car goes IDLE |
| Car.Elevator.ReleasePrimary | src/Elevator/OpenDoorState.java:84-100 | exactly the completed request's lamp goes off, and NextPrimary is taken from the queue |
| Car.Elevator.ProcessState | src/Elevator/Elevator.java:73-228 | each step follows the state cycle, and MOVING stays put only after reporting a shutdown |
| Protocol.OfKind | src/Common/SystemRequest.java:34-37 | only the type is set, every other field keeps its default |
| Protocol.WithRequest | src/Common/SystemRequest.java:42-46 | type, request and id are set, the rest keep their defaults |
| Protocol.WithId | src/Common/SystemRequest.java:48-51 | type and id are set, the rest keep their defaults |
| Protocol.AtFloor | src/Common/SystemRequest.java:53-58 | type, floor, direction and id are set, the state stays false |
| Protocol.LampUpdate | src/Common/SystemRequest.java:60-66 | every field except the carried request is set |
| Protocol.DirectionText | src/Common/SystemRequest.java:110-113 | a non-empty word without separators |
| Protocol.IntToString | src/Common/SystemRequest.java:104-117 | a non-empty word that starts with '-' iff the value is negative |
| Protocol.NatToString | src/Common/SystemRequest.java:104-117 | decimal digits only, a single digit iff the value is below 10 |
| Protocol.AfterId | src/Common/SystemRequest.java:110-119 | the text after the id starts with a separator |
| Protocol.AfterDirection | src/Common/SystemRequest.java:115-119 | the text after the direction starts with a separator |
| Protocol.ToStringFrame | src/Common/SystemRequest.java:92-121 | every rendering starts with the header and the type's name and ends with " \|" |
| Protocol.ToStringAddNewRequestExample | test/CommonTest.java:134 | the ADD_NEW_REQUEST rendering the unit test expects |
| Protocol.ToStringRegisterExample | test/CommonTest.java:135 | the REGISTER_ELEVATOR_CONTROLLER rendering the unit test expects |
| Protocol.ToStringStopQuestionExample | test/CommonTest.java:136 | the IS_STOP_REQUIRED rendering the unit test expects |
| Protocol.ToStringFloorLampExample | test/CommonTest.java:137 | the SET_FLOOR_LAMPS rendering the unit test expects |
| Protocol.NatToStringInjective | src/Common/SystemRequest.java:104-117 | different naturals print differently |
| Protocol.IntToStringInjective | src/Common/SystemRequest.java:104-117 | different ints print differently |
| Protocol.DirectionTextInjective | src/Common/SystemRequest.java:110-113 | different directions, null included, print differently |
| Protocol.TailDeterminesRequestText | src/Common/SystemRequest.java:104-106 | equal ADD_NEW_REQUEST tails carry the same request text |
| Protocol.TailDeterminesId | src/Common/SystemRequest.java:106-108 | equal tails of one type carry the same id and the same rest |
| Protocol.AfterIdDeterminesFloor | src/Common/SystemRequest.java:110-113 | equal texts after the id carry the same floor and direction |
| Protocol.AfterDirectionDeterminesState | src/Common/SystemRequest.java:115-117 | equal texts after the direction carry the same lamp state |
| Protocol.ToStringDeterminesFields | src/Common/SystemRequest.java:92-121 | two envelopes of one type that print the same agree on every field that type prints |
| Protocol.StopReply | src/Elevator/ElevatorController.java:89-93 | one byte, 1 iff a stop is required and 0 iff not |
| Protocol.ReadStopReply | src/Elevator/MovingState.java:62 | true iff the first byte is 1 |
| Protocol.StopReplyRoundTrip | src/Elevator/MovingState.java:62 | reading the controller's answer gives back the answer it computed |
| Dispatcher.FirstStopping | src/Scheduler/Scheduler.java:123-127 | the first car whose planned stops include the origin in the request's direction; none iff there is no such car |
| Dispatcher.IdleIndices | src/Scheduler/Scheduler.java:130-135 | exactly the positions of the STOPPED cars, increasing |
| Dispatcher.Candidates | src/Scheduler/Scheduler.java:130-143 | every candidate is a valid position |
| Dispatcher.Distance | src/Scheduler/Scheduler.java:148 | non-negative, and zero iff the car is at the origin |
| Dispatcher.NearestIsEarliestMinimum | src/Scheduler/Scheduler.java:146-156 | the scan gives -1 iff no candidate is below Integer.MAX_VALUE, otherwise the earliest candidate of minimal distance |
| Dispatcher.NearestIsCandidate | src/Scheduler/Scheduler.java:146-156 | the chosen car is a candidate no other candidate beats |
| Dispatcher.SelectBestPrefersPlannedStop | src/Scheduler/Scheduler.java:123-127 | a car already stopping at the origin wins, the first such car in order |
| Dispatcher.SelectBestFindsACar | src/Scheduler/Scheduler.java:113-159 | without a planned stop, -1 iff there is no car, otherwise a valid position |
| Dispatcher.SelectBestPrefersIdle | src/Scheduler/Scheduler.java:130-156 | when some car is idle, an idle car is chosen and no idle car is strictly closer |
| Dispatcher.SelectBestNearestWhenNoneIdle | src/Scheduler/Scheduler.java:138-156 | when every car is moving, no car is strictly closer than the chosen one |
| Dispatcher.SelectBestIsPosition | src/Scheduler/Scheduler.java:113-159 | when ids are positions, the result is -1 or a valid position |
| Dispatcher.SelectBestElevatorNumber | src/Scheduler/Scheduler.java:113-159 | the loops compute SelectBest |
| Dispatcher.CollectCandidates | src/Scheduler/Scheduler.java:130-143 | the loops compute Candidates |
| Dispatcher.ScanNearest | src/Scheduler/Scheduler.java:146-156 | the loop computes Nearest |
| Dispatcher.Scheduler.constructor | src/Scheduler/Scheduler.java:24 | one zeroed port slot per car |
| Dispatcher.Scheduler.AddElevator | src/Scheduler/Scheduler.java:48-50 | only the slot of the given id changes |
| Dispatcher.Scheduler.HandleMessage | src/Scheduler/Scheduler.java:62-103 | hall calls go to the selected car; queue operations go to the named car's port; lamp updates go to the floor controller; only registration changes the port table |
| Floors.FirstDue | src/Floor/Floor.java:71-84 | the position of the first request whose time is before now; none iff no request is due |
| Floors.FindFirstDue | src/Floor/Floor.java:71-84 | the scan loop computes FirstDue |
| Floors.DirectionLampColumn | src/Floor/Floor.java:93-99 | a cell is written iff the direction is UP off the top floor or DOWN off the bottom floor, and it is in column 0 |
| Floors.DirectionLampsShareColumn | src/Floor/Floor.java:93-99 | on a middle floor, UP and DOWN write the same cell |
| Floors.Floor.constructor | src/Floor/Floor.java:42-51 | no requests, lamps off, a NUMBER_OF_ELEVATORS × 2 lamp grid, first iff floor 1 and last iff the top floor |
| Floors.Floor.AddRequest | src/Floor/Floor.java:57-62 | the request is appended to the list of its direction only |
| Floors.Floor.CheckForRequests | src/Floor/Floor.java:68-86 | releases and removes the first due up request and lights the up lamp; otherwise the first due down request and lights the down lamp; otherwise null and no change |
| Floors.Floor.SetDirectionLamp | src/Floor/Floor.java:93-99 | writes exactly the cell DirectionLampColumn picks in the car's row |
| Floors.Floor.SetFloorLamp | src/Floor/Floor.java:106-112 | UP sets the up lamp unless on the top floor, DOWN the down lamp unless on the bottom floor |
| RunningTime.Scan | timing_diagram.py:111-119 | after the loop the open run is the last `count` steps, and the start is recorded iff the count is positive |
| RunningTime.CountRunningTime | timing_diagram.py:96-124 | the loop and the final append compute Runs |
| RunningTime.RunsAreMaximal | timing_diagram.py:96-124 | every reported run is a maximal block of the running value |
| RunningTime.RunsAreSeparated | timing_diagram.py:96-124 | reported runs are in order and never touch |
| RunningTime.RunsCoverEveryRunningStep | timing_diagram.py:96-124 | every running step lies in some reported run |
| RunningTime.RunsCountEveryOccurrence | timing_diagram.py:96-124 | the counts add up to the number of running steps |
| RunningTime.NoRunsIffNeverRunning | timing_diagram.py:96-124 | no run is reported iff the value never occurs |
| RunningTime.FirstExample | timing_diagram.py:100-101 | the first documented example |
| RunningTime.SecondExample | timing_diagram.py:103-104 | the second documented example |

## Left out

- Networking: UDP sockets, the byte serialization of requests, threads, `Thread.sleep`, the display
  windows, logging and file input are not modelled. Where a process forwards a message to another
  and waits for its reply, the model makes a direct call into the receiving object.
- The files directly under `src/` (`Elevator.java`, `Floor.java`, `Scheduler.java`,
  `FloorSubsystem.java`, `Main.java`) are not part of this model. Neither are `FloorSubsystem`,
  `FloorController` and `ElevatorController`, apart from the controller's stop answer.
- Car.Elevator.ProcessState: runs the handlers of the four state classes. The inline switch in
  `Elevator.processState` is an earlier form of the same cycle, and the state classes refine it.
- Car.Elevator.HandleIdle: the do-while poll of IDLE is one attempt per step. An empty reply leaves
  the car IDLE, and the next step asks again.
- Car.Elevator.HandleMoving: requires the primary target to lie strictly ahead in the travel
  direction. The source's do-while instead runs on until it reaches a floor where the queue needs
  a stop, and it never ends when no such floor lies ahead. That case is outside the model.
- Car.Elevator.ProcessState: after a shutdown report the car stays MOVING at the floor where it
  stopped, and the source's run loop calls the MOVING handler again. When that floor is the
  primary target, the next step is outside the model, because its precondition asks for the target
  strictly ahead. The source would walk past the target.
- Car.Elevator.HandleMoving: on a hard fault the state stays MOVING and the handed-back requests are
  recorded in `shutdownReport`. `SystemRequestType` has no constant for the shutdown message the
  source sends.
- Car.Elevator.HandleCloseDoor, Car.Elevator.HandleOpenDoor, Car.Elevator.HandleMoving: capacity,
  switchPrimaryRequest, the passenger counters, the fault checks and the deadline comparison are
  defined neither in `Elevator.java` nor in `ElevatorSubsystem.java`. Their answers are inputs,
  and the timing helpers are only recorded as calls.
- Car.Elevator.BoardPrimary: what switchPrimaryRequest does to the queue is unknown. The model takes
  the two lists it leaves as an input, with the waiting flag following them and the lamps
  untouched. It does not say where the original primary request goes. It requires that the answer
  can be served and that the lists keep the queue's invariant. A null answer would make the
  source throw at `getDirection`.
- Car.MovingNeverLate: proved only for one reading of the timing helpers, in which the setters add
  and synchDeadline copies the time. `Elevator.java` does not define them.
- RequestQueue.ElevatorSubsystem.AddNewRequest: requires a well-formed request whose destination
  has a lamp. A null direction makes the source's switch throw. The source queues a request with an
  out-of-range button and only throws later, in `setElevatorLamps`, when that passenger boards.
  The model rejects such a request on entry, and the queue's invariant keeps every button in range.
- Floors.Floor.AddRequest: requires a well-formed request. A null direction makes the source's
  switch throw.
- Floors.Floor.SetDirectionLamp: requires the car id to be a row of the lamp grid only when the
  direction selects a cell, where the source's array access would throw. For STOPPED, null, UP on
  the top floor or DOWN on the bottom floor the source ignores the id, and so does the model.
- Floors.Floor.CheckForRequests: reads one time `now` for the whole call, while the source reads the
  clock afresh for each request. Times of day are integers.
- Protocol.ToStringDeterminesFields: compares only envelopes of the same type.
- The source's `getUpRequests` and `getDownRequests` call themselves forever. They are not modelled,
  and the model reads the fields directly.
- The fault carried by a request is a field of the request value. `ElevatorRequest.java` declares
  neither a fault field nor `getFault`, which `hasFault` calls.
- Java's 32-bit int arithmetic is not modelled. Floors, ids, ports and times are unbounded integers.
- Dispatcher.Scheduler.HandleMessage: the statuses the scheduler gathers from every car over the
  network are a parameter, one per registered port.
- RunningTime.CountRunningTime: the trace is a sequence of integers. The documented examples
  compare plain integers, although the type hint names tuples.
