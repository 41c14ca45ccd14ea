/**
 * The dispatcher (Scheduler/Scheduler.java): which car gets a new hall call, and where
 * each incoming message is forwarded. The status of every car is gathered over the
 * network in the source; here the statuses are a parameter, one per registered port.
 */
module Dispatcher {
  import opened Wrappers
  import opened Common
  import opened Requests
  import opened Status
  import opened Protocol

  /** Status `s` already plans to stop at the origin of `r` in `r`'s direction. */
  predicate StopsFor(s: ElevatorStatus, r: Request) {
    r.floor in StopRequestFloorsInDirection(s, DirectionOf(r))
  }

  /** Position of the first status that already stops for `r`, if any. */
  function FirstStopping(statuses: seq<ElevatorStatus>, r: Request): (k: Option<nat>)
    ensures k.Some? ==> k.value < |statuses| && StopsFor(statuses[k.value], r)
    ensures k.Some? ==> forall j :: 0 <= j < k.value ==> !StopsFor(statuses[j], r)
    ensures k.None? ==> forall j :: 0 <= j < |statuses| ==> !StopsFor(statuses[j], r)
  {
    if statuses == [] then None
    else if StopsFor(statuses[0], r) then Some(0)
    else match FirstStopping(statuses[1..], r)
      case None => None
      case Some(k) => Some(k + 1)
  }

  /** The positions of the idle (STOPPED) cars, in increasing order. */
  function IdleIndices(statuses: seq<ElevatorStatus>): (idle: seq<int>)
    ensures forall i :: i in idle <==> 0 <= i < |statuses| && statuses[i].direction == Stopped
    ensures forall j :: 0 <= j < |idle| ==> 0 <= idle[j] < |statuses|
    ensures forall a, b :: 0 <= a < b < |idle| ==> idle[a] < idle[b]
  {
    if statuses == [] then []
    else
      var n := |statuses| - 1;
      var init := statuses[..n];
      assert forall i :: 0 <= i < n ==> init[i] == statuses[i];
      var rest := IdleIndices(init);
      assert forall j :: 0 <= j < |rest| ==> rest[j] in rest;
      rest + (if statuses[n].direction == Stopped then [n] else [])
  }

  /** 0, 1, ..., n - 1. */
  function Range(n: nat): (r: seq<int>)
    ensures |r| == n
    ensures forall i :: 0 <= i < n ==> r[i] == i
  {
    if n == 0 then [] else Range(n - 1) + [n - 1]
  }

  /** The cars considered by distance: the idle ones if there are any, otherwise all of them. */
  function Candidates(statuses: seq<ElevatorStatus>): (cands: seq<int>)
    ensures forall j :: 0 <= j < |cands| ==> 0 <= cands[j] < |statuses|
  {
    var idle := IdleIndices(statuses);
    if idle != [] then idle else Range(|statuses|)
  }

  /** Java's Math.abs(floorNumber - origin) for the car at position `i`. */
  function Distance(statuses: seq<ElevatorStatus>, i: int, r: Request): (d: int)
    requires 0 <= i < |statuses|
    ensures d >= 0
    ensures d == 0 <==> statuses[i].floorNumber == r.floor
  {
    if statuses[i].floorNumber >= r.floor then statuses[i].floorNumber - r.floor
    else r.floor - statuses[i].floorNumber
  }

  /**
   * The min-tracking scan over `cands`, as a fold: the best index so far (-1 before any)
   * and the smallest distance so far (Integer.MAX_VALUE before any); a candidate replaces
   * the best only when strictly closer.
   */
  function Nearest(statuses: seq<ElevatorStatus>, r: Request, cands: seq<int>): (best: (int, int))
    requires forall j :: 0 <= j < |cands| ==> 0 <= cands[j] < |statuses|
  {
    if cands == [] then (-1, IntMaxValue)
    else
      var init, c := cands[..|cands| - 1], cands[|cands| - 1];
      assert forall j :: 0 <= j < |init| ==> init[j] == cands[j];
      var (b, m) := Nearest(statuses, r, init);
      var d := Distance(statuses, c, r);
      if d < m then (c, d) else (b, m)
  }

  /**
   * Position `k` of `cands` holds the earliest candidate of minimal distance, and that
   * distance is below Integer.MAX_VALUE.
   */
  predicate EarliestNearest(statuses: seq<ElevatorStatus>, r: Request, cands: seq<int>, k: int)
    requires forall j :: 0 <= j < |cands| ==> 0 <= cands[j] < |statuses|
  {
    && 0 <= k < |cands|
    && Distance(statuses, cands[k], r) < IntMaxValue
    && (forall j :: 0 <= j < |cands| ==> Distance(statuses, cands[k], r) <= Distance(statuses, cands[j], r))
    && (forall j :: 0 <= j < k ==> Distance(statuses, cands[j], r) > Distance(statuses, cands[k], r))
  }

  /**
   * What the scan computes: -1 exactly when no candidate is closer than Integer.MAX_VALUE,
   * and otherwise the earliest candidate of minimal distance (the strict `<` keeps ties
   * with the first one found).
   */
  lemma {:induction false} NearestIsEarliestMinimum(statuses: seq<ElevatorStatus>, r: Request, cands: seq<int>)
    requires forall j :: 0 <= j < |cands| ==> 0 <= cands[j] < |statuses|
    ensures var (b, m) := Nearest(statuses, r, cands);
      && (b == -1 <==> forall j :: 0 <= j < |cands| ==> Distance(statuses, cands[j], r) >= IntMaxValue)
      && (b == -1 ==> m == IntMaxValue)
      && (b != -1 ==> exists k :: EarliestNearest(statuses, r, cands, k) && b == cands[k] && m == Distance(statuses, b, r))
  {
    if cands != [] {
      var init, c := cands[..|cands| - 1], cands[|cands| - 1];
      assert forall j :: 0 <= j < |init| ==> init[j] == cands[j];
      NearestIsEarliestMinimum(statuses, r, init);
      var (b, m) := Nearest(statuses, r, init);
      var d := Distance(statuses, c, r);
      if b != -1 {
        var k :| EarliestNearest(statuses, r, init, k) && b == init[k] && m == Distance(statuses, b, r);
        if d < m {
          assert EarliestNearest(statuses, r, cands, |cands| - 1);
        } else {
          assert EarliestNearest(statuses, r, cands, k);
        }
      } else if d < m {
        assert EarliestNearest(statuses, r, cands, |cands| - 1);
      }
    }
  }

  /**
   * selectBestElevatorNumber: the elevatorId of the first car already stopping at the
   * origin in the request's direction; otherwise the nearest candidate's position.
   */
  function SelectBest(statuses: seq<ElevatorStatus>, r: Request): int
  {
    match FirstStopping(statuses, r)
    case Some(k) => statuses[k].elevatorId
    case None => Nearest(statuses, r, Candidates(statuses)).0
  }

  /** A car that already stops at the origin in the request's direction always wins, the first one in order. */
  lemma SelectBestPrefersPlannedStop(statuses: seq<ElevatorStatus>, r: Request, k: nat)
    requires k < |statuses| && StopsFor(statuses[k], r)
    requires forall j :: 0 <= j < k ==> !StopsFor(statuses[j], r)
    ensures SelectBest(statuses, r) == statuses[k].elevatorId
  {
    var f := FirstStopping(statuses, r);
    assert f.Some?;
    assert f.value == k;
  }

  /** When some candidate is closer than Integer.MAX_VALUE, the scan picks a candidate no other candidate beats. */
  lemma NearestIsCandidate(statuses: seq<ElevatorStatus>, r: Request, cands: seq<int>)
    requires forall j :: 0 <= j < |cands| ==> 0 <= cands[j] < |statuses|
    requires |cands| > 0 && Distance(statuses, cands[0], r) < IntMaxValue
    ensures var b := Nearest(statuses, r, cands).0;
      && 0 <= b < |statuses|
      && (exists k :: 0 <= k < |cands| && cands[k] == b)
      && forall j :: 0 <= j < |cands| ==> Distance(statuses, b, r) <= Distance(statuses, cands[j], r)
  {
    NearestIsEarliestMinimum(statuses, r, cands);
    var b := Nearest(statuses, r, cands).0;
    var k :| EarliestNearest(statuses, r, cands, k) && b == cands[k];
  }

  /** Without a planned stop, some car is chosen exactly when there is at least one car. */
  lemma SelectBestFindsACar(statuses: seq<ElevatorStatus>, r: Request)
    requires FirstStopping(statuses, r).None?
    requires forall i :: 0 <= i < |statuses| ==> Distance(statuses, i, r) < IntMaxValue
    ensures SelectBest(statuses, r) == -1 <==> |statuses| == 0
    ensures SelectBest(statuses, r) != -1 ==> 0 <= SelectBest(statuses, r) < |statuses|
  {
    var cands := Candidates(statuses);
    if |statuses| > 0 {
      var idle := IdleIndices(statuses);
      if idle == [] {
        assert cands[0] == 0;
      } else {
        assert idle[0] in idle;
      }
      NearestIsCandidate(statuses, r, cands);
    }
  }

  /**
   * Without a planned stop, when some car is idle the choice is an idle car, never a
   * moving one, and no idle car is strictly closer.
   */
  lemma SelectBestPrefersIdle(statuses: seq<ElevatorStatus>, r: Request, i: nat)
    requires FirstStopping(statuses, r).None?
    requires forall i :: 0 <= i < |statuses| ==> Distance(statuses, i, r) < IntMaxValue
    requires i < |statuses| && statuses[i].direction == Stopped
    ensures var b := SelectBest(statuses, r);
      && 0 <= b < |statuses| && statuses[b].direction == Stopped
      && forall i :: 0 <= i < |statuses| && statuses[i].direction == Stopped ==>
           Distance(statuses, b, r) <= Distance(statuses, i, r)
  {
    var idle := IdleIndices(statuses);
    assert i in idle;
    assert idle[0] in idle;
    NearestIsCandidate(statuses, r, idle);
    var b := SelectBest(statuses, r);
    var k :| 0 <= k < |idle| && idle[k] == b;
    assert b in idle;
    forall i | 0 <= i < |statuses| && statuses[i].direction == Stopped
      ensures Distance(statuses, b, r) <= Distance(statuses, i, r)
    {
      assert i in idle;
      var j :| 0 <= j < |idle| && idle[j] == i;
    }
  }

  /** Without a planned stop and with every car moving, no car is strictly closer than the chosen one. */
  lemma SelectBestNearestWhenNoneIdle(statuses: seq<ElevatorStatus>, r: Request)
    requires FirstStopping(statuses, r).None?
    requires forall i :: 0 <= i < |statuses| ==> Distance(statuses, i, r) < IntMaxValue
    requires |statuses| > 0
    requires forall i :: 0 <= i < |statuses| ==> statuses[i].direction != Stopped
    ensures var b := SelectBest(statuses, r);
      && 0 <= b < |statuses|
      && forall i :: 0 <= i < |statuses| ==> Distance(statuses, b, r) <= Distance(statuses, i, r)
  {
    var idle := IdleIndices(statuses);
    if idle != [] {
      assert idle[0] in idle;
    }
    var cands := Candidates(statuses);
    assert cands == Range(|statuses|);
    NearestIsCandidate(statuses, r, cands);
    var b := SelectBest(statuses, r);
    forall i | 0 <= i < |statuses|
      ensures Distance(statuses, b, r) <= Distance(statuses, i, r)
    {
      assert cands[i] == i;
    }
  }

  /** When every status reports its own position as its id, the choice is a valid position or -1. */
  lemma SelectBestIsPosition(statuses: seq<ElevatorStatus>, r: Request)
    requires forall i :: 0 <= i < |statuses| ==> statuses[i].elevatorId == i
    ensures -1 <= SelectBest(statuses, r) < |statuses|
  {
    NearestIsEarliestMinimum(statuses, r, Candidates(statuses));
    if FirstStopping(statuses, r).None? && SelectBest(statuses, r) != -1 {
      var k :| EarliestNearest(statuses, r, Candidates(statuses), k)
        && SelectBest(statuses, r) == Candidates(statuses)[k];
      assert Candidates(statuses)[k] in Candidates(statuses);
    }
  }

  /** The planned-stop scan, then the candidate scans of selectBestElevatorNumber. */
  method SelectBestElevatorNumber(statuses: seq<ElevatorStatus>, r: Request) returns (best: int)
    ensures best == SelectBest(statuses, r)
  {
    var i := 0;
    while i < |statuses|
      invariant 0 <= i <= |statuses|
      invariant forall j :: 0 <= j < i ==> !StopsFor(statuses[j], r)
    {
      if r.floor in StopRequestFloorsInDirection(statuses[i], DirectionOf(r)) {
        assert FirstStopping(statuses, r) == Some(i);
        return statuses[i].elevatorId;
      }
      i := i + 1;
    }
    var cands := CollectCandidates(statuses);
    best := ScanNearest(statuses, r, cands);
  }

  /** The idle cars if any, otherwise every car. */
  method CollectCandidates(statuses: seq<ElevatorStatus>) returns (cands: seq<int>)
    ensures cands == Candidates(statuses)
  {
    var idle: seq<int> := [];
    var i := 0;
    while i < |statuses|
      invariant 0 <= i <= |statuses|
      invariant idle == IdleIndices(statuses[..i])
    {
      assert statuses[..i + 1][..i] == statuses[..i];
      if statuses[i].direction == Stopped {
        idle := idle + [i];
      }
      i := i + 1;
    }
    assert statuses[..|statuses|] == statuses;
    if idle != [] {
      return idle;
    }
    cands := [];
    i := 0;
    while i < |statuses|
      invariant 0 <= i <= |statuses|
      invariant cands == Range(i)
    {
      cands := cands + [i];
      i := i + 1;
    }
  }

  /** The min-distance scan over the candidates, keeping the first of equal distances. */
  method ScanNearest(statuses: seq<ElevatorStatus>, r: Request, cands: seq<int>) returns (best: int)
    requires forall j :: 0 <= j < |cands| ==> 0 <= cands[j] < |statuses|
    ensures best == Nearest(statuses, r, cands).0
  {
    best := -1;
    var minDistance := IntMaxValue;
    var n := 0;
    while n < |cands|
      invariant 0 <= n <= |cands|
      invariant (best, minDistance) == Nearest(statuses, r, cands[..n])
    {
      assert cands[..n + 1][..n] == cands[..n];
      var c := cands[n];
      var distance := if statuses[c].floorNumber >= r.floor then statuses[c].floorNumber - r.floor
                      else r.floor - statuses[c].floorNumber;
      if distance < minDistance {
        minDistance := distance;
        best := c;
      }
      n := n + 1;
    }
    assert cands[..|cands|] == cands;
  }

  /** Where the scheduler sends one incoming message. */
  datatype Route =
    | Forward(port: int, message: SystemRequest, replyTo: Option<int>)  // replyTo: relay the answer to that port
    | Registered                                                         // the sender's port was recorded
    | Ignored                                                            // no case for this kind
    | Crashed                                                            // the Java code throws (bad index or null request)

  /** The scheduler's table of car ports, indexed by elevator id. */
  class Scheduler {
    const elevatorPorts: array<int>

    /** A port table with one zeroed slot per car. */
    constructor ()
      ensures fresh(elevatorPorts)
      ensures elevatorPorts.Length == NumberOfElevators
      ensures forall i :: 0 <= i < elevatorPorts.Length ==> elevatorPorts[i] == 0
    {
      elevatorPorts := new int[NumberOfElevators](_ => 0);
    }

    /** addElevator: records `elevatorPort` in slot `elevatorId` and nowhere else. */
    method AddElevator(elevatorId: int, elevatorPort: int)
      requires 0 <= elevatorId < elevatorPorts.Length
      modifies elevatorPorts
      ensures elevatorPorts[..] == old(elevatorPorts[..])[elevatorId := elevatorPort]
    {
      elevatorPorts[elevatorId] := elevatorPort;
    }

    /**
     * One turn of the run loop for message `m` from `senderPort`, given the statuses the
     * cars report (one per slot). Hall calls go to the selected car as a fresh ADD_NEW_REQUEST
     * with id 0; queue operations go to the port of the car named by the id, the two questions
     * relaying the answer back to the sender; lamp updates go to the floor controller;
     * registration records the sender's port.
     */
    method HandleMessage(m: SystemRequest, senderPort: int, statuses: seq<ElevatorStatus>) returns (route: Route)
      requires |statuses| == elevatorPorts.Length
      modifies elevatorPorts
      ensures m.kind != RegisterElevatorController ==> elevatorPorts[..] == old(elevatorPorts[..])
      ensures m.kind == AddNewRequest ==>
        if m.elevatorRequest.None? then route == Crashed
        else var best := SelectBest(statuses, m.elevatorRequest.value);
          route == if 0 <= best < elevatorPorts.Length
                   then Forward(elevatorPorts[best], WithRequest(AddNewRequest, m.elevatorRequest, 0), None)
                   else Crashed
      ensures m.kind in {ProcessCompletedRequests, ProcessesRequestsAtCurrentFloor, NewPrimaryRequest, IsStopRequired} ==>
        route == if 0 <= m.id < elevatorPorts.Length
                 then Forward(elevatorPorts[m.id], m,
                              if m.kind in {NewPrimaryRequest, IsStopRequired} then Some(senderPort) else None)
                 else Crashed
      ensures m.kind == RegisterElevatorController ==>
        if 0 <= m.id < elevatorPorts.Length
        then route == Registered && elevatorPorts[..] == old(elevatorPorts[..])[m.id := senderPort]
        else route == Crashed && elevatorPorts[..] == old(elevatorPorts[..])
      ensures m.kind in {SetFloorLamps, SetFloorDirectionLamps} ==> route == Forward(FloorControllerPort, m, None)
      ensures m.kind == StatusRequest ==> route == Ignored
    {
      match m.kind {
        case AddNewRequest =>
          if m.elevatorRequest.None? {
            return Crashed;
          }
          var best := SelectBestElevatorNumber(statuses, m.elevatorRequest.value);
          if 0 <= best < elevatorPorts.Length {
            route := Forward(elevatorPorts[best], WithRequest(AddNewRequest, m.elevatorRequest, 0), None);
          } else {
            route := Crashed;
          }
        case ProcessCompletedRequests =>
          route := if 0 <= m.id < elevatorPorts.Length then Forward(elevatorPorts[m.id], m, None) else Crashed;
        case ProcessesRequestsAtCurrentFloor =>
          route := if 0 <= m.id < elevatorPorts.Length then Forward(elevatorPorts[m.id], m, None) else Crashed;
        case NewPrimaryRequest =>
          route := if 0 <= m.id < elevatorPorts.Length then Forward(elevatorPorts[m.id], m, Some(senderPort)) else Crashed;
        case IsStopRequired =>
          route := if 0 <= m.id < elevatorPorts.Length then Forward(elevatorPorts[m.id], m, Some(senderPort)) else Crashed;
        case RegisterElevatorController =>
          if 0 <= m.id < elevatorPorts.Length {
            AddElevator(m.id, senderPort);
            route := Registered;
          } else {
            route := Crashed;
          }
        case SetFloorLamps =>
          route := Forward(FloorControllerPort, m, None);
        case SetFloorDirectionLamps =>
          route := Forward(FloorControllerPort, m, None);
        case StatusRequest =>
          route := Ignored;
      }
    }
  }
}
