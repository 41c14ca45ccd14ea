/**
 * One floor of the building (Floor/Floor.java): the hall calls made at this floor, held
 * per direction until they are due, the two hall lamps, and one direction-lamp cell per
 * car. The wall clock the source reads is the parameter `now`, a time of day in the same
 * unit as the requests' times.
 */
module Floors {
  import opened Wrappers
  import opened Common
  import opened Requests
  import opened RequestQueue

  /** `r` is due at `now`: its time is strictly before now. */
  predicate Due(r: Request, now: int) {
    r.time < now
  }

  /** The position of the first request of `rs` that is due at `now`, if any. */
  function FirstDue(rs: seq<Request>, now: int): (k: Option<nat>)
    ensures k.Some? ==> k.value < |rs| && Due(rs[k.value], now)
    ensures k.Some? ==> forall j :: 0 <= j < k.value ==> !Due(rs[j], now)
    ensures k.None? ==> forall j :: 0 <= j < |rs| ==> !Due(rs[j], now)
  {
    if rs == [] then None
    else if Due(rs[0], now) then Some(0)
    else match FirstDue(rs[1..], now)
      case None => None
      case Some(k) => Some(k + 1)
  }

  /** The scan loop of checkForRequests over one list. */
  method FindFirstDue(rs: seq<Request>, now: int) returns (k: Option<nat>)
    ensures k == FirstDue(rs, now)
  {
    var i := 0;
    while i < |rs|
      invariant 0 <= i <= |rs|
      invariant forall j :: 0 <= j < i ==> !Due(rs[j], now)
    {
      if rs[i].time < now {
        return Some(i);
      }
      i := i + 1;
    }
    return None;
  }

  /**
   * The cell setDirectionLamp writes for `d` in the row of a car: column 0 for UP unless
   * this is the top floor and for DOWN unless this is the bottom floor; no cell for any
   * other direction (STOPPED or null).
   */
  function DirectionLampColumn(d: Option<Direction>, isFirstFloor: bool, isLastFloor: bool): (col: Option<int>)
    ensures col.Some? <==> (d == Some(Up) && !isLastFloor) || (d == Some(Down) && !isFirstFloor)
    ensures col.Some? ==> col.value == 0
  {
    if d == Some(Up) && !isLastFloor then Some(0)
    else if d == Some(Down) && !isFirstFloor then Some(0)
    else None
  }

  /** On a floor that is neither the top nor the bottom one, UP and DOWN write the same cell. */
  lemma DirectionLampsShareColumn(isFirstFloor: bool, isLastFloor: bool)
    requires !isFirstFloor && !isLastFloor
    ensures DirectionLampColumn(Some(Up), isFirstFloor, isLastFloor) == DirectionLampColumn(Some(Down), isFirstFloor, isLastFloor)
    ensures DirectionLampColumn(Some(Up), isFirstFloor, isLastFloor).Some?
  {
  }

  class Floor {
    const floorNumber: int
    var downRequests: seq<Request>
    var upRequests: seq<Request>
    var floorLampUp: bool
    var floorLampDown: bool
    const directionLamps: array2<bool>
    const isFirstFloor: bool
    const isLastFloor: bool

    /**
     * Floor `floorNumber` of `numberOfFloors`: no requests, every lamp off, one row of
     * direction-lamp cells per car; it is the first floor iff its number is 1 and the
     * last iff its number is `numberOfFloors`.
     */
    constructor (floorNumber: int, numberOfFloors: int)
      ensures this.floorNumber == floorNumber
      ensures upRequests == [] && downRequests == [] && !floorLampUp && !floorLampDown
      ensures fresh(directionLamps)
      ensures directionLamps.Length0 == NumberOfElevators && directionLamps.Length1 == 2
      ensures forall i, j :: 0 <= i < directionLamps.Length0 && 0 <= j < directionLamps.Length1 ==> !directionLamps[i, j]
      ensures isFirstFloor <==> floorNumber == 1
      ensures isLastFloor <==> floorNumber == numberOfFloors
    {
      this.floorNumber := floorNumber;
      downRequests, upRequests := [], [];
      directionLamps := new bool[NumberOfElevators, 2]((i, j) => false);
      floorLampUp, floorLampDown := false, false;
      isFirstFloor := floorNumber == 1;
      isLastFloor := floorNumber == numberOfFloors;
    }

    /** addRequest: an UP request joins the end of the up list, a DOWN request the end of the down list. */
    method AddRequest(event: Request)
      requires WellFormed(event)
      modifies this`upRequests, this`downRequests
      ensures DirectionOf(event) == Some(Up) ==> upRequests == old(upRequests) + [event] && downRequests == old(downRequests)
      ensures DirectionOf(event) == Some(Down) ==> downRequests == old(downRequests) + [event] && upRequests == old(upRequests)
    {
      if DirectionOf(event) == Some(Up) {
        upRequests := upRequests + [event];
      } else {
        downRequests := downRequests + [event];
      }
    }

    /**
     * checkForRequests: releases the first up request that is due, lighting the up lamp;
     * only when no up request is due, the first due down request, lighting the down lamp;
     * when nothing is due, nothing and no change.
     */
    method CheckForRequests(now: int) returns (released: Option<Request>)
      modifies this`upRequests, this`downRequests, this`floorLampUp, this`floorLampDown
      ensures match FirstDue(old(upRequests), now)
        case Some(i) =>
          && released == Some(old(upRequests)[i]) && upRequests == RemoveAt(old(upRequests), i)
          && downRequests == old(downRequests) && floorLampUp && floorLampDown == old(floorLampDown)
        case None =>
          match FirstDue(old(downRequests), now)
          case Some(i) =>
            && released == Some(old(downRequests)[i]) && downRequests == RemoveAt(old(downRequests), i)
            && upRequests == old(upRequests) && floorLampDown && floorLampUp == old(floorLampUp)
          case None =>
            && released == None && upRequests == old(upRequests) && downRequests == old(downRequests)
            && floorLampUp == old(floorLampUp) && floorLampDown == old(floorLampDown)
    {
      var k := FindFirstDue(upRequests, now);
      if k.Some? {
        released := Some(upRequests[k.value]);
        upRequests, floorLampUp := RemoveAt(upRequests, k.value), true;
        return;
      }
      k := FindFirstDue(downRequests, now);
      if k.Some? {
        released := Some(downRequests[k.value]);
        downRequests, floorLampDown := RemoveAt(downRequests, k.value), true;
        return;
      }
      released := None;
    }

    /**
     * setDirectionLamp: writes `state` into the cell DirectionLampColumn picks in row
     * `elevatorId`, and changes no other cell.
     */
    method SetDirectionLamp(elevatorId: int, d: Option<Direction>, state: bool)
      requires directionLamps.Length1 > 0
      requires DirectionLampColumn(d, isFirstFloor, isLastFloor).Some? ==> 0 <= elevatorId < directionLamps.Length0
      modifies directionLamps
      ensures var col := DirectionLampColumn(d, isFirstFloor, isLastFloor);
        forall i, j :: 0 <= i < directionLamps.Length0 && 0 <= j < directionLamps.Length1 ==>
          directionLamps[i, j] == if col == Some(j) && i == elevatorId then state else old(directionLamps[i, j])
    {
      var col := DirectionLampColumn(d, isFirstFloor, isLastFloor);
      if col.Some? {
        directionLamps[elevatorId, col.value] := state;
      }
    }

    /** setFloorLamp: UP sets the up lamp unless this is the top floor, DOWN the down lamp unless this is the bottom floor. */
    method SetFloorLamp(d: Option<Direction>, state: bool)
      modifies this`floorLampUp, this`floorLampDown
      ensures floorLampUp == if d == Some(Up) && !isLastFloor then state else old(floorLampUp)
      ensures floorLampDown == if d == Some(Down) && !isFirstFloor then state else old(floorLampDown)
    {
      if d == Some(Up) && !isLastFloor {
        floorLampUp := state;
      } else if d == Some(Down) && !isFirstFloor {
        floorLampDown := state;
      }
    }
  }
}
