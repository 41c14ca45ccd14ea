/**
 * The per-car request queue (Elevator/ElevatorSubsystem.java): two ordered lists of
 * requests, one per travel direction, the "has waiting requests" flag and the in-car
 * button lamps. Requests are values; marking one picked up replaces it in its list.
 */
module RequestQueue {
  import opened Wrappers
  import opened Common
  import opened Requests

  /** Stopping at `floor` lets the passenger of `r` board. */
  predicate BoardsAt(r: Request, floor: int) {
    CurrentTargetFloor(r) == floor && r.status == Pending
  }

  /** Stopping at `floor` delivers the passenger of `r`. */
  predicate CompletesAt(r: Request, floor: int) {
    CurrentTargetFloor(r) == floor && r.status == PassengerPickedUp
  }

  /** Every request in `rs` travels in direction `d`. */
  predicate AllTravel(rs: seq<Request>, d: Direction) {
    forall r :: r in rs ==> DirectionOf(r) == Some(d)
  }

  /** Every destination in `rs` has a button lamp among the first `lampCount`. */
  predicate ButtonsIn(rs: seq<Request>, lampCount: int) {
    forall r :: r in rs ==> 1 <= r.carButton <= lampCount
  }

  /** Some request of `rs[..n]` boards at `floor` and has destination `button`. */
  predicate BoardsWithButton(rs: seq<Request>, n: int, floor: int, button: int)
    requires 0 <= n <= |rs|
  {
    exists i :: 0 <= i < n && BoardsAt(rs[i], floor) && rs[i].carButton == button
  }

  /** Some request of `rs[..n]` is completed by stopping at `floor`. */
  predicate SomeCompletes(rs: seq<Request>, n: int, floor: int)
    requires 0 <= n <= |rs|
  {
    exists i :: 0 <= i < n && CompletesAt(rs[i], floor)
  }

  /** The requests of `rs` that stopping at `floor` does not complete, in their order. */
  function Kept(rs: seq<Request>, floor: int): (k: seq<Request>)
    ensures |k| <= |rs|
  {
    if rs == [] then []
    else Kept(rs[..|rs| - 1], floor) + (if CompletesAt(rs[|rs| - 1], floor) then [] else [rs[|rs| - 1]])
  }

  /** A request stays exactly when it was there and stopping at `floor` does not complete it. */
  lemma {:induction false} KeptMembers(rs: seq<Request>, floor: int)
    ensures forall x :: x in Kept(rs, floor) <==> x in rs && !CompletesAt(x, floor)
  {
    if rs != [] {
      var init, last := rs[..|rs| - 1], rs[|rs| - 1];
      assert rs == init + [last];
      KeptMembers(init, floor);
    }
  }

  /** `r` after a stop at `floor`: picked up if it boards there, unchanged otherwise. */
  function Board(r: Request, floor: int): Request {
    if BoardsAt(r, floor) then WithStatus(r, PassengerPickedUp) else r
  }

  /** The list after a pick-up at `floor`: exactly the requests boarding there are now picked up. */
  function PickedUp(rs: seq<Request>, floor: int): (rs': seq<Request>)
    ensures |rs'| == |rs|
    ensures forall i :: 0 <= i < |rs| ==> rs'[i] == if BoardsAt(rs[i], floor) then WithStatus(rs[i], PassengerPickedUp) else rs[i]
  {
    if rs == [] then [] else [Board(rs[0], floor)] + PickedUp(rs[1..], floor)
  }

  /** A pick-up changes no request's direction or destination button. */
  lemma PickedUpKeepsShape(rs: seq<Request>, floor: int, d: Direction, lampCount: int)
    requires AllTravel(rs, d) && ButtonsIn(rs, lampCount)
    ensures AllTravel(PickedUp(rs, floor), d) && ButtonsIn(PickedUp(rs, floor), lampCount)
  {
    var rs' := PickedUp(rs, floor);
    forall x | x in rs'
      ensures DirectionOf(x) == Some(d) && 1 <= x.carButton <= lampCount
    {
      var i :| 0 <= i < |rs'| && rs'[i] == x;
      assert rs[i] in rs;
      DirectionIgnoresStatus(rs[i], PassengerPickedUp);
    }
  }

  /** The in-car lamps after a pick-up at `floor`: lamp j is on if it was, or if someone boarding there pressed j + 1. */
  function LampsAfterPickUp(lamps: seq<bool>, rs: seq<Request>, floor: int): (lamps': seq<bool>)
  {
    seq(|lamps|, j requires 0 <= j < |lamps| => lamps[j] || BoardsWithButton(rs, |rs|, floor, j + 1))
  }

  /** The requests of `rs` whose passenger has not been picked up, in their order. */
  function Waiting(rs: seq<Request>): (w: seq<Request>)
    ensures forall x :: x in w <==> x in rs && x.status != PassengerPickedUp
    ensures |w| <= |rs|
  {
    if rs == [] then []
    else
      var init, last := rs[..|rs| - 1], rs[|rs| - 1];
      assert rs == init + [last];
      Waiting(init) + (if last.status == PassengerPickedUp then [] else [last])
  }

  /** The origin floors of the pending requests of `rs`, in their order. */
  function PendingOrigins(rs: seq<Request>): (fs: seq<int>)
    ensures forall f :: f in fs <==> exists i :: 0 <= i < |rs| && rs[i].status == Pending && rs[i].floor == f
    ensures |fs| <= |rs|
  {
    if rs == [] then []
    else
      var init, last := rs[..|rs| - 1], rs[|rs| - 1];
      assert forall i :: 0 <= i < |init| ==> init[i] == rs[i];
      PendingOrigins(init) + (if last.status == Pending then [last.floor] else [])
  }

  /** The position of the first picked-up request of `rs`, if there is one. */
  function FirstPickedUp(rs: seq<Request>): (k: Option<nat>)
    ensures k.Some? ==> k.value < |rs| && rs[k.value].status == PassengerPickedUp
    ensures k.Some? ==> forall j :: 0 <= j < k.value ==> rs[j].status != PassengerPickedUp
    ensures k.None? ==> forall j :: 0 <= j < |rs| ==> rs[j].status != PassengerPickedUp
  {
    if rs == [] then None
    else if rs[0].status == PassengerPickedUp then Some(0)
    else match FirstPickedUp(rs[1..])
      case None => None
      case Some(k) => Some(k + 1)
  }

  /** `s` without its element at position `i` (ArrayList.remove(i)). */
  function RemoveAt<T>(s: seq<T>, i: nat): (r: seq<T>)
    requires i < |s|
    ensures |r| == |s| - 1
    ensures multiset(r) + multiset{s[i]} == multiset(s)
    ensures forall j :: 0 <= j < i ==> r[j] == s[j]
    ensures forall j :: i <= j < |r| ==> r[j] == s[j + 1]
    ensures forall x :: x in r ==> x in s
  {
    assert s == s[..i] + [s[i]] + s[i + 1..];
    s[..i] + s[i + 1..]
  }

  /** The next primary request and the two lists that remain once it is taken out. */
  datatype Selection = Selection(primary: Request, up: seq<Request>, down: seq<Request>)

  /**
   * receiveNewPrimaryRequest on two lists: the first picked-up request of the up list,
   * else the first picked-up request of the down list, else the head of the up list,
   * else the head of the down list; nothing when both lists are empty.
   */
  function NextPrimary(up: seq<Request>, down: seq<Request>): (s: Option<Selection>)
    ensures s.None? <==> up == [] && down == []
  {
    if up == [] && down == [] then None
    else match FirstPickedUp(up)
      case Some(i) => Some(Selection(up[i], RemoveAt(up, i), down))
      case None =>
        match FirstPickedUp(down)
        case Some(i) => Some(Selection(down[i], up, RemoveAt(down, i)))
        case None =>
          if up != [] then Some(Selection(up[0], up[1..], down))
          else Some(Selection(down[0], up, down[1..]))
  }

  /** Exactly one request leaves the queue: the primary one, and nothing else is lost or added. */
  lemma NextPrimaryTakesOne(up: seq<Request>, down: seq<Request>)
    requires NextPrimary(up, down).Some?
    ensures var s := NextPrimary(up, down).value;
      multiset(s.up) + multiset(s.down) + multiset{s.primary} == multiset(up) + multiset(down)
      && |s.up| + |s.down| + 1 == |up| + |down|
  {
    var s := NextPrimary(up, down).value;
    if FirstPickedUp(up).None? && FirstPickedUp(down).None? {
      if up != [] {
        assert up == [up[0]] + up[1..];
      } else {
        assert down == [down[0]] + down[1..];
      }
    }
  }

  /** Taking the primary request out keeps each list's direction and lamp range. */
  lemma NextPrimaryKeepsShape(up: seq<Request>, down: seq<Request>)
    requires AllTravel(up, Up) && AllTravel(down, Down)
    requires ButtonsIn(up, NumberOfFloors) && ButtonsIn(down, NumberOfFloors)
    requires NextPrimary(up, down).Some?
    ensures var s := NextPrimary(up, down).value;
      AllTravel(s.up, Up) && AllTravel(s.down, Down)
      && ButtonsIn(s.up, NumberOfFloors) && ButtonsIn(s.down, NumberOfFloors)
  {
    var s := NextPrimary(up, down).value;
    if up != [] {
      assert forall x :: x in up[1..] ==> x in up;
    }
    if down != [] {
      assert forall x :: x in down[1..] ==> x in down;
    }
  }

  /**
   * Boarded passengers come first: whenever some queued request is picked up, the next
   * primary request is a picked-up one; only when none is does a pending request become
   * primary, the oldest up request before the oldest down request.
   */
  lemma {:induction false} NextPrimaryPrefersBoarded(up: seq<Request>, down: seq<Request>)
    requires up != [] || down != []
    ensures var p := NextPrimary(up, down).value.primary;
      && ((exists r :: (r in up || r in down) && r.status == PassengerPickedUp) <==> p.status == PassengerPickedUp)
      && (p.status != PassengerPickedUp ==> p == if up != [] then up[0] else down[0])
      && (p in up || p in down)
  {
    var p := NextPrimary(up, down).value.primary;
    if r :| (r in up || r in down) && r.status == PassengerPickedUp {
      if r in up {
        var j :| 0 <= j < |up| && up[j] == r;
        assert FirstPickedUp(up).Some?;
      } else {
        var j :| 0 <= j < |down| && down[j] == r;
        assert FirstPickedUp(down).Some?;
      }
    }
  }

  /**
   * The queue of one car. `hasWaitingRequests` mirrors "some list is non-empty"; each list
   * only holds requests of its own direction; every destination has a lamp.
   */
  class ElevatorSubsystem {
    var downRequests: seq<Request>
    var upRequests: seq<Request>
    var hasWaitingRequests: bool
    var elevatorLamps: seq<bool>
    const elevatorId: int

    ghost predicate Valid()
      reads this
    {
      && hasWaitingRequests == (|upRequests| + |downRequests| > 0)
      && |elevatorLamps| == NumberOfFloors
      && AllTravel(upRequests, Up) && AllTravel(downRequests, Down)
      && ButtonsIn(upRequests, NumberOfFloors) && ButtonsIn(downRequests, NumberOfFloors)
    }

    /** The list that serves direction `d`: the up list for UP, the down list for anything else. */
    function RequestsFor(d: Direction): seq<Request>
      reads this
    {
      if d == Up then upRequests else downRequests
    }

    /** A new queue: no requests, no waiting work, every lamp off. */
    constructor (elevatorId: int)
      ensures Valid()
      ensures this.elevatorId == elevatorId
      ensures upRequests == [] && downRequests == [] && !hasWaitingRequests
      ensures forall j :: 0 <= j < |elevatorLamps| ==> !elevatorLamps[j]
    {
      this.elevatorId := elevatorId;
      upRequests, downRequests := [], [];
      hasWaitingRequests := false;
      var lamps: seq<bool> := [];
      var i := 0;
      while i < NumberOfFloors
        invariant 0 <= i <= NumberOfFloors && |lamps| == i
        invariant forall j :: 0 <= j < i ==> !lamps[j]
      {
        lamps := lamps + [false];
        i := i + 1;
      }
      elevatorLamps := lamps;
    }

    /** The origin floors of the pending requests of direction `d`'s list, in list order. */
    method GetStopRequestFloorsInDirection(d: Direction) returns (floors: seq<int>)
      ensures floors == PendingOrigins(RequestsFor(d))
    {
      var rs := if d == Up then upRequests else downRequests;
      floors := [];
      var i := 0;
      while i < |rs|
        invariant 0 <= i <= |rs|
        invariant floors == PendingOrigins(rs[..i])
      {
        if rs[i].status == Pending {
          floors := floors + [rs[i].floor];
        }
        assert rs[..i + 1][..i] == rs[..i];
        i := i + 1;
      }
      assert rs[..|rs|] == rs;
    }

    /** Appends `r` to the list of its direction and records that work is waiting. */
    method AddNewRequest(r: Request)
      requires Valid()
      requires WellFormed(r) && 1 <= r.carButton <= NumberOfFloors
      modifies this
      ensures Valid() && hasWaitingRequests
      ensures DirectionOf(r) == Some(Up) ==> upRequests == old(upRequests) + [r] && downRequests == old(downRequests)
      ensures DirectionOf(r) == Some(Down) ==> downRequests == old(downRequests) + [r] && upRequests == old(upRequests)
      ensures elevatorLamps == old(elevatorLamps)
    {
      match DirectionOf(r) {
        case Some(Up) => upRequests := upRequests + [r];
        case Some(Down) => downRequests := downRequests + [r];
        case _ =>
      }
      hasWaitingRequests := true;
    }

    /** Turns the lamp of in-car button `floorNumber` on or off. */
    method SetElevatorLamps(floorNumber: int, lampState: bool)
      requires Valid() && 1 <= floorNumber <= |elevatorLamps|
      modifies this`elevatorLamps
      ensures Valid()
      ensures elevatorLamps == old(elevatorLamps)[floorNumber - 1 := lampState]
    {
      elevatorLamps := elevatorLamps[floorNumber - 1 := lampState];
    }

    /**
     * Drop-off at `floorNumber`: removes from direction `d`'s list exactly the picked-up
     * requests destined there, keeps the rest in order, turns their lamps off, and clears
     * the waiting flag once both lists are empty.
     */
    method ProcessCompletedRequests(floorNumber: int, d: Direction)
      requires Valid()
      modifies this
      ensures Valid()
      ensures d == Up ==> upRequests == Kept(old(upRequests), floorNumber) && downRequests == old(downRequests)
      ensures d != Up ==> downRequests == Kept(old(downRequests), floorNumber) && upRequests == old(upRequests)
      ensures var rs := old(RequestsFor(d));
        elevatorLamps == if SomeCompletes(rs, |rs|, floorNumber)
                         then old(elevatorLamps)[floorNumber - 1 := false] else old(elevatorLamps)
    {
      KeptMembers(RequestsFor(d), floorNumber);
      if d == Up {
        var kept, lamps := RemoveCompletedAt(upRequests, elevatorLamps, floorNumber);
        upRequests, elevatorLamps := kept, lamps;
      } else {
        var kept, lamps := RemoveCompletedAt(downRequests, elevatorLamps, floorNumber);
        downRequests, elevatorLamps := kept, lamps;
      }
      if upRequests == [] && downRequests == [] {
        hasWaitingRequests := false;
      }
    }

    /**
     * Pick-up at `floorNumber`: in direction `d`'s list, exactly the pending requests whose
     * origin is `floorNumber` become picked up and light their destination's lamp; no request
     * is added or removed and the other list is untouched.
     */
    method ProcessRequestsAtCurrentFloor(floorNumber: int, d: Direction)
      requires Valid()
      modifies this
      ensures Valid()
      ensures hasWaitingRequests == old(hasWaitingRequests)
      ensures d == Up ==> upRequests == PickedUp(old(upRequests), floorNumber) && downRequests == old(downRequests)
      ensures d != Up ==> downRequests == PickedUp(old(downRequests), floorNumber) && upRequests == old(upRequests)
      ensures elevatorLamps == LampsAfterPickUp(old(elevatorLamps), old(RequestsFor(d)), floorNumber)
    {
      PickedUpKeepsShape(RequestsFor(d), floorNumber, if d == Up then Up else Down, NumberOfFloors);
      var rs, lamps := PickUpAt(RequestsFor(d), elevatorLamps, floorNumber);
      if d == Up {
        upRequests, elevatorLamps := rs, lamps;
      } else {
        downRequests, elevatorLamps := rs, lamps;
      }
    }

    /**
     * Takes the next primary request out of the queue (see NextPrimary); returns nothing and
     * changes nothing when no request waits.
     */
    method ReceiveNewPrimaryRequest() returns (p: Option<Request>)
      requires Valid()
      modifies this
      ensures Valid()
      ensures elevatorLamps == old(elevatorLamps)
      ensures NextPrimary(old(upRequests), old(downRequests)).None? ==>
        p.None? && upRequests == old(upRequests) && downRequests == old(downRequests)
      ensures NextPrimary(old(upRequests), old(downRequests)).Some? ==>
        var s := NextPrimary(old(upRequests), old(downRequests)).value;
        p == Some(s.primary) && upRequests == s.up && downRequests == s.down
      ensures p.Some? ==> WellFormed(p.value) && 1 <= p.value.carButton <= NumberOfFloors
    {
      if !hasWaitingRequests {
        return None;
      }
      if |upRequests| + |downRequests| == 1 {
        hasWaitingRequests := false;
      }
      var up, down := upRequests, downRequests;
      NextPrimaryTakesOne(up, down);
      NextPrimaryKeepsShape(up, down);
      NextPrimaryPrefersBoarded(up, down);
      var s := TakeNextPrimary(up, down);
      upRequests, downRequests := s.value.up, s.value.down;
      p := Some(s.value.primary);
    }

    /** A stop at `nextFloorNumber` is required iff some request of direction `d`'s list targets it now. */
    method IsStopRequiredForFloor(nextFloorNumber: int, d: Direction) returns (required: bool)
      ensures required <==> exists r :: r in RequestsFor(d) && CurrentTargetFloor(r) == nextFloorNumber
    {
      var rs := if d == Up then upRequests else downRequests;
      var i := 0;
      while i < |rs|
        invariant 0 <= i <= |rs|
        invariant forall j :: 0 <= j < i ==> CurrentTargetFloor(rs[j]) != nextFloorNumber
      {
        if CurrentTargetFloor(rs[i]) == nextFloorNumber {
          return true;
        }
        i := i + 1;
      }
      return false;
    }

    /** True iff some picked-up request in either list carries `faultType` and is destined for `floorNumber`. */
    method HasFault(faultType: FaultType, floorNumber: int) returns (found: bool)
      ensures found <==> exists r :: (r in upRequests || r in downRequests)
                          && r.status == PassengerPickedUp && r.fault == faultType && r.carButton == floorNumber
    {
      var i := 0;
      while i < |upRequests|
        invariant 0 <= i <= |upRequests|
        invariant forall j :: 0 <= j < i ==>
          !(upRequests[j].status == PassengerPickedUp && upRequests[j].fault == faultType && upRequests[j].carButton == floorNumber)
      {
        var e := upRequests[i];
        if e.status == PassengerPickedUp && e.fault == faultType && e.carButton == floorNumber {
          return true;
        }
        i := i + 1;
      }
      i := 0;
      while i < |downRequests|
        invariant 0 <= i <= |downRequests|
        invariant forall j :: 0 <= j < i ==>
          !(downRequests[j].status == PassengerPickedUp && downRequests[j].fault == faultType && downRequests[j].carButton == floorNumber)
      {
        var e := downRequests[i];
        if e.status == PassengerPickedUp && e.fault == faultType && e.carButton == floorNumber {
          return true;
        }
        i := i + 1;
      }
      return false;
    }

    /** The requests not yet picked up: those of the up list, then those of the down list, in order. */
    method GetWaitingRequests() returns (waiting: seq<Request>)
      ensures waiting == Waiting(upRequests) + Waiting(downRequests)
    {
      var fromUp := WaitingIn(upRequests);
      var fromDown := WaitingIn(downRequests);
      waiting := fromUp + fromDown;
    }
  }

  /** The selection of receiveNewPrimaryRequest on list values: the two scans, then the heads. */
  method TakeNextPrimary(up: seq<Request>, down: seq<Request>) returns (s: Option<Selection>)
    ensures s == NextPrimary(up, down)
  {
    if up == [] && down == [] {
      return None;
    }
    var k := FindFirstPickedUp(up);
    if k.Some? {
      return Some(Selection(up[k.value], RemoveAt(up, k.value), down));
    }
    k := FindFirstPickedUp(down);
    if k.Some? {
      return Some(Selection(down[k.value], up, RemoveAt(down, k.value)));
    }
    if up != [] {
      return Some(Selection(up[0], up[1..], down));
    }
    return Some(Selection(down[0], up, down[1..]));
  }

  /** One scan of getWaitingRequests: the requests of `rs` not yet picked up, in order. */
  method WaitingIn(rs: seq<Request>) returns (waiting: seq<Request>)
    ensures waiting == Waiting(rs)
  {
    waiting := [];
    var i := 0;
    while i < |rs|
      invariant 0 <= i <= |rs|
      invariant waiting == Waiting(rs[..i])
    {
      if rs[i].status != PassengerPickedUp {
        waiting := waiting + [rs[i]];
      }
      assert rs[..i + 1][..i] == rs[..i];
      i := i + 1;
    }
    assert rs[..|rs|] == rs;
  }

  /** The search loop of receiveNewPrimaryRequest: the position of the first picked-up request. */
  method FindFirstPickedUp(rs: seq<Request>) returns (k: Option<nat>)
    ensures k == FirstPickedUp(rs)
  {
    var i := 0;
    while i < |rs|
      invariant 0 <= i <= |rs|
      invariant forall j :: 0 <= j < i ==> rs[j].status != PassengerPickedUp
    {
      if rs[i].status == PassengerPickedUp {
        return Some(i);
      }
      i := i + 1;
    }
    return None;
  }

  /**
   * One branch of processRequestsAtCurrentFloor on a list value: marks picked up exactly
   * the pending requests whose origin is `floor` and lights their destination lamps.
   */
  method PickUpAt(rs: seq<Request>, lamps: seq<bool>, floor: int) returns (rs': seq<Request>, lamps': seq<bool>)
    requires ButtonsIn(rs, |lamps|)
    ensures |rs'| == |rs| && |lamps'| == |lamps|
    ensures forall i :: 0 <= i < |rs| ==>
      rs'[i] == if rs[i].floor == floor && rs[i].status == Pending then WithStatus(rs[i], PassengerPickedUp) else rs[i]
    ensures forall j :: 0 <= j < |lamps| ==> lamps'[j] == (lamps[j] || BoardsWithButton(rs, |rs|, floor, j + 1))
    ensures rs' == PickedUp(rs, floor) && lamps' == LampsAfterPickUp(lamps, rs, floor)
  {
    rs', lamps' := rs, lamps;
    var i := 0;
    while i < |rs|
      invariant 0 <= i <= |rs|
      invariant |rs'| == |rs| && |lamps'| == |lamps|
      invariant forall k :: 0 <= k < i ==> rs'[k] == Board(rs[k], floor)
      invariant forall k :: i <= k < |rs| ==> rs'[k] == rs[k]
      invariant forall j :: 0 <= j < |lamps| ==> lamps'[j] == (lamps[j] || BoardsWithButton(rs, i, floor, j + 1))
    {
      var r := rs'[i];
      BoardsWithButtonStep(rs, i, floor);
      if CurrentTargetFloor(r) == floor && r.status == Pending {
        assert rs[i] in rs;
        rs' := rs'[i := WithStatus(r, PassengerPickedUp)];
        lamps' := lamps'[r.carButton - 1 := true];
      }
      i := i + 1;
    }
    assert rs' == PickedUp(rs, floor);
    assert lamps' == LampsAfterPickUp(lamps, rs, floor);
  }

  /**
   * One branch of processCompletedRequests on a list value: removes the requests completed
   * at `floor`, keeping the others in order, and turns off their lamps. All of them share
   * the destination `floor`, so at most lamp `floor` changes.
   */
  method RemoveCompletedAt(rs: seq<Request>, lamps: seq<bool>, floor: int) returns (kept: seq<Request>, lamps': seq<bool>)
    requires ButtonsIn(rs, |lamps|)
    ensures kept == Kept(rs, floor)
    ensures lamps' == if SomeCompletes(rs, |rs|, floor) then lamps[floor - 1 := false] else lamps
  {
    kept, lamps' := [], lamps;
    var i := 0;
    while i < |rs|
      invariant 0 <= i <= |rs|
      invariant kept == Kept(rs[..i], floor)
      invariant lamps' == if SomeCompletes(rs, i, floor) then lamps[floor - 1 := false] else lamps
    {
      var r := rs[i];
      KeptStep(rs, i, floor);
      if CompletesAt(r, floor) {
        CompletedHasLamp(rs, i, floor, |lamps|);
        LampOffTwice(lamps, floor - 1);
        lamps' := lamps'[floor - 1 := false];
      } else {
        kept := kept + [r];
      }
      i := i + 1;
    }
    assert rs[..|rs|] == rs;
  }

  /** One more step of the scan in PickUpAt: request i joins the requests that may light a lamp. */
  lemma BoardsWithButtonStep(rs: seq<Request>, i: int, floor: int)
    requires 0 <= i < |rs|
    ensures forall b :: BoardsWithButton(rs, i + 1, floor, b) <==>
      BoardsWithButton(rs, i, floor, b) || (BoardsAt(rs[i], floor) && rs[i].carButton == b)
  {
  }

  /** A request completed at `floor` has a lamp there: its destination is `floor`. */
  lemma CompletedHasLamp(rs: seq<Request>, i: nat, floor: int, lampCount: int)
    requires ButtonsIn(rs, lampCount) && i < |rs| && CompletesAt(rs[i], floor)
    ensures 1 <= floor <= lampCount
  {
    assert rs[i] in rs;
  }

  /** Turning the same lamp off twice is turning it off once. */
  lemma LampOffTwice(lamps: seq<bool>, j: nat)
    requires j < |lamps|
    ensures lamps[j := false][j := false] == lamps[j := false]
  {
  }

  /** One more step of the scan in RemoveCompletedAt. */
  lemma KeptStep(rs: seq<Request>, i: nat, floor: int)
    requires i < |rs|
    ensures Kept(rs[..i + 1], floor) == Kept(rs[..i], floor) + (if CompletesAt(rs[i], floor) then [] else [rs[i]])
    ensures SomeCompletes(rs, i + 1, floor) <==> SomeCompletes(rs, i, floor) || CompletesAt(rs[i], floor)
  {
    assert rs[..i + 1][..i] == rs[..i];
  }
}
