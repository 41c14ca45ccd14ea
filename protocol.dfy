/**
 * The message envelope exchanged by the processes (Common/SystemRequest.java and
 * Common/SystemRequestType.java): which fields each constructor fills in, the text
 * rendering `toString`, and the one-byte answer to a stop question.
 */
module Protocol {
  import opened Wrappers
  import opened Common
  import opened Requests

  /** SystemRequestType. */
  datatype MessageKind =
    | RegisterElevatorController
    | NewPrimaryRequest
    | IsStopRequired
    | ProcessesRequestsAtCurrentFloor
    | ProcessCompletedRequests
    | SetFloorDirectionLamps
    | SetFloorLamps
    | AddNewRequest
    | StatusRequest

  /**
   * One message. Fields a constructor does not set keep Java's defaults: 0, false, and
   * null (None) for the direction and the carried request.
   */
  datatype SystemRequest = SystemRequest(
    id: int,
    floorNumber: int,
    direction: Option<Direction>,
    state: bool,
    kind: MessageKind,
    elevatorRequest: Option<Request>)

  /** new SystemRequest(type). */
  function OfKind(kind: MessageKind): (m: SystemRequest)
    ensures m.kind == kind && m.id == 0 && m.floorNumber == 0
    ensures m.direction == None && !m.state && m.elevatorRequest == None
  {
    SystemRequest(0, 0, None, false, kind, None)
  }

  /** new SystemRequest(type, elevatorRequest, id). */
  function WithRequest(kind: MessageKind, elevatorRequest: Option<Request>, id: int): (m: SystemRequest)
    ensures m.kind == kind && m.id == id && m.elevatorRequest == elevatorRequest
    ensures m.floorNumber == 0 && m.direction == None && !m.state
  {
    SystemRequest(id, 0, None, false, kind, elevatorRequest)
  }

  /** new SystemRequest(type, id). */
  function WithId(kind: MessageKind, id: int): (m: SystemRequest)
    ensures m.kind == kind && m.id == id
    ensures m.floorNumber == 0 && m.direction == None && !m.state && m.elevatorRequest == None
  {
    SystemRequest(id, 0, None, false, kind, None)
  }

  /** new SystemRequest(type, floorNumber, direction, id). */
  function AtFloor(kind: MessageKind, floorNumber: int, direction: Option<Direction>, id: int): (m: SystemRequest)
    ensures m.kind == kind && m.id == id && m.floorNumber == floorNumber && m.direction == direction
    ensures !m.state && m.elevatorRequest == None
  {
    SystemRequest(id, floorNumber, direction, false, kind, None)
  }

  /** new SystemRequest(type, floorNumber, direction, state, id). */
  function LampUpdate(kind: MessageKind, floorNumber: int, direction: Option<Direction>, state: bool, id: int): (m: SystemRequest)
    ensures m.kind == kind && m.id == id && m.floorNumber == floorNumber && m.direction == direction
    ensures m.state == state && m.elevatorRequest == None
  {
    SystemRequest(id, floorNumber, direction, state, kind, None)
  }

  /** Kinds whose rendering shows the floor and the direction. */
  predicate CarriesFloor(k: MessageKind) {
    k in {IsStopRequired, ProcessesRequestsAtCurrentFloor, ProcessCompletedRequests, SetFloorDirectionLamps, SetFloorLamps}
  }

  /** Kinds whose rendering also shows the lamp state. */
  predicate CarriesState(k: MessageKind) {
    k in {SetFloorDirectionLamps, SetFloorLamps}
  }

  // ---------------------------------------------------------------- text pieces

  /** `s` contains neither of the separators the rendering puts after a value. */
  predicate Word(s: string) {
    ' ' !in s && ';' !in s
  }

  /** `s` ends with the rendering's closing " |". */
  predicate EndsWithTrailer(s: string) {
    |s| >= 2 && s[|s| - 2..] == " |"
  }

  /** `s` starts with a separator. */
  predicate StartsWithSeparator(s: string) {
    s != [] && (s[0] == ' ' || s[0] == ';')
  }

  /** The enum constant's name. */
  function KindName(k: MessageKind): string
  {
    match k
    case RegisterElevatorController => "REGISTER_ELEVATOR_CONTROLLER"
    case NewPrimaryRequest => "NEW_PRIMARY_REQUEST"
    case IsStopRequired => "IS_STOP_REQUIRED"
    case ProcessesRequestsAtCurrentFloor => "PROCESSES_REQUESTS_AT_CURRENT_FLOOR"
    case ProcessCompletedRequests => "PROCESS_COMPLETED_REQUESTS"
    case SetFloorDirectionLamps => "SET_FLOOR_DIRECTION_LAMPS"
    case SetFloorLamps => "SET_FLOOR_LAMPS"
    case AddNewRequest => "ADD_NEW_REQUEST"
    case StatusRequest => "STATUS_REQUEST"
  }

  /** String concatenation of a nullable Direction: the constant's name, or "null". */
  function DirectionText(d: Option<Direction>): (t: string)
    ensures t != [] && Word(t)
  {
    match d
    case None => "null"
    case Some(Up) => "UP"
    case Some(Down) => "DOWN"
    case Some(Stopped) => "STOPPED"
  }

  function BoolText(b: bool): (t: string)
    ensures Word(t)
  {
    if b then "true" else "false"
  }

  function DigitChar(d: int): (c: char)
    requires 0 <= d < 10
    ensures '0' <= c <= '9'
  {
    ('0' as int + d) as char
  }

  /** Decimal digits of `n`, most significant first, without leading zeros. */
  function NatToString(n: nat): (s: string)
    ensures s != []
    ensures forall i :: 0 <= i < |s| ==> '0' <= s[i] <= '9'
    ensures n < 10 <==> |s| == 1
  {
    if n < 10 then [DigitChar(n)] else NatToString(n / 10) + [DigitChar(n % 10)]
  }

  /** Java's decimal rendering of an int: a minus sign before negative values. */
  function IntToString(i: int): (s: string)
    ensures s != [] && Word(s)
    ensures s[0] == '-' <==> i < 0
  {
    if i < 0 then "-" + NatToString(-i) else NatToString(i)
  }

  /** What an absent or present carried request prints as; `render` is ElevatorRequest.toString. */
  function RequestText(r: Option<Request>, render: Request -> string): string {
    match r
    case None => "null"
    case Some(x) => render(x)
  }

  /** "| RequestType = <type> ". */
  function Head(k: MessageKind): string {
    "| RequestType = " + KindName(k) + " "
  }

  /**
   * SystemRequest.toString, written as the nesting of its parts: the header and the
   * kind's name; then the carried request for ADD_NEW_REQUEST, the id for every other
   * kind; then floor and direction, then the lamp state, for the kinds that carry them;
   * then " |".
   */
  function ToString(m: SystemRequest, render: Request -> string): string {
    Head(m.kind) + Tail(m, render)
  }

  function Tail(m: SystemRequest, render: Request -> string): string {
    if m.kind == AddNewRequest then " ElevatorRequest = " + (RequestText(m.elevatorRequest, render) + " |")
    else "id = " + (IntToString(m.id) + AfterId(m))
  }

  function AfterId(m: SystemRequest): (s: string)
    ensures StartsWithSeparator(s)
  {
    if CarriesFloor(m.kind)
    then "; floorNumber = " + (IntToString(m.floorNumber) + ("; direction = " + (DirectionText(m.direction) + AfterDirection(m))))
    else " |"
  }

  function AfterDirection(m: SystemRequest): (s: string)
    ensures StartsWithSeparator(s)
  {
    if CarriesState(m.kind) then "; state = " + (BoolText(m.state) + " |") else " |"
  }

  // ---------------------------------------------------------------- rendering facts

  lemma TrailerKept(p: string, x: string)
    requires EndsWithTrailer(x)
    ensures EndsWithTrailer(p + x)
  {
    assert (p + x)[|p + x| - 2..] == x[|x| - 2..];
  }

  /** Every rendering starts with the header and the kind's name and ends with " |". */
  lemma ToStringFrame(m: SystemRequest, render: Request -> string)
    ensures var s, h := ToString(m, render), Head(m.kind);
      |s| >= |h| + 2 && s[..|h|] == h && EndsWithTrailer(s)
  {
    var h, t := Head(m.kind), Tail(m, render);
    assert EndsWithTrailer(" |");
    if m.kind == AddNewRequest {
      TrailerKept(RequestText(m.elevatorRequest, render), " |");
      TrailerKept(" ElevatorRequest = ", RequestText(m.elevatorRequest, render) + " |");
    } else {
      var e := AfterDirection(m);
      if CarriesState(m.kind) {
        TrailerKept(BoolText(m.state), " |");
        TrailerKept("; state = ", BoolText(m.state) + " |");
      }
      var a := AfterId(m);
      if CarriesFloor(m.kind) {
        TrailerKept(DirectionText(m.direction), e);
        TrailerKept("; direction = ", DirectionText(m.direction) + e);
        TrailerKept(IntToString(m.floorNumber), "; direction = " + (DirectionText(m.direction) + e));
        TrailerKept("; floorNumber = ", IntToString(m.floorNumber) + ("; direction = " + (DirectionText(m.direction) + e)));
      }
      TrailerKept(IntToString(m.id), a);
      TrailerKept("id = ", IntToString(m.id) + a);
    }
    TrailerKept(h, t);
    assert (h + t)[..|h|] == h;
  }

  /**
   * The renderings pinned by the envelope's unit test, one lemma each. Each expected text
   * is the test's string cut into the literal pieces the renderer joins, nested as it
   * joins them.
   */
  lemma ToStringAddNewRequestExample(r: Request, render: Request -> string)
    requires render(r) == "|Floor: 3, Direction: up, CarButton: 5|"
    ensures ToString(WithRequest(AddNewRequest, Some(r), 1), render)
      == "| RequestType = ADD_NEW_REQUEST " + (" ElevatorRequest = " + ("|Floor: 3, Direction: up, CarButton: 5|" + " |"))
  {
    var m := WithRequest(AddNewRequest, Some(r), 1);
    assert Head(m.kind) == "| RequestType = ADD_NEW_REQUEST ";
    assert RequestText(m.elevatorRequest, render) == render(r);
  }

  lemma ToStringRegisterExample(render: Request -> string)
    ensures ToString(WithId(RegisterElevatorController, 2), render)
      == "| RequestType = REGISTER_ELEVATOR_CONTROLLER " + ("id = " + ("2" + " |"))
  {
    var m := WithId(RegisterElevatorController, 2);
    assert Head(m.kind) == "| RequestType = REGISTER_ELEVATOR_CONTROLLER ";
    assert IntToString(2) == "2";
  }

  lemma ToStringStopQuestionExample(render: Request -> string)
    ensures ToString(WithId(IsStopRequired, 4), render)
      == "| RequestType = IS_STOP_REQUIRED " + ("id = " + ("4" + ("; floorNumber = " + ("0" + ("; direction = " + ("null" + " |"))))))
  {
    var m := WithId(IsStopRequired, 4);
    assert Head(m.kind) == "| RequestType = IS_STOP_REQUIRED ";
    assert IntToString(4) == "4" && IntToString(0) == "0";
    assert DirectionText(m.direction) == "null";
    assert AfterDirection(m) == " |";
  }

  lemma ToStringFloorLampExample(render: Request -> string)
    ensures ToString(LampUpdate(SetFloorLamps, 3, Some(Down), true, 6), render)
      == "| RequestType = SET_FLOOR_LAMPS " + ("id = " + ("6" + ("; floorNumber = " + ("3" + ("; direction = " + ("DOWN" + ("; state = " + ("true" + " |"))))))))
  {
    var m := LampUpdate(SetFloorLamps, 3, Some(Down), true, 6);
    assert Head(m.kind) == "| RequestType = SET_FLOOR_LAMPS ";
    assert IntToString(6) == "6" && IntToString(3) == "3";
    assert DirectionText(m.direction) == "DOWN" && BoolText(m.state) == "true";
  }

  // ---------------------------------------------------------------- the rendering can be read back

  lemma CancelPrefix(p: string, a: string, b: string)
    requires p + a == p + b
    ensures a == b
  {
    assert a == (p + a)[|p|..];
    assert b == (p + b)[|p|..];
  }
  /**
   * A delimiter-free word followed by text that starts with a delimiter splits in one
   * way only.
   */
  lemma SplitAtSeparator(a: string, x: string, b: string, y: string)
    requires a + x == b + y
    requires Word(a) && Word(b)
    requires StartsWithSeparator(x) && StartsWithSeparator(y)
    ensures a == b && x == y
  {
    assert a == (a + x)[..|a|];
    assert b == (b + y)[..|b|];
    CancelPrefix(a, x, y);
  }
  lemma {:induction false} NatToStringInjective(a: nat, b: nat)
    requires NatToString(a) == NatToString(b)
    ensures a == b
  {
    var sa, sb := NatToString(a), NatToString(b);
    if a < 10 {
      assert b < 10;
      assert DigitChar(a) == sa[0] == sb[0] == DigitChar(b);
    } else {
      assert b >= 10;
      var pa, pb := NatToString(a / 10), NatToString(b / 10);
      assert sa == pa + [DigitChar(a % 10)] && sb == pb + [DigitChar(b % 10)];
      assert |pa| == |pb|;
      assert pa == sa[..|sa| - 1] == sb[..|sb| - 1] == pb;
      assert DigitChar(a % 10) == sa[|sa| - 1] == sb[|sb| - 1] == DigitChar(b % 10);
      NatToStringInjective(a / 10, b / 10);
    }
  }
  lemma IntToStringInjective(i: int, j: int)
    requires IntToString(i) == IntToString(j)
    ensures i == j
  {
    if i < 0 {
      assert j < 0;
      CancelPrefix("-", NatToString(-i), NatToString(-j));
      NatToStringInjective(-i, -j);
    } else {
      assert j >= 0;
      NatToStringInjective(i, j);
    }
  }
  lemma DirectionTextInjective(d: Option<Direction>, e: Option<Direction>)
    requires DirectionText(d) == DirectionText(e)
    ensures d == e
  {
  }
  lemma TailDeterminesRequestText(m1: SystemRequest, m2: SystemRequest, render: Request -> string)
    requires m1.kind == m2.kind == AddNewRequest
    requires Tail(m1, render) == Tail(m2, render)
    ensures RequestText(m1.elevatorRequest, render) == RequestText(m2.elevatorRequest, render)
  {
    var t1, t2 := RequestText(m1.elevatorRequest, render), RequestText(m2.elevatorRequest, render);
    CancelPrefix(" ElevatorRequest = ", t1 + " |", t2 + " |");
    assert t1 == (t1 + " |")[..|t1|];
    assert t2 == (t2 + " |")[..|t2|];
  }

  lemma TailDeterminesId(m1: SystemRequest, m2: SystemRequest, render: Request -> string)
    requires m1.kind == m2.kind && m1.kind != AddNewRequest
    requires Tail(m1, render) == Tail(m2, render)
    ensures m1.id == m2.id && AfterId(m1) == AfterId(m2)
  {
    CancelPrefix("id = ", IntToString(m1.id) + AfterId(m1), IntToString(m2.id) + AfterId(m2));
    SplitAtSeparator(IntToString(m1.id), AfterId(m1), IntToString(m2.id), AfterId(m2));
    IntToStringInjective(m1.id, m2.id);
  }

  lemma AfterIdDeterminesFloor(m1: SystemRequest, m2: SystemRequest)
    requires m1.kind == m2.kind && CarriesFloor(m1.kind)
    requires AfterId(m1) == AfterId(m2)
    ensures m1.floorNumber == m2.floorNumber && m1.direction == m2.direction
    ensures AfterDirection(m1) == AfterDirection(m2)
  {
    var d1, d2 := DirectionText(m1.direction) + AfterDirection(m1), DirectionText(m2.direction) + AfterDirection(m2);
    var a1, a2 := IntToString(m1.floorNumber) + ("; direction = " + d1), IntToString(m2.floorNumber) + ("; direction = " + d2);
    CancelPrefix("; floorNumber = ", a1, a2);
    SplitAtSeparator(IntToString(m1.floorNumber), "; direction = " + d1, IntToString(m2.floorNumber), "; direction = " + d2);
    IntToStringInjective(m1.floorNumber, m2.floorNumber);
    CancelPrefix("; direction = ", d1, d2);
    SplitAtSeparator(DirectionText(m1.direction), AfterDirection(m1), DirectionText(m2.direction), AfterDirection(m2));
    DirectionTextInjective(m1.direction, m2.direction);
  }

  lemma AfterDirectionDeterminesState(m1: SystemRequest, m2: SystemRequest)
    requires m1.kind == m2.kind && CarriesState(m1.kind)
    requires AfterDirection(m1) == AfterDirection(m2)
    ensures m1.state == m2.state
  {
    CancelPrefix("; state = ", BoolText(m1.state) + " |", BoolText(m2.state) + " |");
    SplitAtSeparator(BoolText(m1.state), " |", BoolText(m2.state), " |");
  }

  /**
   * The rendering is a faithful record: two messages of one kind that print the same
   * agree on every field the kind prints (for ADD_NEW_REQUEST, the request's text).
   */
  lemma ToStringDeterminesFields(m1: SystemRequest, m2: SystemRequest, render: Request -> string)
    requires m1.kind == m2.kind
    requires ToString(m1, render) == ToString(m2, render)
    ensures m1.kind == AddNewRequest ==>
      RequestText(m1.elevatorRequest, render) == RequestText(m2.elevatorRequest, render)
    ensures m1.kind != AddNewRequest ==> m1.id == m2.id
    ensures CarriesFloor(m1.kind) ==> m1.floorNumber == m2.floorNumber && m1.direction == m2.direction
    ensures CarriesState(m1.kind) ==> m1.state == m2.state
  {
    CancelPrefix(Head(m1.kind), Tail(m1, render), Tail(m2, render));
    if m1.kind == AddNewRequest {
      TailDeterminesRequestText(m1, m2, render);
    } else {
      TailDeterminesId(m1, m2, render);
      if CarriesFloor(m1.kind) {
        AfterIdDeterminesFloor(m1, m2);
        if CarriesState(m1.kind) {
          AfterDirectionDeterminesState(m1, m2);
        }
      }
    }
  }


  // ---------------------------------------------------------------- the stop question's answer

  /** The car controller's one-byte answer to IS_STOP_REQUIRED: 1 for true, 0 for false. */
  function StopReply(required: bool): (data: seq<bv8>)
    ensures |data| == 1 && (data[0] == 1 <==> required) && (data[0] == 0 <==> !required)
  {
    [if required then 1 else 0]
  }

  /** How the moving car reads that answer: the first byte equals 1. */
  function ReadStopReply(data: seq<bv8>): (required: bool)
    requires |data| >= 1
    ensures required <==> data[0] == 1
  {
    data[0] == 1
  }

  /** Reading the answer gives back exactly the boolean the controller computed. */
  lemma StopReplyRoundTrip(required: bool)
    ensures ReadStopReply(StopReply(required)) == required
  {
  }
}
