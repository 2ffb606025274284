/** Keyboard state of src/core/InputManager.ts: a held flag and a pressed flag
    per key code, the edge-triggered press that reading consumes, and the
    movement direction read from WASD and the arrow keys. The handlers that
    the browser calls become the methods `KeyDown` and `KeyUp`. */
module Input {
  import opened Vectors

  /** The two flags the manager keeps for one key code. */
  datatype KeyState = KeyState(held: bool, pressed: bool)

  /** What the flags of a key that was never touched read as (`map.get(code) || false`). */
  function Untouched(): KeyState { KeyState(false, false) }

  /** keydown: the key is held, and it is pressed if it was not held before (an
      auto-repeated keydown of a held key does not press it again). */
  function OnKeyDown(k: KeyState): (r: KeyState)
    ensures r.held
    ensures r.pressed <==> k.pressed || !k.held
  {
    KeyState(true, if !k.held then true else k.pressed)
  }

  /** keyup clears both flags. */
  function OnKeyUp(k: KeyState): (r: KeyState)
    ensures !r.held && !r.pressed
  {
    KeyState(false, false)
  }

  datatype ReadResult = ReadResult(pressed: bool, after: KeyState)

  /** `isKeyPressed`: answers the pressed flag and clears it. */
  function OnRead(k: KeyState): (r: ReadResult)
    ensures r.pressed == k.pressed && !r.after.pressed && r.after.held == k.held
  {
    ReadResult(k.pressed, k.(pressed := false))
  }

  /** Every state the handlers can reach: a key is only pressed while held. */
  predicate Reachable(k: KeyState) { k.pressed ==> k.held }

  lemma HandlersKeepReachable(k: KeyState)
    ensures Reachable(Untouched())
    ensures Reachable(OnKeyDown(k)) && Reachable(OnKeyUp(k))
    ensures Reachable(k) ==> Reachable(OnRead(k).after)
  {
  }

  datatype KeyEvent = Down | Up | Read

  /** The number of reads that answer true over a run of events on one key. */
  function TrueReads(k: KeyState, events: seq<KeyEvent>): nat
    decreases |events|
  {
    if events == [] then 0
    else match events[0]
      case Down => TrueReads(OnKeyDown(k), events[1..])
      case Up => TrueReads(OnKeyUp(k), events[1..])
      case Read => (if k.pressed then 1 else 0) + TrueReads(OnRead(k).after, events[1..])
  }

  /** Whether a read could still answer true before the next keyup. */
  function Armed(k: KeyState): nat { if k.pressed || !k.held then 1 else 0 }

  /** Between two keyups, however many keydowns (auto-repeat) and reads happen, at most one
      read answers true: one press per edge. */
  lemma {:induction false} OnePressPerEdge(k: KeyState, events: seq<KeyEvent>)
    requires Reachable(k)
    requires forall i :: 0 <= i < |events| ==> events[i] != Up
    ensures TrueReads(k, events) <= Armed(k)
    decreases |events|
  {
    if events != [] {
      var rest := events[1..];
      assert forall i :: 0 <= i < |rest| ==> rest[i] != Up by {
        forall i | 0 <= i < |rest| ensures rest[i] != Up { assert rest[i] == events[i + 1]; }
      }
      match events[0]
      case Down =>
        OnePressPerEdge(OnKeyDown(k), rest);
      case Read =>
        OnePressPerEdge(OnRead(k).after, rest);
    }
  }

  /** A keydown on a released key followed by a read answers true, and a second read false. */
  lemma PressThenReadTwice(k: KeyState)
    requires !k.held
    ensures TrueReads(k, [Down, Read]) == 1
    ensures TrueReads(k, [Down, Read, Read]) == 1
    ensures TrueReads(k, [Down, Read, Down, Read]) == 1
  {
  }

  /** The axis value from a negative and a positive key: opposite keys cancel. */
  function Axis(negative: bool, positive: bool): (a: real)
    ensures a == -1.0 || a == 0.0 || a == 1.0
    ensures a == 0.0 <==> negative == positive
    ensures a > 0.0 <==> positive && !negative
  {
    (if negative then -1.0 else 0.0) + (if positive then 1.0 else 0.0)
  }

  lemma UnitSquares(x: real, y: real)
    requires (x == 1.0 || x == -1.0) && (y == 1.0 || y == -1.0)
    ensures x * x == 1.0 && y * y == 1.0 && x * x + y * y == 2.0
  {
  }

  /** `getMovementDirection` for the given held directions, diagonals divided by their length
      (`Math.sqrt(2)`, positive for a valid `sqrt`). */
  function Direction(m: MathFns, up: bool, down: bool, left: bool, right: bool): Vec
    requires m.Valid()
  {
    var x := Axis(left, right);
    var y := Axis(up, down);
    if x != 0.0 && y != 0.0 then
      UnitSquares(x, y);
      var len := m.sqrt(x * x + y * y);
      Vec(x / len, y / len)
    else Vec(x, y)
  }

  /** No direction unless some axis has exactly one of its keys held; a single axis reads
      as -1, 0 or 1. */
  lemma DirectionOnAxes(m: MathFns, up: bool, down: bool, left: bool, right: bool)
    requires m.Valid()
    ensures Direction(m, up, down, left, right) == ZeroVec() <==> up == down && left == right
    ensures (up == down || left == right) ==>
      Direction(m, up, down, left, right) == Vec(Axis(left, right), Axis(up, down))
  {
    var x := Axis(left, right);
    var y := Axis(up, down);
    if x != 0.0 && y != 0.0 {
      UnitSquares(x, y);
      var len := m.sqrt(x * x + y * y);
      assert len > 0.0;
      assert x / len != 0.0;
    }
  }

  lemma HalfSquare(x: real, len: real)
    requires x * x == 1.0 && len > 0.0 && len * len == 2.0
    ensures (x / len) * (x / len) == 0.5
    ensures x / len > 0.0 <==> x > 0.0
  {
    var p := x / len;
    assert p * len == x;
    calc {
      p * p * 2.0;
      == p * p * (len * len);
      == (p * len) * (p * len);
      == x * x;
      == 1.0;
    }
    if x > 0.0 {
      PositiveProduct(x, 1.0 / len);
    } else {
      NonNegativeProduct(-x, 1.0 / len);
    }
  }

  lemma DiagonalArithmetic(x: real, y: real, len: real)
    requires x * x == 1.0 && y * y == 1.0 && len > 0.0 && len * len == 2.0
    ensures LengthSq(Vec(x / len, y / len)) == 1.0
    ensures x / len > 0.0 <==> x > 0.0
    ensures y / len > 0.0 <==> y > 0.0
  {
    HalfSquare(x, len);
    HalfSquare(y, len);
  }

  /** A diagonal has unit length and keeps the signs of its keys. */
  lemma DiagonalIsUnit(m: MathFns, up: bool, down: bool, left: bool, right: bool)
    requires m.Valid()
    requires up != down && left != right
    ensures LengthSq(Direction(m, up, down, left, right)) == 1.0
    ensures Direction(m, up, down, left, right).x > 0.0 <==> right
    ensures Direction(m, up, down, left, right).y > 0.0 <==> down
  {
    var x := Axis(left, right);
    var y := Axis(up, down);
    UnitSquares(x, y);
    var len := m.sqrt(x * x + y * y);
    DiagonalArithmetic(x, y, len);
  }

  /** The browser-facing key maps and their handlers. */
  class InputManager {
    var keys: map<string, bool>
    var keysPressed: map<string, bool>

    constructor ()
      ensures keys == map[] && keysPressed == map[]
    {
      keys := map[];
      keysPressed := map[];
    }

    static function Flag(flags: map<string, bool>, code: string): bool
    {
      code in flags && flags[code]
    }

    function State(code: string): KeyState
      reads this
    {
      KeyState(Flag(keys, code), Flag(keysPressed, code))
    }

    /** The keydown handler. */
    method KeyDown(code: string)
      modifies this
      ensures keys == old(keys)[code := true]
      ensures keysPressed == if old(Flag(keys, code)) then old(keysPressed) else old(keysPressed)[code := true]
      ensures State(code) == OnKeyDown(old(State(code)))
      ensures forall c :: c != code ==> State(c) == old(State(c))
    {
      if !Flag(keys, code) {
        keysPressed := keysPressed[code := true];
      }
      keys := keys[code := true];
    }

    /** The keyup handler. */
    method KeyUp(code: string)
      modifies this
      ensures keys == old(keys)[code := false] && keysPressed == old(keysPressed)[code := false]
      ensures State(code) == OnKeyUp(old(State(code)))
      ensures forall c :: c != code ==> State(c) == old(State(c))
    {
      keys := keys[code := false];
      keysPressed := keysPressed[code := false];
    }

    function IsKeyDown(code: string): bool
      reads this`keys
    {
      Flag(keys, code)
    }

    /** `isKeyPressed`: reading the press consumes it. */
    method IsKeyPressed(code: string) returns (pressed: bool)
      modifies this`keysPressed
      ensures pressed == old(Flag(keysPressed, code))
      ensures keysPressed == if pressed then old(keysPressed)[code := false] else old(keysPressed)
      ensures OnRead(old(State(code))) == ReadResult(pressed, State(code))
      ensures forall c :: c != code ==> State(c) == old(State(c))
    {
      pressed := Flag(keysPressed, code);
      if pressed {
        keysPressed := keysPressed[code := false];
      }
    }

    function Up(): bool reads this`keys { IsKeyDown("KeyW") || IsKeyDown("ArrowUp") }
    function Down(): bool reads this`keys { IsKeyDown("KeyS") || IsKeyDown("ArrowDown") }
    function Left(): bool reads this`keys { IsKeyDown("KeyA") || IsKeyDown("ArrowLeft") }
    function Right(): bool reads this`keys { IsKeyDown("KeyD") || IsKeyDown("ArrowRight") }

    /** `getMovementDirection`: -1/+1 per held direction key, a diagonal scaled to unit length. */
    method GetMovementDirection(m: MathFns) returns (dir: Vec)
      requires m.Valid()
      ensures dir == Direction(m, Up(), Down(), Left(), Right())
    {
      var x := 0.0;
      var y := 0.0;
      if IsKeyDown("KeyW") || IsKeyDown("ArrowUp") { y := y - 1.0; }
      if IsKeyDown("KeyS") || IsKeyDown("ArrowDown") { y := y + 1.0; }
      if IsKeyDown("KeyA") || IsKeyDown("ArrowLeft") { x := x - 1.0; }
      if IsKeyDown("KeyD") || IsKeyDown("ArrowRight") { x := x + 1.0; }
      assert x == Axis(Left(), Right()) && y == Axis(Up(), Down());
      if x != 0.0 && y != 0.0 {
        UnitSquares(x, y);
        var length := m.sqrt(x * x + y * y);
        x := x / length;
        y := y / length;
      }
      dir := Vec(x, y);
    }
  }
}
