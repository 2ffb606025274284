/** 2D vector arithmetic (src/core/Vector2D.ts).
    `Vec` is the value of a vector; `Vector2D` is the mutable object whose
    in-place operations overwrite `x`/`y` and return the receiver.
    `Math.sqrt`, `Math.cos`, `Math.sin` and `Math.atan2` are not computable
    on `real`, so they are passed in as function values (`MathFns`); the only
    thing assumed about them is that `sqrt` is a square root. */
module Vectors {

  datatype Vec = Vec(x: real, y: real)

  function ZeroVec(): Vec { Vec(0.0, 0.0) }

  function Sum(a: Vec, b: Vec): Vec { Vec(a.x + b.x, a.y + b.y) }

  function Difference(a: Vec, b: Vec): Vec { Vec(a.x - b.x, a.y - b.y) }

  function Scale(a: Vec, k: real): Vec { Vec(a.x * k, a.y * k) }

  function LengthSq(a: Vec): real { a.x * a.x + a.y * a.y }

  /** `distanceSquaredTo`: squared distance from `a` to `b`. */
  function DistanceSquared(a: Vec, b: Vec): real
  {
    var dx := b.x - a.x;
    var dy := b.y - a.y;
    dx * dx + dy * dy
  }

  /** The host's transcendental functions. Only `sqrt` is constrained: it behaves as the
      non-negative square root (stated directly, because the solver's non-linear real
      arithmetic cannot derive the zero and sign cases from `s * s == r`). */
  datatype MathFns = MathFns(sqrt: real -> real, cos: real -> real, sin: real -> real, atan2: (real, real) -> real)
  {
    ghost predicate Valid() {
      && sqrt(0.0) == 0.0
      && (forall r :: r > 0.0 ==> sqrt(r) > 0.0)
      && (forall r :: r >= 0.0 ==> sqrt(r) * sqrt(r) == r)
    }
  }

  function Magnitude(m: MathFns, a: Vec): real { m.sqrt(LengthSq(a)) }

  /** `normalize`: divides by the length when it is positive, otherwise leaves the vector as it is. */
  function Normalized(m: MathFns, a: Vec): Vec
  {
    var len := Magnitude(m, a);
    if len > 0.0 then Vec(a.x / len, a.y / len) else a
  }

  /** `Vector2D.fromAngle(angle, length)`. */
  function FromAngle(m: MathFns, angle: real, length: real): Vec
  {
    Vec(m.cos(angle) * length, m.sin(angle) * length)
  }

  lemma {:induction false} AddThenSubtract(a: Vec, b: Vec)
    ensures Difference(Sum(a, b), b) == a && Sum(Difference(a, b), b) == a
  {
  }

  lemma DistanceSquaredLaws(a: Vec, b: Vec)
    ensures DistanceSquared(a, b) >= 0.0
    ensures DistanceSquared(a, b) == DistanceSquared(b, a)
    ensures DistanceSquared(a, a) == 0.0
  {
    var dx, dy := b.x - a.x, b.y - a.y;
    assert dx * dx >= 0.0 && dy * dy >= 0.0;
    assert (a.x - b.x) * (a.x - b.x) == dx * dx;
    assert (a.y - b.y) * (a.y - b.y) == dy * dy;
  }

  lemma LengthSquaredIsDistanceFromZero(a: Vec)
    ensures LengthSq(a) == DistanceSquared(ZeroVec(), a)
  {
  }

  lemma SquareSign(s: real)
    ensures s * s >= 0.0
    ensures s != 0.0 ==> s * s > 0.0
  {
    if s < 0.0 {
      var n := -s;
      assert n * n > 0.0;
      assert n * n == s * s;
    }
  }

  /** The squared length is never negative and is zero only for the zero vector. */
  lemma LengthSquaredSign(a: Vec)
    ensures LengthSq(a) >= 0.0
    ensures LengthSq(a) > 0.0 <==> a != ZeroVec()
  {
    SquareSign(a.x);
    SquareSign(a.y);
    if a != ZeroVec() {
      calc {
        LengthSq(a);
        == a.x * a.x + a.y * a.y;
        > 0.0;
      }
    } else {
      calc {
        LengthSq(a);
        == 0.0 * 0.0 + 0.0 * 0.0;
        == 0.0;
      }
    }
  }

  /** The `len > 0` guard of `normalize` fails exactly on the zero vector. */
  lemma NormalizeGuard(m: MathFns, a: Vec)
    requires m.Valid()
    ensures Magnitude(m, a) > 0.0 <==> a != ZeroVec()
    ensures a == ZeroVec() ==> Normalized(m, a) == ZeroVec()
  {
    LengthSquaredSign(a);
  }

  lemma DivSquare(x: real, l: real)
    requires l != 0.0
    ensures (x / l) * (x / l) * (l * l) == x * x
  {
    calc {
      (x / l) * (x / l) * (l * l);
      == ((x / l) * l) * ((x / l) * l);
      == x * x;
    }
  }

  lemma MulCancel(p: real, q: real, k: real)
    requires k != 0.0 && p * k == q * k
    ensures p == q
  {
    calc {
      p;
      == (p * k) / k;
      == (q * k) / k;
      == q;
    }
  }

  lemma NonNegativeProduct(a: real, b: real)
    requires a >= 0.0 && b >= 0.0
    ensures a * b >= 0.0
  {
  }

  lemma PositiveProduct(a: real, b: real)
    requires a > 0.0 && b > 0.0
    ensures a * b > 0.0
  {
  }

  /** A non-zero vector normalizes to a unit vector. */
  lemma NormalizedIsUnit(m: MathFns, a: Vec)
    requires m.Valid()
    requires a != ZeroVec()
    ensures LengthSq(Normalized(m, a)) == 1.0
  {
    NormalizeGuard(m, a);
    LengthSquaredSign(a);
    var l := Magnitude(m, a);
    var n := Normalized(m, a);
    assert n == Vec(a.x / l, a.y / l);
    assert l * l == LengthSq(a);
    DivSquare(a.x, l);
    DivSquare(a.y, l);
    calc {
      LengthSq(n) * (l * l);
      == (n.x * n.x + n.y * n.y) * (l * l);
      == n.x * n.x * (l * l) + n.y * n.y * (l * l);
      == a.x * a.x + a.y * a.y;
      == l * l;
      == 1.0 * (l * l);
    }
    assert l * l > 0.0;
    MulCancel(LengthSq(n), 1.0, l * l);
  }

  class Vector2D {
    var x: real
    var y: real

    constructor (x: real, y: real)
      ensures this.x == x && this.y == y
    {
      this.x := x;
      this.y := y;
    }

    function Value(): Vec reads this { Vec(x, y) }

    /** `clone`: a distinct object with the same coordinates. */
    method Clone() returns (c: Vector2D)
      ensures fresh(c) && c.Value() == Value()
    {
      c := new Vector2D(x, y);
    }

    /** `add`: when `other` is the receiver itself, the old coordinates are doubled. */
    method Add(other: Vector2D) returns (r: Vector2D)
      modifies this
      ensures r == this
      ensures Value() == Sum(old(Value()), old(other.Value()))
    {
      x := x + other.x;
      y := y + other.y;
      r := this;
    }

    method Subtract(other: Vector2D) returns (r: Vector2D)
      modifies this
      ensures r == this
      ensures Value() == Difference(old(Value()), old(other.Value()))
    {
      x := x - other.x;
      y := y - other.y;
      r := this;
    }

    method Multiply(scalar: real) returns (r: Vector2D)
      modifies this
      ensures r == this
      ensures Value() == Scale(old(Value()), scalar)
    {
      x := x * scalar;
      y := y * scalar;
      r := this;
    }

    method Set(x: real, y: real) returns (r: Vector2D)
      modifies this
      ensures r == this && Value() == Vec(x, y)
    {
      this.x := x;
      this.y := y;
      r := this;
    }

    method Normalize(m: MathFns) returns (r: Vector2D)
      modifies this
      ensures r == this
      ensures Value() == Normalized(m, old(Value()))
    {
      var len := Magnitude(m, Value());
      if len > 0.0 {
        x := x / len;
        y := y / len;
      }
      r := this;
    }

    /** `length()`: the square root of the squared length. */
    method Length(m: MathFns) returns (r: real)
      ensures r == Magnitude(m, Value())
      ensures m.Valid() ==> (r > 0.0 <==> Value() != ZeroVec())
    {
      var sq := x * x + y * y;
      assert sq == LengthSq(Value());
      r := m.sqrt(sq);
      if m.Valid() { NormalizeGuard(m, Value()); }
    }

    function LengthSquared(): (r: real)
      reads this
      ensures r == LengthSq(Value()) && r >= 0.0
    {
      LengthSquaredSign(Value());
      x * x + y * y
    }

    function DistanceSquaredTo(other: Vector2D): (r: real)
      reads this, other
      ensures r == DistanceSquared(Value(), other.Value())
      ensures r >= 0.0 && r == DistanceSquared(other.Value(), Value())
    {
      DistanceSquaredLaws(Value(), other.Value());
      var dx := other.x - x;
      var dy := other.y - y;
      dx * dx + dy * dy
    }

    /** `distanceTo`: the square root of `distanceSquaredTo`. */
    method DistanceTo(m: MathFns, other: Vector2D) returns (r: real)
      ensures r == m.sqrt(DistanceSquared(Value(), other.Value()))
      ensures r == m.sqrt(DistanceSquared(other.Value(), Value()))
    {
      DistanceSquaredLaws(Value(), other.Value());
      var dx := other.x - x;
      var dy := other.y - y;
      var sq := dx * dx + dy * dy;
      assert sq == DistanceSquared(Value(), other.Value());
      r := m.sqrt(sq);
    }

    /** `angle()`: `Math.atan2(y, x)`. */
    method Angle(m: MathFns) returns (r: real)
      ensures r == m.atan2(y, x)
    {
      r := m.atan2(y, x);
    }

    /** `Vector2D.fromAngle(angle, length)`. */
    static method MakeFromAngle(m: MathFns, angle: real, length: real) returns (v: Vector2D)
      ensures fresh(v) && v.Value() == FromAngle(m, angle, length)
    {
      v := new Vector2D(m.cos(angle) * length, m.sin(angle) * length);
    }

    static method Zero() returns (v: Vector2D)
      ensures fresh(v) && v.Value() == ZeroVec()
    {
      v := new Vector2D(0.0, 0.0);
    }
  }

  /** `add(v)` followed by `subtract(v)` restores the receiver when `v` is a different object. */
  method AddThenSubtractRestores(a: Vector2D, b: Vector2D)
    requires a != b
    modifies a
    ensures a.Value() == old(a.Value()) && b.Value() == old(b.Value())
  {
    var _ := a.Add(b);
    var _ := a.Subtract(b);
  }

  /** Mutating a clone leaves the original unchanged. */
  method CloneIsIndependent(a: Vector2D, k: real) returns (c: Vector2D)
    ensures fresh(c) && c.Value() == Scale(a.Value(), k)
    ensures a.Value() == old(a.Value())
  {
    c := a.Clone();
    var _ := c.Multiply(k);
  }

  /** `lengthSquared()` agrees with the squared distance from `Vector2D.zero()`. */
  method LengthSquaredFromZero(a: Vector2D) returns (d: real)
    ensures d == a.LengthSquared()
  {
    var z := Vector2D.Zero();
    d := z.DistanceSquaredTo(a);
  }
}
