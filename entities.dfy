/** Rules shared by every entity (src/core/Entity.ts): circle collision, the
    camera-relative screen position, and the "count down while positive" timer
    pattern that the player and enemy updates use for every timer field.
    Dafny has no inheritance here, so each entity class in `Simulation`
    declares the `Entity` fields itself and uses these functions. */
module Entities {
  import opened Vectors

  /** `collidesWith`: strict comparison of the squared distance with the squared sum of radii. */
  predicate Collides(p: Vec, r: real, q: Vec, s: real)
  {
    DistanceSquared(p, q) < (r + s) * (r + s)
  }

  lemma CollidesSymmetric(p: Vec, r: real, q: Vec, s: real)
    ensures Collides(p, r, q, s) <==> Collides(q, s, p, r)
  {
    DistanceSquaredLaws(p, q);
    assert (r + s) * (r + s) == (s + r) * (s + r);
  }

  /** Two circles whose centres are exactly `r + s` apart along the x axis are not colliding. */
  lemma TouchingDoesNotCollide(p: Vec, r: real, s: real)
    ensures !Collides(p, r, Vec(p.x + r + s, p.y), s)
  {
    var q := Vec(p.x + r + s, p.y);
    calc {
      DistanceSquared(p, q);
      == (q.x - p.x) * (q.x - p.x) + (q.y - p.y) * (q.y - p.y);
      == (r + s) * (r + s) + 0.0 * 0.0;
      == (r + s) * (r + s);
    }
  }

  /** Circles that overlap at the same centre collide as soon as a radius is positive. */
  lemma SameCentreCollides(p: Vec, r: real, s: real)
    requires r >= 0.0 && s >= 0.0 && r + s > 0.0
    ensures Collides(p, r, p, s)
  {
    DistanceSquaredLaws(p, p);
    var k := r + s;
    SquareSign(k);
    calc {
      DistanceSquared(p, p);
      == 0.0;
      < k * k;
      == (r + s) * (r + s);
    }
  }

  /** `getScreenPosition`: the position relative to the camera; adding the camera back gives the position. */
  function ScreenPosition(position: Vec, camera: Vec): (r: Vec)
    ensures Sum(r, camera) == position
  {
    Vec(position.x - camera.x, position.y - camera.y)
  }

  /** `if (t > 0) t -= dt`: a timer that only counts down while it is positive. */
  function Countdown(t: real, dt: real): (r: real)
    ensures dt >= 0.0 ==> r <= t
    ensures t <= 0.0 ==> r == t
  {
    if t > 0.0 then t - dt else t
  }

  /** Running a timer over a sequence of non-negative frame times. */
  function CountdownAll(t: real, dts: seq<real>): real
    decreases |dts|
  {
    if dts == [] then t else CountdownAll(Countdown(t, dts[0]), dts[1..])
  }

  function Total(dts: seq<real>): real
    decreases |dts|
  {
    if dts == [] then 0.0 else dts[0] + Total(dts[1..])
  }

  predicate AllNonNegative(dts: seq<real>)
  {
    forall i :: 0 <= i < |dts| ==> dts[i] >= 0.0
  }

  lemma AllNonNegativeTail(dts: seq<real>)
    requires dts != [] && AllNonNegative(dts)
    ensures AllNonNegative(dts[1..])
  {
    forall i | 0 <= i < |dts[1..]| ensures dts[1..][i] >= 0.0 { assert dts[1..][i] == dts[i + 1]; }
  }

  lemma {:induction false} TotalNonNegative(dts: seq<real>)
    requires AllNonNegative(dts)
    ensures Total(dts) >= 0.0
    decreases |dts|
  {
    if dts != [] {
      AllNonNegativeTail(dts);
      TotalNonNegative(dts[1..]);
    }
  }

  /** A positive timer expires (reaches a value <= 0) once the frame times add up to it,
      and an expired timer is left alone. */
  lemma {:induction false} CountdownExpires(t: real, dts: seq<real>)
    requires AllNonNegative(dts)
    ensures Total(dts) >= t ==> CountdownAll(t, dts) <= 0.0
    ensures t <= 0.0 ==> CountdownAll(t, dts) == t
    decreases |dts|
  {
    if dts != [] {
      AllNonNegativeTail(dts);
      CountdownExpires(Countdown(t, dts[0]), dts[1..]);
      if t > 0.0 && Total(dts) >= t {
        assert Total(dts[1..]) >= t - dts[0];
      }
    }
  }
}
