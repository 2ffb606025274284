/** Pickup rules (src/entities/Pickup.ts): the three pickup types, the
    30-second lifetime, and what `collect` asks of the player for each type.
    The pickup object is `Simulation.Pickup`. */
module Pickups {
  import opened Vectors

  datatype PickupKind = Xp | Health | Coin

  const Lifetime: real := 30.0
  const PickupRadius: real := 8.0

  datatype LifetimeTick = LifetimeTick(lifetime: real, expires: bool)

  /** `lifetime -= dt; if (lifetime <= 0) kill()`. */
  function LifetimeStep(lifetime: real, dt: real): (r: LifetimeTick)
    ensures r.lifetime + dt == lifetime
    ensures !r.expires <==> r.lifetime > 0.0
  {
    var l := lifetime - dt;
    LifetimeTick(l, l <= 0.0)
  }

  /** The lifetimes over a run of updates, stopping when the pickup expires (it is
      then removed). */
  function UpdatesSurvived(lifetime: real, dts: seq<real>): nat
    decreases |dts|
  {
    if dts == [] then 0
    else
      var r := LifetimeStep(lifetime, dts[0]);
      if r.expires then 0 else 1 + UpdatesSurvived(r.lifetime, dts[1..])
  }

  function Prefix(dts: seq<real>, n: nat): real
    requires n <= |dts|
    decreases n
  {
    if n == 0 then 0.0 else Prefix(dts, n - 1) + dts[n - 1]
  }

  /** A pickup survives exactly those updates after which less time than its lifetime
      has passed: it expires on the first update where the elapsed time reaches 30 s. */
  lemma {:induction false} SurvivesWhileTimeRemains(lifetime: real, dts: seq<real>, n: nat)
    requires n <= |dts|
    ensures n <= UpdatesSurvived(lifetime, dts) ==> forall k :: 1 <= k <= n ==> Prefix(dts, k) < lifetime
    ensures (forall k :: 1 <= k <= n ==> Prefix(dts, k) < lifetime) ==> n <= UpdatesSurvived(lifetime, dts)
    decreases n
  {
    if n > 0 {
      var r := LifetimeStep(lifetime, dts[0]);
      var rest := dts[1..];
      SurvivesWhileTimeRemains(r.lifetime, rest, n - 1);
      forall k | 1 <= k <= n ensures Prefix(dts, k) == dts[0] + Prefix(rest, k - 1) {
        PrefixShift(dts, k);
      }
      if n <= UpdatesSurvived(lifetime, dts) {
        assert !r.expires;
        forall k | 1 <= k <= n ensures Prefix(dts, k) < lifetime {
          if k > 1 { assert Prefix(rest, k - 1) < r.lifetime; }
        }
      } else if !r.expires {
        var j :| 1 <= j <= n - 1 && Prefix(rest, j) >= r.lifetime;
        assert Prefix(dts, j + 1) >= lifetime;
      } else {
        assert Prefix(dts, 1) >= lifetime;
      }
    }
  }

  lemma {:induction false} PrefixShift(dts: seq<real>, n: nat)
    requires 1 <= n <= |dts|
    ensures Prefix(dts, n) == dts[0] + Prefix(dts[1..], n - 1)
    decreases n
  {
    if n > 1 {
      PrefixShift(dts, n - 1);
    }
  }

  /** What `collect` does to the player. */
  datatype Effect = AddXp(xp: int) | Heal(amount: real) | NoEffect

  function CollectEffect(k: PickupKind, value: int): (e: Effect)
    ensures e.AddXp? <==> k == Xp
    ensures e.Heal? <==> k == Health
    ensures e.AddXp? ==> e.xp == value
    ensures e.Heal? ==> e.amount == value as real
  {
    match k
    case Xp => AddXp(value)
    case Health => Heal(value as real)
    case Coin => NoEffect
  }

  /** The fields of one pickup object (`bobOffset` is drawing state and left out). */
  datatype PickupState = PickupState(kind: PickupKind, value: int, position: Vec, lifetime: real, isDead: bool)

  /** The pickup `dropXP` creates where an enemy died. */
  function Dropped(at: Vec, xpValue: int): (p: PickupState)
    ensures p.kind == Xp && p.value == xpValue && p.position == at
    ensures p.lifetime == Lifetime && !p.isDead
  {
    PickupState(Xp, xpValue, at, Lifetime, false)
  }

  /** `Pickup.update`. */
  function PickupStep(p: PickupState, dt: real): (r: PickupState)
  {
    var t := LifetimeStep(p.lifetime, dt);
    p.(lifetime := t.lifetime, isDead := p.isDead || t.expires)
  }

  /** An update only runs the clock: type, value and position never change, and a pickup
      left alive has time left. */
  lemma PickupStepRules(p: PickupState, dt: real)
    ensures var r := PickupStep(p, dt);
      && r.kind == p.kind && r.value == p.value && r.position == p.position
      && r.lifetime == p.lifetime - dt
      && (!r.isDead ==> r.lifetime > 0.0)
      && (r.isDead <==> p.isDead || p.lifetime - dt <= 0.0)
  {
  }
}
