/** The weapon rules of src/weapons: the stat record, the starting stats and the
    level-indexed upgrade tables of the SMG and the Shotgun, the upgrade
    descriptions, the fire-timer cycle of `Weapon.update`, the aim offsets of
    both weapons and the nearest-target choice. The `Weapon` object that owns
    this state is `Simulation.Weapon`. */
module Weapons {
  import opened Vectors
  import opened Entities

  datatype WeaponKind = SMG | Shotgun

  datatype WeaponStats = WeaponStats(
    damage: real,
    fireRate: real,
    projectileCount: nat,
    pierce: nat,
    range: real,
    projectileSpeed: real,
    spread: real)

  /** The fields of one weapon object, its owner aside. */
  datatype WeaponState = WeaponState(kind: WeaponKind, level: int, stats: WeaponStats, fireTimer: real)

  function Name(k: WeaponKind): string
  {
    match k
    case SMG => "SMG"
    case Shotgun => "Shotgun"
  }

  function InitialStats(k: WeaponKind): WeaponStats
  {
    match k
    case SMG => WeaponStats(8.0, 5.0, 1, 0, 400.0, 500.0, 0.1)
    case Shotgun => WeaponStats(15.0, 2.0, 5, 0, 250.0, 600.0, 0.6)
  }

  /** The `switch (this.level)` of `upgrade`, applied after `level` has been incremented to `level`. */
  function UpgradeStep(k: WeaponKind, level: int, s: WeaponStats): WeaponStats
  {
    match k
    case SMG =>
      if level == 2 then s.(damage := s.damage + 2.0, fireRate := s.fireRate + 1.0)
      else if level == 3 then s.(projectileCount := s.projectileCount + 1, spread := s.spread * 1.5)
      else if level == 4 then s.(pierce := s.pierce + 1, damage := s.damage + 3.0)
      else if level == 5 then s.(fireRate := s.fireRate + 2.0, projectileCount := s.projectileCount + 1)
      else s
    case Shotgun =>
      if level == 2 then s.(damage := s.damage + 5.0, projectileCount := s.projectileCount + 2)
      else if level == 3 then s.(fireRate := s.fireRate + 0.5, damage := s.damage + 5.0)
      else if level == 4 then s.(pierce := s.pierce + 1, projectileCount := s.projectileCount + 2)
      else if level == 5 then s.(damage := s.damage + 10.0, range := s.range + 100.0)
      else s
  }

  /** The stats of a weapon that was created at level 1 and upgraded up to `level`. */
  function StatsAtLevel(k: WeaponKind, level: int): WeaponStats
    decreases level
  {
    if level <= 1 then InitialStats(k) else UpgradeStep(k, level, StatsAtLevel(k, level - 1))
  }

  /** A weapon as its constructor makes it. */
  function NewWeapon(k: WeaponKind): WeaponState
  {
    WeaponState(k, 1, InitialStats(k), 0.0)
  }

  /** `upgrade`: the level goes up by one and the `switch` on the new level changes the stats. */
  function Upgraded(w: WeaponState): WeaponState
  {
    w.(level := w.level + 1, stats := UpgradeStep(w.kind, w.level + 1, w.stats))
  }

  /** A weapon whose stats are those of its level still has them after an upgrade. */
  lemma UpgradedStaysAtLevel(w: WeaponState)
    requires w.level >= 1 && w.stats == StatsAtLevel(w.kind, w.level)
    ensures Upgraded(w).level == w.level + 1 && Upgraded(w).stats == StatsAtLevel(w.kind, w.level + 1)
    ensures Upgraded(w).kind == w.kind && Upgraded(w).fireTimer == w.fireTimer
  {
  }

  /** Every stat is at least as large in `s` as in `t`. */
  predicate AtLeast(s: WeaponStats, t: WeaponStats)
  {
    && s.damage >= t.damage && s.fireRate >= t.fireRate
    && s.projectileCount >= t.projectileCount && s.pierce >= t.pierce
    && s.range >= t.range && s.projectileSpeed >= t.projectileSpeed && s.spread >= t.spread
  }

  /** What every reachable stat record satisfies: nothing is below the starting value. It
      keeps `1 / fireRate` defined and the Shotgun's `projectileCount - 1` divisor positive. */
  predicate StatsValid(k: WeaponKind, s: WeaponStats)
  {
    AtLeast(s, InitialStats(k))
  }

  /** Upgrades only add (the SMG's spread is multiplied by 1.5 and stays non-negative). */
  lemma UpgradeNeverWeakens(k: WeaponKind, level: int, s: WeaponStats)
    requires s.spread >= 0.0
    ensures AtLeast(UpgradeStep(k, level, s), s)
  {
  }

  lemma UpgradeKeepsValid(k: WeaponKind, level: int, s: WeaponStats)
    requires StatsValid(k, s)
    ensures StatsValid(k, UpgradeStep(k, level, s))
  {
    UpgradeNeverWeakens(k, level, s);
  }

  /** Every level a weapon can reach has valid stats. */
  lemma {:induction false} StatsAtLevelValid(k: WeaponKind, level: int)
    ensures StatsValid(k, StatsAtLevel(k, level))
    decreases level
  {
    if level > 1 {
      StatsAtLevelValid(k, level - 1);
      UpgradeKeepsValid(k, level, StatsAtLevel(k, level - 1));
    }
  }

  lemma StatsValidKeepsDivisorsPositive(k: WeaponKind, s: WeaponStats)
    requires StatsValid(k, s)
    ensures s.fireRate > 0.0 && s.projectileCount >= 1
    ensures k == Shotgun ==> s.projectileCount >= 5
  {
  }

  lemma SmgUpgradeTable()
    ensures StatsAtLevel(SMG, 5) == WeaponStats(13.0, 8.0, 3, 1, 400.0, 500.0, 0.15)
  {
  }

  lemma ShotgunUpgradeTable()
    ensures StatsAtLevel(Shotgun, 5) == WeaponStats(35.0, 2.5, 9, 1, 350.0, 600.0, 0.6)
  {
  }

  /** An upgrade past level 5 only raises the level: the stats stay those of level 5. */
  lemma {:induction false} NoUpgradePastFive(k: WeaponKind, level: int)
    requires level >= 5
    ensures StatsAtLevel(k, level) == StatsAtLevel(k, 5)
    decreases level
  {
    if level > 5 {
      NoUpgradePastFive(k, level - 1);
    }
  }

  /** `getUpgradeDescription`: what the upgrade from `level` to `level + 1` does. */
  function Description(k: WeaponKind, level: int): string
  {
    match k
    case SMG =>
      if level == 1 then "+2 damage, +1 fire rate"
      else if level == 2 then "+1 projectile"
      else if level == 3 then "+1 pierce, +3 damage"
      else if level == 4 then "+2 fire rate, +1 projectile"
      else "MAX LEVEL"
    case Shotgun =>
      if level == 1 then "+5 damage, +2 pellets"
      else if level == 2 then "+0.5 fire rate, +5 damage"
      else if level == 3 then "+1 pierce, +2 pellets"
      else if level == 4 then "+10 damage, +100 range"
      else "MAX LEVEL"
  }

  /** The description says "MAX LEVEL" exactly when no upgrade step follows the level
      (levels 5 on, and the switch's default branch below 1). */
  lemma DescriptionMaxLevel(k: WeaponKind, level: int)
    ensures Description(k, level) == "MAX LEVEL" <==> !(1 <= level <= 4)
    ensures level >= 5 ==> UpgradeStep(k, level + 1, StatsAtLevel(k, level)) == StatsAtLevel(k, level)
  {
    if 1 <= level <= 4 {
      assert Description(k, level)[0] == '+';
    }
  }

  /** The outcome of one `Weapon.update` on the fire timer. */
  datatype FireTick = FireTick(timer: real, fired: bool)

  /** `fireTimer += dt; if (fireTimer >= 1 / fireRate) { fire(); fireTimer = 0 }`. */
  function FireTimerStep(timer: real, dt: real, fireRate: real): (r: FireTick)
    requires fireRate > 0.0
    ensures r.timer < 1.0 / fireRate || r.timer == 0.0
  {
    var t := timer + dt;
    if t >= 1.0 / fireRate then FireTick(0.0, true) else FireTick(t, false)
  }

  /** It fires exactly when the accumulated time reaches the interval, and then no remainder is kept. */
  lemma FireTimerStepFires(timer: real, dt: real, fireRate: real)
    requires fireRate > 0.0
    ensures FireTimerStep(timer, dt, fireRate).fired <==> timer + dt >= 1.0 / fireRate
    ensures FireTimerStep(timer, dt, fireRate).fired ==> FireTimerStep(timer, dt, fireRate).timer == 0.0
    ensures !FireTimerStep(timer, dt, fireRate).fired ==> FireTimerStep(timer, dt, fireRate).timer == timer + dt
  {
  }

  /** The number of shots over a sequence of updates. */
  function Shots(timer: real, dts: seq<real>, fireRate: real): nat
    requires fireRate > 0.0
    decreases |dts|
  {
    if dts == [] then 0
    else
      var r := FireTimerStep(timer, dts[0], fireRate);
      (if r.fired then 1 else 0) + Shots(r.timer, dts[1..], fireRate)
  }

  function TimerAfter(timer: real, dts: seq<real>, fireRate: real): real
    requires fireRate > 0.0
    decreases |dts|
  {
    if dts == [] then timer else TimerAfter(FireTimerStep(timer, dts[0], fireRate).timer, dts[1..], fireRate)
  }

  /** `n` intervals added up. */
  function Repeat(n: nat, x: real): real
  {
    if n == 0 then 0.0 else x + Repeat(n - 1, x)
  }

  /** Every shot uses up a full interval of accumulated time, so the shots over any run of
      updates take no more time than the run supplied (the leftover timer included). */
  lemma {:induction false} ShotsBoundedByTime(timer: real, dts: seq<real>, fireRate: real)
    requires fireRate > 0.0
    ensures Repeat(Shots(timer, dts, fireRate), 1.0 / fireRate) + TimerAfter(timer, dts, fireRate) <= timer + Total(dts)
    decreases |dts|
  {
    if dts != [] {
      var r := FireTimerStep(timer, dts[0], fireRate);
      ShotsBoundedByTime(r.timer, dts[1..], fireRate);
    }
  }

  /** The Shotgun's `i / (projectileCount - 1) - 0.5`. */
  function PelletOffset(i: nat, n: nat): real
    requires n >= 2
  {
    (i as real) / ((n - 1) as real) - 0.5
  }

  /** The pellet offsets run from -0.5 to +0.5 in steps of `1 / (n - 1)`, symmetrically. */
  lemma PelletOffsets(i: nat, n: nat)
    requires n >= 2 && i < n
    ensures -0.5 <= PelletOffset(i, n) <= 0.5
    ensures PelletOffset(0, n) == -0.5 && PelletOffset(n - 1, n) == 0.5
    ensures PelletOffset(i, n) + PelletOffset(n - 1 - i, n) == 0.0
    ensures i + 1 < n ==> PelletOffset(i + 1, n) - PelletOffset(i, n) == 1.0 / ((n - 1) as real)
  {
    var d := (n - 1) as real;
    var a := i as real;
    assert d > 0.0;
    calc {
      a / d + ((n - 1 - i) as real) / d;
      == a / d + (d - a) / d;
      == (a + (d - a)) / d;
      == d / d;
      == 1.0;
    }
    calc {
      (a + 1.0) / d - a / d;
      == ((a + 1.0) - a) / d;
      == 1.0 / d;
    }
    assert 0.0 <= a / d;
    assert a / d <= d / d;
  }

  /** The SMG's `(Math.random() - 0.5) * spread` for a draw `r`. */
  function SpreadOffset(r: real, spread: real): real
  {
    (r - 0.5) * spread
  }

  lemma SpreadOffsetRange(r: real, spread: real)
    requires 0.0 <= r < 1.0 && spread > 0.0
    ensures -spread / 2.0 <= SpreadOffset(r, spread) < spread / 2.0
  {
    var u := r - 0.5;
    assert -0.5 <= u < 0.5;
    calc {
      SpreadOffset(r, spread) - (-spread / 2.0);
      == u * spread + 0.5 * spread;
      == (u + 0.5) * spread;
    }
    calc {
      spread / 2.0 - SpreadOffset(r, spread);
      == 0.5 * spread - u * spread;
      == (0.5 - u) * spread;
    }
    NonNegativeProduct(u + 0.5, spread);
    PositiveProduct(0.5 - u, spread);
  }

  /** The angle of shot `i` of a volley aimed at `aim`: the SMG adds the random offset of the
      draw `r`, the Shotgun the `i`-th even share of its cone. */
  function ShotAngle(k: WeaponKind, s: WeaponStats, aim: real, i: nat, r: real): real
    requires k == Shotgun ==> s.projectileCount >= 2
  {
    match k
    case SMG => aim + SpreadOffset(r, s.spread)
    case Shotgun => aim + PelletOffset(i, s.projectileCount) * s.spread
  }

  /** Every shot leaves within half the spread of the aim; the Shotgun's outermost pellets
      sit exactly on the edges of its cone, and its pellets pair up symmetrically. */
  lemma ShotAngleInCone(k: WeaponKind, s: WeaponStats, aim: real, i: nat, r: real)
    requires StatsValid(k, s) && i < s.projectileCount && 0.0 <= r < 1.0
    ensures aim - s.spread / 2.0 <= ShotAngle(k, s, aim, i, r) <= aim + s.spread / 2.0
    ensures k == Shotgun ==> ShotAngle(k, s, aim, 0, r) == aim - s.spread / 2.0
    ensures k == Shotgun ==> ShotAngle(k, s, aim, s.projectileCount - 1, r) == aim + s.spread / 2.0
    ensures k == Shotgun ==>
      (ShotAngle(k, s, aim, i, r) - aim) + (ShotAngle(k, s, aim, s.projectileCount - 1 - i, r) - aim) == 0.0
  {
    match k
    case SMG =>
      SpreadOffsetRange(r, s.spread);
    case Shotgun =>
      var n := s.projectileCount;
      PelletOffsets(i, n);
      var o := PelletOffset(i, n);
      var o' := PelletOffset(n - 1 - i, n);
      NonNegativeProduct(o + 0.5, s.spread);
      NonNegativeProduct(0.5 - o, s.spread);
      assert o * s.spread + o' * s.spread == (o + o') * s.spread;
  }

  /** `findNearestEnemy`'s answer: index `i` has the smallest squared distance from `from`,
      and every earlier index is strictly farther (the scan only replaces on `<`). */
  ghost predicate IsNearest(i: int, from: Vec, targets: seq<Vec>)
  {
    && 0 <= i < |targets|
    && (forall j :: 0 <= j < |targets| ==> DistanceSquared(from, targets[i]) <= DistanceSquared(from, targets[j]))
    && (forall j :: 0 <= j < i ==> DistanceSquared(from, targets[j]) > DistanceSquared(from, targets[i]))
  }

  /** The scan of `findNearestEnemy` over the targets, as the index it ends on: a later
      target replaces the best so far only when strictly nearer. */
  function Nearest(from: Vec, targets: seq<Vec>): (i: nat)
    requires |targets| > 0
    ensures IsNearest(i, from, targets)
    decreases |targets|
  {
    var n := |targets|;
    if n == 1 then 0
    else
      var j := Nearest(from, targets[..n - 1]);
      assert forall k :: 0 <= k < n - 1 ==> targets[..n - 1][k] == targets[k];
      if DistanceSquared(from, targets[n - 1]) < DistanceSquared(from, targets[j]) then n - 1 else j
  }

  /** There is only one such index, so the choice is deterministic. */
  lemma NearestIsUnique(i: int, k: int, from: Vec, targets: seq<Vec>)
    requires IsNearest(i, from, targets) && IsNearest(k, from, targets)
    ensures i == k
  {
    var di := DistanceSquared(from, targets[i]);
    var dk := DistanceSquared(from, targets[k]);
    assert di <= dk && dk <= di;
  }
}
