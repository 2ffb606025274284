/** Enemy rules (src/entities/Enemy.ts and the three kinds Walker, Runner and
    Boss): the stat record, each kind's stat block and radius, the homing
    velocity, the damage rule, and the Boss's special-attack timer. The enemy
    object is `Simulation.Enemy`. */
module Enemies {
  import opened Vectors
  import opened Entities

  datatype EnemyKind = Walker | Runner | Boss

  datatype EnemyStats = EnemyStats(
    maxHp: real,
    hp: real,
    damage: real,
    moveSpeed: real,
    xpValue: int,
    attackCooldown: real)

  /** The stat block each kind's constructor passes to `Enemy`. */
  function KindStats(k: EnemyKind): EnemyStats
  {
    match k
    case Walker => EnemyStats(30.0, 30.0, 10.0, 40.0, 1, 1.0)
    case Runner => EnemyStats(15.0, 15.0, 8.0, 100.0, 2, 0.8)
    case Boss => EnemyStats(500.0, 500.0, 20.0, 30.0, 50, 1.5)
  }

  function KindRadius(k: EnemyKind): real
  {
    match k
    case Walker => 12.0
    case Runner => 10.0
    case Boss => 32.0
  }

  /** Every kind starts at full, positive health and has positive stats. */
  lemma KindStatsWellFormed(k: EnemyKind)
    ensures KindStats(k).hp == KindStats(k).maxHp > 0.0
    ensures KindStats(k).damage > 0.0 && KindStats(k).moveSpeed > 0.0
    ensures KindStats(k).xpValue >= 1 && KindStats(k).attackCooldown > 0.0
    ensures KindRadius(k) > 0.0
  {
  }

  /** `velocity = direction.multiply(moveSpeed)` with `direction` the normalized offset
      towards the player; the position then moves by `velocity * dt`. */
  function HomingVelocity(m: MathFns, from: Vec, to: Vec, moveSpeed: real): Vec
  {
    Scale(Normalized(m, Difference(to, from)), moveSpeed)
  }

  /** On top of the player the direction is zero and the enemy stands still;
      elsewhere it moves with speed `moveSpeed`. */
  lemma HomingSpeed(m: MathFns, from: Vec, to: Vec, moveSpeed: real)
    requires m.Valid()
    ensures from == to ==> HomingVelocity(m, from, to, moveSpeed) == ZeroVec()
    ensures from != to ==> LengthSq(HomingVelocity(m, from, to, moveSpeed)) == moveSpeed * moveSpeed
  {
    var d := Difference(to, from);
    if from == to {
      assert d == ZeroVec();
      NormalizeGuard(m, d);
    } else {
      assert d != ZeroVec();
      NormalizedIsUnit(m, d);
      var n := Normalized(m, d);
      var v := Scale(n, moveSpeed);
      calc {
        LengthSq(v);
        == (n.x * moveSpeed) * (n.x * moveSpeed) + (n.y * moveSpeed) * (n.y * moveSpeed);
        == (n.x * n.x + n.y * n.y) * (moveSpeed * moveSpeed);
        == LengthSq(n) * (moveSpeed * moveSpeed);
        == 1.0 * (moveSpeed * moveSpeed);
      }
    }
  }

  /** `takeDamage`: hp drops by exactly `amount` (no clamp), and the enemy dies at hp <= 0. */
  function DamagedHp(hp: real, amount: real): (r: real)
    ensures r + amount == hp
  {
    hp - amount
  }

  predicate DiesAt(hp: real) { hp <= 0.0 }

  const SpecialAttackCooldown: real := 5.0
  const ChargeSpeed: real := 150.0

  datatype SpecialTick = SpecialTick(timer: real, attacks: bool)

  /** Boss: `specialAttackTimer -= dt; if (<= 0) { specialAttack(); specialAttackTimer = 5.0 }`. */
  function SpecialTimerStep(timer: real, dt: real): (r: SpecialTick)
    ensures r.attacks <==> timer - dt <= 0.0
  {
    var t := timer - dt;
    if t <= 0.0 then SpecialTick(SpecialAttackCooldown, true) else SpecialTick(t, false)
  }

  /** After every Boss update the special timer is positive; the timer starts at 0, so
      the first update attacks. */
  lemma SpecialTimerStaysPositive(timer: real, dt: real)
    ensures SpecialTimerStep(timer, dt).timer > 0.0
    ensures SpecialTimerStep(timer, dt).attacks ==> SpecialTimerStep(timer, dt).timer == SpecialAttackCooldown
    ensures dt >= 0.0 ==> SpecialTimerStep(0.0, dt).attacks
  {
  }

  /** The fields of one enemy object. `specialAttackTimer` only exists on a Boss; the other
      kinds carry it unused. */
  datatype EnemyState = EnemyState(
    kind: EnemyKind,
    position: Vec,
    velocity: Vec,
    stats: EnemyStats,
    attackTimer: real,
    damageFlashTimer: real,
    specialAttackTimer: real,
    isDead: bool)

  /** A freshly constructed enemy of kind `k` at `at`. */
  function Spawned(k: EnemyKind, at: Vec): (e: EnemyState)
    ensures e.kind == k && e.position == at && e.velocity == ZeroVec() && !e.isDead
    ensures e.stats == KindStats(k) && e.stats.hp == e.stats.maxHp
    ensures e.attackTimer == 0.0 && e.damageFlashTimer == 0.0 && e.specialAttackTimer == 0.0
  {
    EnemyState(k, at, ZeroVec(), KindStats(k), 0.0, 0.0, 0.0, false)
  }

  /** `takeDamage`: hp drops by `amount`, the flash restarts at 0.1 s, and at hp <= 0 `die` marks the
      enemy dead. Nothing checks whether it already was. */
  function Damaged(e: EnemyState, amount: real): (r: EnemyState)
    ensures r.stats.hp == DamagedHp(e.stats.hp, amount) && r.damageFlashTimer == 0.1
    ensures r.isDead <==> e.isDead || DiesAt(r.stats.hp)
    ensures r.kind == e.kind && r.position == e.position && r.velocity == e.velocity
    ensures r.stats == e.stats.(hp := r.stats.hp)
    ensures r.attackTimer == e.attackTimer && r.specialAttackTimer == e.specialAttackTimer
  {
    var hp := e.stats.hp - amount;
    e.(stats := e.stats.(hp := hp), damageFlashTimer := 0.1, isDead := e.isDead || hp <= 0.0)
  }

  /** The outcome of one `update`: the new fields, and whether the enemy attacked the player. */
  datatype EnemyTick = EnemyTick(next: EnemyState, attacks: bool)

  /** `Enemy.update` (and, for a Boss, `Boss.update` after it) towards a player at `target`
      with radius `targetRadius`. */
  function EnemyStep(m: MathFns, e: EnemyState, target: Vec, targetRadius: real, dt: real): EnemyTick
  {
    var attackTimer := Countdown(e.attackTimer, dt);
    var flash := Countdown(e.damageFlashTimer, dt);
    var velocity := HomingVelocity(m, e.position, target, e.stats.moveSpeed);
    var position := Sum(e.position, Scale(velocity, dt));
    var attacks := Collides(position, KindRadius(e.kind), target, targetRadius) && attackTimer <= 0.0;
    var afterAttack := if attacks then e.stats.attackCooldown else attackTimer;
    var special := SpecialTimerStep(e.specialAttackTimer, dt);
    var charges := e.kind == Boss && special.attacks;
    var stats := if charges then e.stats.(moveSpeed := ChargeSpeed) else e.stats;
    var specialTimer := if e.kind == Boss then special.timer else e.specialAttackTimer;
    EnemyTick(EnemyState(e.kind, position, velocity, stats, afterAttack, flash, specialTimer, e.isDead), attacks)
  }

  /** One update moves the enemy by its homing velocity, counts its timers down only while
      positive, attacks at most once and only when touching the player with the attack
      timer run out (then restarting it at the cooldown), and leaves hp and `isDead`
      alone: a dead enemy still in the list moves and attacks like a live one. */
  lemma EnemyStepRules(m: MathFns, e: EnemyState, target: Vec, targetRadius: real, dt: real)
    ensures var r := EnemyStep(m, e, target, targetRadius, dt);
      && r.next.velocity == HomingVelocity(m, e.position, target, e.stats.moveSpeed)
      && r.next.position == Sum(e.position, Scale(r.next.velocity, dt))
      && (r.attacks <==> Collides(r.next.position, KindRadius(e.kind), target, targetRadius) && Countdown(e.attackTimer, dt) <= 0.0)
      && r.next.attackTimer == (if r.attacks then e.stats.attackCooldown else Countdown(e.attackTimer, dt))
      && r.next.damageFlashTimer == Countdown(e.damageFlashTimer, dt)
      && r.next.stats.hp == e.stats.hp && r.next.isDead == e.isDead && r.next.kind == e.kind
      && r.next.stats.xpValue == e.stats.xpValue && r.next.stats.damage == e.stats.damage
  {
  }

  /** The Boss's charge: its special timer stays positive, each update charges at most once,
      and a charge only raises its speed to 150; other kinds never change speed. */
  lemma BossCharges(m: MathFns, e: EnemyState, target: Vec, targetRadius: real, dt: real)
    ensures var r := EnemyStep(m, e, target, targetRadius, dt);
      && (e.kind == Boss ==> r.next.specialAttackTimer > 0.0)
      && (e.kind == Boss ==> (r.next.stats.moveSpeed == ChargeSpeed || r.next.stats.moveSpeed == e.stats.moveSpeed))
      && (e.kind == Boss && e.specialAttackTimer - dt <= 0.0 ==> r.next.stats.moveSpeed == ChargeSpeed)
      && (e.kind != Boss ==> r.next.stats == e.stats && r.next.specialAttackTimer == e.specialAttackTimer)
  {
    SpecialTimerStaysPositive(e.specialAttackTimer, dt);
  }

  /** A new Boss charges on its very first update. */
  lemma NewBossChargesAtOnce(m: MathFns, at: Vec, target: Vec, targetRadius: real, dt: real)
    requires dt >= 0.0
    ensures EnemyStep(m, Spawned(Boss, at), target, targetRadius, dt).next.stats.moveSpeed == ChargeSpeed
  {
  }

  /** Without an `isDead` guard, a hit on an enemy whose hp is already at or below 0 runs
      `die` again. */
  lemma HitOnDeadEnemyDiesAgain(e: EnemyState, amount: real)
    requires DiesAt(e.stats.hp) && amount >= 0.0
    ensures DiesAt(Damaged(e, amount).stats.hp)
  {
  }
}
