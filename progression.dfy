/** Player rules (src/entities/Player.ts): the player's stat record and starting
    values, armor with a damage floor of 1, the clamped heal, and XP
    accumulation over level thresholds that grow by a factor 1.2, floored.
    The player object is `Simulation.Player`. */
module Progression {
  import opened Vectors
  import opened Entities
  import opened Pickups

  datatype PlayerStats = PlayerStats(
    maxHp: real,
    hp: real,
    moveSpeed: real,
    armor: real,
    dashCharges: int,
    dashCooldown: real,
    pickupRange: real)

  function InitialStats(): PlayerStats
  {
    PlayerStats(100.0, 100.0, 120.0, 0.0, 2, 1.6, 50.0)
  }

  const InitialThreshold: int := 5
  const DashDuration: real := 0.3
  const DashSpeed: real := 400.0
  const PlayerRadius: real := 16.0

  /** `Math.max(1, amount - armor)`. */
  function ArmorDamage(amount: real, armor: real): (d: real)
    ensures d >= 1.0 && d >= amount - armor
    ensures d == 1.0 || d == amount - armor
  {
    if amount - armor > 1.0 then amount - armor else 1.0
  }

  /** The hp after `takeDamage` when the player is not invulnerable: reduced by the armored
      damage, then clamped at 0. */
  function HpAfterHit(hp: real, amount: real, armor: real): (r: real)
    ensures r >= 0.0
    ensures r <= hp - 1.0 || r == 0.0
  {
    var h := hp - ArmorDamage(amount, armor);
    if h <= 0.0 then 0.0 else h
  }

  /** A hit either kills (hp becomes exactly 0) or removes exactly max(1, amount - armor). */
  lemma HitOutcome(hp: real, amount: real, armor: real)
    ensures HpAfterHit(hp, amount, armor) == 0.0 <==> hp - ArmorDamage(amount, armor) <= 0.0
    ensures HpAfterHit(hp, amount, armor) > 0.0 ==> HpAfterHit(hp, amount, armor) == hp - ArmorDamage(amount, armor)
    ensures 0.0 <= hp <= 1.0 ==> HpAfterHit(hp, amount, armor) == 0.0
  {
  }

  /** `Math.min(maxHp, hp + amount)`. */
  function Healed(hp: real, maxHp: real, amount: real): (r: real)
    ensures r <= maxHp && r <= hp + amount
    ensures r == maxHp || r == hp + amount
  {
    if hp + amount < maxHp then hp + amount else maxHp
  }

  lemma HealKeepsBounds(hp: real, maxHp: real, amount: real)
    requires 0.0 <= hp <= maxHp && amount >= 0.0
    ensures hp <= Healed(hp, maxHp, amount) <= maxHp
  {
  }

  /** `Math.floor(t * 1.2)` on an integral threshold: Dafny's `/` on `int` with a positive
      divisor rounds down, so this is the floor for every `t`. */
  function NextThreshold(t: int): (r: int)
    ensures 5 * r <= 6 * t < 5 * r + 5
  {
    (6 * t) / 5
  }

  /** `Math.floor(t * 1.2)` is `NextThreshold(t)`. */
  lemma FlooredGrowth(t: int)
    ensures ((t as real) * 1.2).Floor == NextThreshold(t)
  {
    var q := NextThreshold(t);
    var f := ((t as real) * 1.2).Floor;
    assert (q as real) * 5.0 <= (t as real) * 6.0 < (q as real) * 5.0 + 5.0;
    assert (q as real) <= (t as real) * 1.2 < (q as real) + 1.0;
    assert (f as real) <= (t as real) * 1.2 < (f as real) + 1.0;
  }

  /** From the starting threshold 5 on, each level-up raises the threshold strictly (at least by one). */
  lemma NextThresholdGrows(t: int)
    requires t >= 5
    ensures NextThreshold(t) >= t + 1
  {
  }

  datatype XpState = XpState(xp: int, threshold: int, levelUps: nat)

  /** The effect of `addXP`'s `while (xp >= xpToNextLevel) { xp -= xpToNextLevel; levelUp(); }`
      when it starts with `xp` points and threshold `threshold`. */
  function AddXp(xp: int, threshold: int): (r: XpState)
    requires threshold >= 5
    ensures r.xp < r.threshold && r.threshold >= threshold && r.xp <= xp
    ensures r.levelUps == 0 <==> xp < threshold
    decreases xp
  {
    if xp >= threshold then
      var r := AddXp(xp - threshold, NextThreshold(threshold));
      XpState(r.xp, r.threshold, r.levelUps + 1)
    else XpState(xp, threshold, 0)
  }

  /** The thresholds of `n` consecutive level-ups starting at `t`, added up. */
  function ThresholdSum(t: int, n: nat): int
    decreases n
  {
    if n == 0 then 0 else t + ThresholdSum(NextThreshold(t), n - 1)
  }

  /** The threshold after `n` level-ups starting at `t`. */
  function ThresholdAfter(t: int, n: nat): int
    decreases n
  {
    if n == 0 then t else ThresholdAfter(NextThreshold(t), n - 1)
  }

  /** `addXP` levels up exactly once per threshold crossed: the points spent are the sum of
      the first `levelUps` thresholds, what is left stays below the next one, and the
      threshold is the one reached after that many level-ups. */
  lemma {:induction false} AddXpCrossesThresholds(xp: int, threshold: int)
    requires threshold >= 5
    ensures var r := AddXp(xp, threshold);
      && xp == ThresholdSum(threshold, r.levelUps) + r.xp
      && r.threshold == ThresholdAfter(threshold, r.levelUps)
      && (r.levelUps > 0 ==> xp >= ThresholdSum(threshold, r.levelUps))
      && xp < ThresholdSum(threshold, r.levelUps + 1)
    decreases xp
  {
    if xp >= threshold {
      NextThresholdGrows(threshold);
      AddXpCrossesThresholds(xp - threshold, NextThreshold(threshold));
    }
  }

  /** The fields of the player object, its weapon list aside. */
  datatype PlayerState = PlayerState(
    position: Vec,
    velocity: Vec,
    stats: PlayerStats,
    level: int,
    xp: int,
    xpToNextLevel: int,
    kills: int,
    dashTimer: real,
    isDashing: bool,
    dashDirection: Vec,
    invulnerableTimer: real,
    damageFlashTimer: real,
    isDead: bool)

  /** `new Player(x, y)`. */
  function NewPlayer(at: Vec): (p: PlayerState)
    ensures p.position == at && p.velocity == ZeroVec() && p.stats == InitialStats()
    ensures p.level == 1 && p.xp == 0 && p.xpToNextLevel == InitialThreshold && p.kills == 0
    ensures p.dashTimer == 0.0 && !p.isDashing && p.invulnerableTimer == 0.0 && !p.isDead
  {
    PlayerState(at, ZeroVec(), InitialStats(), 1, 0, InitialThreshold, 0, 0.0, false, ZeroVec(), 0.0, 0.0, false)
  }

  /** What every reachable player satisfies: health within bounds and a threshold the
      level-up rule can grow. */
  predicate PlayerValid(p: PlayerState)
  {
    0.0 <= p.stats.hp <= p.stats.maxHp && p.xpToNextLevel >= InitialThreshold
  }

  /** `takeDamage`. */
  function Hurt(p: PlayerState, amount: real): PlayerState
  {
    if p.invulnerableTimer > 0.0 then p
    else
      var hp := p.stats.hp - ArmorDamage(amount, p.stats.armor);
      p.(stats := p.stats.(hp := if hp <= 0.0 then 0.0 else hp), damageFlashTimer := 0.1, isDead := p.isDead || hp <= 0.0)
  }

  /** Invulnerability ignores the hit; otherwise hp follows `HpAfterHit`, the flash restarts and
      the player dies exactly when the hit takes hp to 0. Nothing else changes. */
  lemma HurtRules(p: PlayerState, amount: real)
    ensures p.invulnerableTimer > 0.0 ==> Hurt(p, amount) == p
    ensures p.invulnerableTimer <= 0.0 ==>
      && Hurt(p, amount).stats.hp == HpAfterHit(p.stats.hp, amount, p.stats.armor)
      && Hurt(p, amount).damageFlashTimer == 0.1
      && (Hurt(p, amount).isDead <==> p.isDead || Hurt(p, amount).stats.hp == 0.0)
    ensures Hurt(p, amount).stats == p.stats.(hp := Hurt(p, amount).stats.hp)
    ensures Hurt(p, amount).(stats := p.stats, damageFlashTimer := p.damageFlashTimer, isDead := p.isDead) == p
  {
  }

  /** `takeDamage` once per amount, in order. */
  function HurtAll(p: PlayerState, amounts: seq<real>): PlayerState
    decreases |amounts|
  {
    if amounts == [] then p else HurtAll(Hurt(p, amounts[0]), amounts[1..])
  }

  /** However many hits land, hp stays between 0 and its old value, and only hp, the flash
      and `isDead` change; while invulnerable nothing does. */
  lemma {:induction false} HurtAllKeepsBounds(p: PlayerState, amounts: seq<real>)
    requires PlayerValid(p)
    ensures PlayerValid(HurtAll(p, amounts))
    ensures HurtAll(p, amounts).stats.hp <= p.stats.hp
    ensures p.invulnerableTimer > 0.0 ==> HurtAll(p, amounts) == p
    ensures p.isDead ==> HurtAll(p, amounts).isDead
    ensures HurtAll(p, amounts).(stats := p.stats, damageFlashTimer := p.damageFlashTimer, isDead := p.isDead) == p
    ensures HurtAll(p, amounts).stats == p.stats.(hp := HurtAll(p, amounts).stats.hp)
    decreases |amounts|
  {
    if amounts != [] {
      HurtRules(p, amounts[0]);
      HurtAllKeepsBounds(Hurt(p, amounts[0]), amounts[1..]);
    }
  }

  /** `heal`: only hp changes; a non-negative amount never lowers it and never lifts it
      past `maxHp`, and it reaches `maxHp` exactly when the amount covers the missing hp. */
  function HealBy(p: PlayerState, amount: real): (r: PlayerState)
    ensures r == p.(stats := p.stats.(hp := r.stats.hp))
    ensures 0.0 <= p.stats.hp <= p.stats.maxHp && amount >= 0.0 ==>
      p.stats.hp <= r.stats.hp <= r.stats.maxHp
      && (r.stats.hp == r.stats.maxHp <==> p.stats.hp + amount >= p.stats.maxHp)
  {
    p.(stats := p.stats.(hp := Healed(p.stats.hp, p.stats.maxHp, amount)))
  }

  /** `addXP`: the points are added, then each threshold crossed levels up once. */
  function Gain(p: PlayerState, amount: int): (r: PlayerState)
    requires p.xpToNextLevel >= InitialThreshold
    ensures r.xpToNextLevel >= p.xpToNextLevel && r.xp < r.xpToNextLevel && r.level >= p.level
  {
    var x := AddXp(p.xp + amount, p.xpToNextLevel);
    p.(xp := x.xp, xpToNextLevel := x.threshold, level := p.level + x.levelUps)
  }

  /** `collect` applied to the player. */
  function Apply(p: PlayerState, e: Effect): (r: PlayerState)
    requires p.xpToNextLevel >= InitialThreshold
    ensures r.xpToNextLevel >= p.xpToNextLevel
  {
    match e
    case AddXp(xp) => Gain(p, xp)
    case Heal(amount) => HealBy(p, amount)
    case NoEffect => p
  }

  /** The effects of several pickups, in the order they are collected. */
  function ApplyAll(p: PlayerState, es: seq<Effect>): (r: PlayerState)
    requires p.xpToNextLevel >= InitialThreshold
    ensures r.xpToNextLevel >= p.xpToNextLevel
    decreases |es|
  {
    if es == [] then p else ApplyAll(Apply(p, es[0]), es[1..])
  }

  /** Effects that cannot push hp below 0. */
  predicate HarmlessEffects(es: seq<Effect>)
  {
    forall i :: 0 <= i < |es| ==> (es[i].Heal? ==> es[i].amount >= 0.0)
  }

  /** Collecting keeps the player valid, raises the level by exactly the number of thresholds
      crossed, only ever levels up, and touches nothing but hp, xp, level and threshold. */
  lemma {:induction false} ApplyAllKeepsValid(p: PlayerState, es: seq<Effect>)
    requires PlayerValid(p) && HarmlessEffects(es)
    ensures PlayerValid(ApplyAll(p, es))
    ensures ApplyAll(p, es).level >= p.level
    ensures ApplyAll(p, es).stats == p.stats.(hp := ApplyAll(p, es).stats.hp)
    ensures ApplyAll(p, es).(stats := p.stats, xp := p.xp, level := p.level, xpToNextLevel := p.xpToNextLevel) == p
    decreases |es|
  {
    if es != [] {
      assert HarmlessEffects(es[1..]) by {
        forall i | 0 <= i < |es[1..]| ensures es[1..][i].Heal? ==> es[1..][i].amount >= 0.0 {
          assert es[1..][i] == es[i + 1];
        }
      }
      var q := Apply(p, es[0]);
      if es[0].Heal? {
        HealKeepsBounds(p.stats.hp, p.stats.maxHp, es[0].amount);
      }
      ApplyAllKeepsValid(q, es[1..]);
    }
  }

  /** The timer countdowns at the top of `Player.update`. */
  function Timers(p: PlayerState, dt: real): (r: PlayerState)
    ensures r.(dashTimer := p.dashTimer, invulnerableTimer := p.invulnerableTimer, damageFlashTimer := p.damageFlashTimer) == p
    ensures dt >= 0.0 ==> r.dashTimer <= p.dashTimer && r.invulnerableTimer <= p.invulnerableTimer && r.damageFlashTimer <= p.damageFlashTimer
    ensures p.dashTimer <= 0.0 ==> r.dashTimer == p.dashTimer
    ensures p.invulnerableTimer <= 0.0 ==> r.invulnerableTimer == p.invulnerableTimer
    ensures p.damageFlashTimer <= 0.0 ==> r.damageFlashTimer == p.damageFlashTimer
  {
    p.(dashTimer := Countdown(p.dashTimer, dt), invulnerableTimer := Countdown(p.invulnerableTimer, dt),
       damageFlashTimer := Countdown(p.damageFlashTimer, dt))
  }

  /** Whether a dash starts: the Space press was consumed, the cooldown is over and there is
      a direction. */
  predicate StartsDash(p: PlayerState, pressed: bool, dir: Vec)
  {
    pressed && p.dashTimer <= 0.0 && dir != ZeroVec()
  }

  /** `startDash` when it goes ahead. */
  function DashStarted(p: PlayerState, dir: Vec): PlayerState
  {
    p.(isDashing := true, dashTimer := p.stats.dashCooldown, invulnerableTimer := DashDuration, dashDirection := dir)
  }

  /** `updateDash`: a step along the dash direction at `DashSpeed`; the dash is over once the
      invulnerability is. */
  function Dashed(p: PlayerState, dt: real): PlayerState
  {
    p.(position := Vec(p.position.x + p.dashDirection.x * DashSpeed * dt, p.position.y + p.dashDirection.y * DashSpeed * dt),
       isDashing := p.isDashing && !(p.invulnerableTimer <= 0.0))
  }

  /** `updateMovement`: the velocity is the input direction at `moveSpeed`, and the position
      follows it for `dt`. */
  function Walked(p: PlayerState, dir: Vec, dt: real): PlayerState
  {
    var v := Vec(dir.x * p.stats.moveSpeed, dir.y * p.stats.moveSpeed);
    p.(velocity := v, position := Vec(p.position.x + v.x * dt, p.position.y + v.y * dt))
  }

  /** The dash and movement part of `Player.update`, after the timers, for a consumed Space
      press `pressed` and the movement direction `dir`. */
  function Moved(p: PlayerState, pressed: bool, dir: Vec, dt: real): PlayerState
  {
    var q := if StartsDash(p, pressed, dir) then DashStarted(p, dir) else p;
    if q.isDashing then Dashed(q, dt) else Walked(q, dir, dt)
  }

  /** A dash sets the cooldown, the invulnerability and the direction; a press during the
      cooldown or without a direction is lost. A dash moves along its own direction at 400
      units per second whatever the keys say, and ends on the first update that finds the
      invulnerability over. Walking moves at `moveSpeed` along the input. */
  lemma MovedRules(p: PlayerState, pressed: bool, dir: Vec, dir': Vec, dt: real)
    ensures var r := Moved(p, pressed, dir, dt);
      && (StartsDash(p, pressed, dir) ==>
        r.dashTimer == p.stats.dashCooldown && r.invulnerableTimer == DashDuration && r.dashDirection == dir && r.isDashing)
      && (!StartsDash(p, pressed, dir) ==>
        r.dashTimer == p.dashTimer && r.invulnerableTimer == p.invulnerableTimer && r.dashDirection == p.dashDirection)
      && (p.isDashing && !StartsDash(p, pressed, dir) ==>
        r.position == Sum(p.position, Scale(p.dashDirection, DashSpeed * dt))
        && r.isDashing == (p.invulnerableTimer > 0.0)
        && r == Moved(p, false, dir', dt))
      && (!p.isDashing && !StartsDash(p, pressed, dir) ==>
        r.velocity == Scale(dir, p.stats.moveSpeed) && r.position == Sum(p.position, Scale(dir, p.stats.moveSpeed * dt))
        && !r.isDashing)
      && r.stats == p.stats && r.xp == p.xp && r.level == p.level && r.isDead == p.isDead
  {
    var r := Moved(p, pressed, dir, dt);
    if p.isDashing && !StartsDash(p, pressed, dir) {
      assert p.dashDirection.x * DashSpeed * dt == p.dashDirection.x * (DashSpeed * dt);
      assert p.dashDirection.y * DashSpeed * dt == p.dashDirection.y * (DashSpeed * dt);
    }
    if !p.isDashing && !StartsDash(p, pressed, dir) {
      var v := Vec(dir.x * p.stats.moveSpeed, dir.y * p.stats.moveSpeed);
      assert r.position == Vec(p.position.x + v.x * dt, p.position.y + v.y * dt);
      assert v.x * dt == dir.x * (p.stats.moveSpeed * dt);
      assert v.y * dt == dir.y * (p.stats.moveSpeed * dt);
    }
  }

  /** Collecting one more pickup applies its effect after all the earlier ones. */
  lemma {:induction false} ApplyAllAppend(p: PlayerState, es: seq<Effect>, e: Effect)
    requires p.xpToNextLevel >= InitialThreshold
    ensures ApplyAll(p, es + [e]) == Apply(ApplyAll(p, es), e)
    decreases |es|
  {
    if es == [] {
      assert [e][1..] == [];
    } else {
      assert (es + [e])[1..] == es[1..] + [e];
      ApplyAllAppend(Apply(p, es[0]), es[1..], e);
    }
  }

  lemma HurtAllOne(p: PlayerState, amount: real)
    ensures HurtAll(p, [amount]) == Hurt(p, amount)
  {
    assert [amount][1..] == [];
  }
}
