/** The game objects: `Player`, `Enemy` (with the Walker, Runner and Boss stat
    blocks as its kinds), `Projectile`, `Pickup`, the SMG and Shotgun as `Weapon`,
    `WaveManager`, `UIManager` and `Game`, holding exactly the fields the source
    objects update in place. Every method is proved against the value-level
    rules of the other modules: an entity's update against its step function on
    its `State()`, and `Game.Update` against `GameTick.Tick` on `Snapshot()`. */
module Simulation {
  import opened Vectors
  import opened Entities
  import opened Weapons
  import opened Enemies
  import opened Pickups
  import opened Progression
  import opened Combat
  import opened Collections
  import opened Upgrades
  import opened Waves
  import opened Input
  import opened Text
  import opened GameTick

  // ---------------------------------------------------------------------------------------
  // The values of object lists
  // ---------------------------------------------------------------------------------------

  function EnemyValues(es: seq<Enemy>): (r: seq<EnemyState>)
    reads es
    ensures |r| == |es| && forall k :: 0 <= k < |es| ==> r[k] == es[k].State()
  {
    seq(|es|, k requires 0 <= k < |es| reads es => es[k].State())
  }

  function ProjectileValues(ps: seq<Projectile>): (r: seq<ProjectileState>)
    reads ps
    ensures |r| == |ps| && forall k :: 0 <= k < |ps| ==> r[k] == ps[k].State()
  {
    seq(|ps|, k requires 0 <= k < |ps| reads ps => ps[k].State())
  }

  function PickupValues(ps: seq<Pickup>): (r: seq<PickupState>)
    reads ps
    ensures |r| == |ps| && forall k :: 0 <= k < |ps| ==> r[k] == ps[k].State()
  {
    seq(|ps|, k requires 0 <= k < |ps| reads ps => ps[k].State())
  }

  function WeaponValues(ws: seq<Weapon>): (r: seq<WeaponState>)
    reads ws
    ensures |r| == |ws| && forall k :: 0 <= k < |ws| ==> r[k] == ws[k].State()
  {
    seq(|ws|, k requires 0 <= k < |ws| reads ws => ws[k].State())
  }

  /** Removing objects from a list removes their values from the list of values. */
  lemma {:induction false} EnemyValuesKeep(es: seq<Enemy>, drop: seq<bool>)
    requires |drop| == |es|
    ensures EnemyValues(Keep(es, drop)) == Keep(EnemyValues(es), drop)
    decreases |es|
  {
    if es != [] {
      var head := if drop[0] then [] else [es[0]];
      var rest := Keep(es[1..], drop[1..]);
      EnemyValuesKeep(es[1..], drop[1..]);
      assert EnemyValues(es[1..]) == EnemyValues(es)[1..];
      assert EnemyValues(head + rest) == EnemyValues(head) + EnemyValues(rest);
    }
  }

  lemma {:induction false} ProjectileValuesKeep(ps: seq<Projectile>, drop: seq<bool>)
    requires |drop| == |ps|
    ensures ProjectileValues(Keep(ps, drop)) == Keep(ProjectileValues(ps), drop)
    decreases |ps|
  {
    if ps != [] {
      var head := if drop[0] then [] else [ps[0]];
      var rest := Keep(ps[1..], drop[1..]);
      ProjectileValuesKeep(ps[1..], drop[1..]);
      assert ProjectileValues(ps[1..]) == ProjectileValues(ps)[1..];
      assert ProjectileValues(head + rest) == ProjectileValues(head) + ProjectileValues(rest);
    }
  }

  lemma {:induction false} PickupValuesKeep(ps: seq<Pickup>, drop: seq<bool>)
    requires |drop| == |ps|
    ensures PickupValues(Keep(ps, drop)) == Keep(PickupValues(ps), drop)
    decreases |ps|
  {
    if ps != [] {
      var head := if drop[0] then [] else [ps[0]];
      var rest := Keep(ps[1..], drop[1..]);
      PickupValuesKeep(ps[1..], drop[1..]);
      assert PickupValues(ps[1..]) == PickupValues(ps)[1..];
      assert PickupValues(head + rest) == PickupValues(head) + PickupValues(rest);
    }
  }


  // ---------------------------------------------------------------------------------------
  // Math.random
  // ---------------------------------------------------------------------------------------

  /** The stream of `Math.random()` values: the `n`-th call returns `draws(n)`. The
      comparator calls of the level-up shuffle are not counted; what that shuffle does
      with a list is `shuffle`. */
  class RandomSource {
    const draws: nat -> real
    const shuffle: seq<Offer> -> seq<Offer>
    var next: nat

    constructor (draws: nat -> real, shuffle: seq<Offer> -> seq<Offer>)
      ensures this.draws == draws && this.shuffle == shuffle && next == 0
    {
      this.draws := draws;
      this.shuffle := shuffle;
      next := 0;
    }

    /** `Math.random()`. */
    method Random() returns (r: real)
      modifies this
      ensures r == draws(old(next)) && next == old(next) + 1
    {
      r := draws(next);
      next := next + 1;
    }
  }

  // ---------------------------------------------------------------------------------------
  // Pickup
  // ---------------------------------------------------------------------------------------

  class Pickup {
    const kind: PickupKind
    const value: int
    const position: Vec
    const radius: real := PickupRadius
    var lifetime: real
    var isDead: bool

    function State(): PickupState
      reads this
    {
      PickupState(kind, value, position, lifetime, isDead)
    }

    /** `new Pickup(x, y, type, value)`: its bobbing phase takes one draw. */
    constructor (at: Vec, kind: PickupKind, value: int, random: RandomSource)
      modifies random
      ensures State() == PickupState(kind, value, at, Lifetime, false)
      ensures random.next == old(random.next) + 1
    {
      this.kind := kind;
      this.value := value;
      position := at;
      lifetime := Lifetime;
      isDead := false;
      new;
      var _ := random.Random();
    }

    method Kill()
      modifies this`isDead
      ensures isDead
    {
      isDead := true;
    }

    method Update(dt: real)
      modifies this`lifetime, this`isDead
      ensures State() == PickupStep(old(State()), dt)
    {
      lifetime := lifetime - dt;
      if lifetime <= 0.0 {
        Kill();
      }
    }

    /** `collect`: XP goes to `addXP`, health to `heal`, a coin does nothing; the pickup
        itself is left alone. */
    method Collect(player: Player, game: Game, ghost pool: seq<Offer>)
      requires game.player == player && player.xpToNextLevel >= InitialThreshold
      requires pool == Draw(game.random.shuffle, Pool(Arsenal(player.WeaponStates())))
      modifies player`xp, player`level, player`xpToNextLevel, player`stats, game.ui, game`paused
      ensures player.State() == Apply(old(player.State()), CollectEffect(kind, value))
      ensures ModalAfter(old(game.ui.State()), old(game.paused), player.level > old(player.level), pool, game.ui.State(), game.paused)
    {
      match kind {
        case Xp => player.AddXP(value, game, pool);
        case Health => player.Heal(value as real);
        case Coin =>
      }
    }
  }

  // ---------------------------------------------------------------------------------------
  // Projectile
  // ---------------------------------------------------------------------------------------

  class Projectile {
    var position: Vec
    const direction: Vec
    const speed: real
    const damage: real
    const maxRange: real
    const pierce: nat
    const radius: real := ProjectileRadius
    var distanceTraveled: real
    var hitEnemies: set<nat>
    var isDead: bool

    function State(): ProjectileState
      reads this
    {
      ProjectileState(position, direction, speed, damage, maxRange, pierce, distanceTraveled, hitEnemies, isDead)
    }

    constructor (m: MathFns, at: Vec, angle: real, speed: real, damage: real, maxRange: real, pierce: nat)
      ensures State() == ProjectileState(at, FromAngle(m, angle, 1.0), speed, damage, maxRange, pierce, 0.0, {}, false)
    {
      position := at;
      direction := FromAngle(m, angle, 1.0);
      this.speed := speed;
      this.damage := damage;
      this.maxRange := maxRange;
      this.pierce := pierce;
      distanceTraveled := 0.0;
      hitEnemies := {};
      isDead := false;
    }

    method Kill()
      modifies this`isDead
      ensures isDead
    {
      isDead := true;
    }

    /** `Projectile.update`: move, die past the range, otherwise damage every enemy touched
        whose index is not in the hit set, until the set holds more than `pierce` indices. */
    method Update(dt: real, game: Game)
      requires Distinct(game.enemies) && Distinct(game.pickups)
      modifies this`position, this`distanceTraveled, this`hitEnemies, this`isDead,
        game.enemies, game`pickups, game.player`kills, game.random
      ensures var t := ProjectileStep(game.math, old(State()), old(EnemyValues(game.enemies)), dt);
        && HitsWithin(HitsOf(t.hits, damage), |game.enemies|)
        && State() == t.next
        && game.Battlefield() == AfterHits(old(game.Battlefield()), HitsOf(t.hits, damage))
      ensures Distinct(game.pickups) && forall q <- game.pickups :: q in old(game.pickups) || fresh(q)
    {
      ghost var p0, es0 := State(), EnemyValues(game.enemies);
      var movement := Scale(direction, speed * dt);
      position := Sum(position, movement);
      distanceTraveled := distanceTraveled + Magnitude(game.math, movement);
      assert position == Destination(p0, dt);
      if distanceTraveled > maxRange {
        Kill();
        AfterNoHits(game.Battlefield());
        return;
      }
      assert EnemyValues(game.enemies) == es0;
      HitEnemies(game);
    }

    /** The `for` loop of `update` over `game.enemies` from the projectile's new position. */
    method HitEnemies(game: Game)
      requires Distinct(game.enemies) && Distinct(game.pickups)
      modifies this`hitEnemies, this`isDead, game.enemies, game`pickups, game.player`kills, game.random
      ensures var sc := ScanFrom(old(hitEnemies), HitFlags(position, old(EnemyValues(game.enemies))), pierce, 0);
        && HitsWithin(HitsOf(sc.hits, damage), |game.enemies|)
        && hitEnemies == old(hitEnemies) + Elements(sc.hits) && isDead == (old(isDead) || sc.stopped)
        && game.Battlefield() == AfterHits(old(game.Battlefield()), HitsOf(sc.hits, damage))
      ensures Distinct(game.pickups) && forall q <- game.pickups :: q in old(game.pickups) || fresh(q)
    {
      ghost var b0 := game.Battlefield();
      ghost var es0 := b0.enemies;
      ghost var flags := HitFlags(position, es0);
      ghost var h0 := hitEnemies;
      ghost var full := ScanFrom(h0, flags, pierce, 0);
      ghost var hits: seq<nat> := [];
      ResumeStart(h0, flags, pierce);
      var i, stop := 0, false;
      while i < |game.enemies| && !stop
        invariant 0 <= i <= |game.enemies| == |es0|
        invariant forall k :: 0 <= k < |hits| ==> hits[k] < |es0|
        invariant hitEnemies == h0 + Elements(hits) && isDead == (old(isDead) || stop)
        invariant full == if stop then Scan(hits, true) else Resume(hits, hitEnemies, flags, pierce, i)
        invariant HitsWithin(HitsOf(hits, damage), |es0|)
        invariant game.Battlefield() == AfterHits(b0, HitsOf(hits, damage))
        invariant Distinct(game.pickups) && forall q <- game.pickups :: q in old(game.pickups) || fresh(q)
      {
        stop, hits := HitTurn(game, i, b0, flags, h0, full, hits);
        i := i + 1;
      }
      if !stop {
        ResumeEnd(hits, hitEnemies, flags, pierce);
      }
    }

    /** A whole turn of the loop in `HitEnemies` at index `i`: the loop's invariants before the
        turn, with `hits` damaged so far, hold after it with `next`. */
    method HitTurn(game: Game, i: nat, ghost b0: Battle, ghost flags: seq<bool>, ghost h0: set<nat>, ghost full: Scan, ghost hits: seq<nat>)
      returns (stop: bool, ghost next: seq<nat>)
      requires i < |game.enemies| == |b0.enemies| && Distinct(game.enemies) && Distinct(game.pickups)
      requires flags == HitFlags(position, b0.enemies)
      requires forall k :: 0 <= k < |hits| ==> hits[k] < |b0.enemies|
      requires hitEnemies == h0 + Elements(hits) && full == Resume(hits, hitEnemies, flags, pierce, i)
      requires HitsWithin(HitsOf(hits, damage), |b0.enemies|) && game.Battlefield() == AfterHits(b0, HitsOf(hits, damage))
      modifies this`hitEnemies, this`isDead, game.enemies, game`pickups, game.player`kills, game.random
      ensures forall k :: 0 <= k < |next| ==> next[k] < |b0.enemies|
      ensures hitEnemies == h0 + Elements(next) && isDead == (old(isDead) || stop)
      ensures full == if stop then Scan(next, true) else Resume(next, hitEnemies, flags, pierce, i + 1)
      ensures HitsWithin(HitsOf(next, damage), |b0.enemies|) && game.Battlefield() == AfterHits(b0, HitsOf(next, damage))
      ensures Distinct(game.pickups) && forall q <- game.pickups :: q in old(game.pickups) || fresh(q)
    {
      ResumeTurn(hits, hitEnemies, flags, pierce, i);
      ghost var hit := i !in hitEnemies && flags[i];
      stop := HitAt(game, i, b0, hits, flags);
      next := hits;
      if hit {
        AfterHitsCompose(b0, HitsOf(hits, damage), [Hit(i, damage)]);
        HitsOfAppend(hits, damage, i);
        ElementsAppend(hits, i);
        next := hits + [i];
      }
    }

    /** One turn of the loop of `update`, at index `i`, after the hits `hits` of the earlier
        turns: returns whether the projectile died, which ends the loop. */
    method HitAt(game: Game, i: nat, ghost b0: Battle, ghost hits: seq<nat>, ghost flags: seq<bool>) returns (stop: bool)
      requires i < |game.enemies| == |b0.enemies| && Distinct(game.enemies) && Distinct(game.pickups)
      requires flags == HitFlags(position, b0.enemies)
      requires HitsWithin(HitsOf(hits, damage), |b0.enemies|) && game.Battlefield() == AfterHits(b0, HitsOf(hits, damage))
      modifies this`hitEnemies, this`isDead, game.enemies, game`pickups, game.player`kills, game.random
      ensures var hit := i !in old(hitEnemies) && flags[i];
        && hitEnemies == (if hit then old(hitEnemies) + {i} else old(hitEnemies))
        && stop == (hit && |hitEnemies| > pierce) && isDead == (old(isDead) || stop)
        && game.Battlefield() == AfterHits(old(game.Battlefield()), if hit then [Hit(i, damage)] else [])
      ensures Distinct(game.pickups) && forall q <- game.pickups :: q in old(game.pickups) || fresh(q)
    {
      AfterHitsBodies(b0, HitsOf(hits, damage), i);
      AfterNoHits(game.Battlefield());
      var enemy := game.enemies[i];
      assert enemy.State() == game.Battlefield().enemies[i];
      stop := false;
      if i !in hitEnemies && Collides(position, radius, enemy.position, enemy.radius) {
        enemy.TakeDamage(damage, game, i);
        hitEnemies := hitEnemies + {i};
        if |hitEnemies| > pierce {
          Kill();
          stop := true;
        }
      }
    }
  }

  // ---------------------------------------------------------------------------------------
  // Enemy
  // ---------------------------------------------------------------------------------------

  /** One enemy; `kind` stands for the subclass (Walker, Runner or Boss) that supplied its
      stat block and radius. */
  class Enemy {
    const kind: EnemyKind
    const radius: real := KindRadius(kind)
    var position: Vec
    var velocity: Vec
    var stats: EnemyStats
    var attackTimer: real
    var damageFlashTimer: real
    var specialAttackTimer: real
    var isDead: bool

    function State(): EnemyState
      reads this
    {
      EnemyState(kind, position, velocity, stats, attackTimer, damageFlashTimer, specialAttackTimer, isDead)
    }

    /** `new Walker(x, y)`, `new Runner(x, y)` or `new Boss(x, y)`. */
    constructor (kind: EnemyKind, at: Vec)
      ensures State() == Spawned(kind, at)
    {
      this.kind := kind;
      position := at;
      velocity := ZeroVec();
      stats := KindStats(kind);
      attackTimer := 0.0;
      damageFlashTimer := 0.0;
      specialAttackTimer := 0.0;
      isDead := false;
    }

    method Kill()
      modifies this`isDead
      ensures isDead
    {
      isDead := true;
    }

    /** `Enemy.update`, followed for a Boss by its special-attack timer. */
    method Update(dt: real, game: Game)
      modifies this`position, this`velocity, this`stats, this`attackTimer, this`damageFlashTimer, this`specialAttackTimer,
        game.player`stats, game.player`damageFlashTimer, game.player`isDead
      ensures var t := EnemyStep(game.math, old(State()), old(game.player.position), PlayerRadius, dt);
        && State() == t.next
        && game.player.State() == if t.attacks then Hurt(old(game.player.State()), old(stats.damage)) else old(game.player.State())
    {
      if attackTimer > 0.0 { attackTimer := attackTimer - dt; }
      if damageFlashTimer > 0.0 { damageFlashTimer := damageFlashTimer - dt; }
      var direction := Normalized(game.math, Difference(game.player.position, position));
      velocity := Scale(direction, stats.moveSpeed);
      position := Sum(position, Scale(velocity, dt));
      ghost var t := EnemyStep(game.math, old(State()), game.player.position, PlayerRadius, dt);
      assert position == t.next.position && velocity == t.next.velocity;
      if Collides(position, radius, game.player.position, game.player.radius) && attackTimer <= 0.0 {
        AttackPlayer(game.player);
        attackTimer := stats.attackCooldown;
      }
      if kind == Boss {
        specialAttackTimer := specialAttackTimer - dt;
        if specialAttackTimer <= 0.0 {
          SpecialAttack();
          specialAttackTimer := SpecialAttackCooldown;
        }
      }
    }

    method AttackPlayer(player: Player)
      modifies player`stats, player`damageFlashTimer, player`isDead
      ensures player.State() == Hurt(old(player.State()), stats.damage)
    {
      player.TakeDamage(stats.damage);
    }

    /** The Boss's charge: the speed goes to 150 (the timed revert is not modelled). */
    method SpecialAttack()
      modifies this`stats
      ensures stats == old(stats).(moveSpeed := ChargeSpeed)
    {
      stats := stats.(moveSpeed := ChargeSpeed);
    }

    /** `takeDamage` on the enemy at index `j` of `game.enemies`: no clamp and no `isDead`
        guard, so every hit that leaves hp at or below 0 runs `die` again. */
    method TakeDamage(amount: real, game: Game, ghost j: nat)
      requires j < |game.enemies| && game.enemies[j] == this && Distinct(game.enemies) && Distinct(game.pickups)
      modifies this`stats, this`damageFlashTimer, this`isDead, game`pickups, game.player`kills, game.random
      ensures game.Battlefield() == AfterHits(old(game.Battlefield()), [Hit(j, amount)])
      ensures Distinct(game.pickups) && forall q <- game.pickups :: q in old(game.pickups) || fresh(q)
    {
      AfterOneHit(game.Battlefield(), j, amount);
      stats := stats.(hp := stats.hp - amount);
      damageFlashTimer := 0.1;
      if stats.hp <= 0.0 {
        Die(game);
      }
    }

    method Die(game: Game)
      requires Distinct(game.pickups)
      modifies this`isDead, game`pickups, game.player`kills, game.random
      ensures isDead && game.player.kills == old(game.player.kills) + 1 && game.random.next == old(game.random.next) + 1
      ensures PickupValues(game.pickups) == old(PickupValues(game.pickups)) + [Dropped(position, stats.xpValue)]
      ensures Distinct(game.pickups) && forall q <- game.pickups :: q in old(game.pickups) || fresh(q)
    {
      Kill();
      game.player.kills := game.player.kills + 1;
      DropXP(game);
    }

    /** `dropXP`: one XP pickup at the enemy, worth its `xpValue`. */
    method DropXP(game: Game)
      requires Distinct(game.pickups)
      modifies game`pickups, game.random
      ensures PickupValues(game.pickups) == old(PickupValues(game.pickups)) + [Dropped(position, stats.xpValue)]
      ensures game.random.next == old(game.random.next) + 1
      ensures Distinct(game.pickups) && forall q <- game.pickups :: q in old(game.pickups) || fresh(q)
    {
      var pickup := new Pickup(position, Xp, stats.xpValue, game.random);
      game.pickups := game.pickups + [pickup];
      assert PickupValues(game.pickups) == old(PickupValues(game.pickups)) + [pickup.State()];
    }
  }

  // ---------------------------------------------------------------------------------------
  // Weapon
  // ---------------------------------------------------------------------------------------

  /** An SMG or a Shotgun. */
  class Weapon {
    const kind: WeaponKind
    const name: string := Name(kind)
    const owner: Player
    var level: int
    var stats: WeaponStats
    var fireTimer: real

    function State(): WeaponState
      reads this
    {
      WeaponState(kind, level, stats, fireTimer)
    }

    /** `new SMG(owner)` or `new Shotgun(owner)`. */
    constructor (kind: WeaponKind, owner: Player)
      ensures State() == NewWeapon(kind) && this.owner == owner
    {
      this.kind := kind;
      this.owner := owner;
      level := 1;
      stats := Weapons.InitialStats(kind);
      fireTimer := 0.0;
    }

    /** `Weapon.update`: fire when the timer reaches `1 / fireRate`, then restart it at 0. */
    method Update(dt: real, game: Game, ghost targets: seq<Vec>)
      requires StatsValid(kind, stats) && Distinct(game.projectiles) && targets == Targets(EnemyValues(game.enemies))
      modifies this`fireTimer, game`projectiles, game.random
      ensures var v := Contribution(game.math, old(State()), dt, owner.position, targets, game.random.draws, old(game.random.next));
        && fireTimer == FireTimerStep(old(fireTimer), dt, stats.fireRate).timer
        && ProjectileValues(game.projectiles) == old(ProjectileValues(game.projectiles)) + v.projectiles
        && game.random.next == old(game.random.next) + v.draws
      ensures Distinct(game.projectiles) && forall p <- game.projectiles :: p in old(game.projectiles) || fresh(p)
    {
      StatsValidKeepsDivisorsPositive(kind, stats);
      fireTimer := fireTimer + dt;
      var fireInterval := 1.0 / stats.fireRate;
      if fireTimer >= fireInterval {
        Fire(game, targets);
        fireTimer := 0.0;
      }
    }

    /** `fire`: nothing without enemies; otherwise `projectileCount` projectiles from the
        owner aimed at the nearest enemy, the SMG's each with a random spread, the
        Shotgun's spread evenly over the cone. */
    method Fire(game: Game, ghost targets: seq<Vec>)
      requires StatsValid(kind, stats) && Distinct(game.projectiles) && targets == Targets(EnemyValues(game.enemies))
      modifies game`projectiles, game.random
      ensures && ProjectileValues(game.projectiles) == old(ProjectileValues(game.projectiles))
             + Fired(game.math, kind, stats, owner.position, targets, game.random.draws, old(game.random.next))
        && game.random.next == old(game.random.next) + DrawsTaken(kind, stats, targets)
      ensures Distinct(game.projectiles) && forall p <- game.projectiles :: p in old(game.projectiles) || fresh(p)
    {
      if |game.enemies| == 0 {
        return;
      }
      var target := FindNearestEnemy(game);
      var at := game.enemies[target].position;
      assert at == targets[Nearest(owner.position, targets)];
      var aim := game.math.atan2(at.y - owner.position.y, at.x - owner.position.x);
      assert Fired(game.math, kind, stats, owner.position, targets, game.random.draws, game.random.next)
        == Volley(game.math, kind, stats, owner.position, aim, game.random.draws, game.random.next);
      Burst(game, aim);
    }

    /** The loop of `fire` once the aim is known: `projectileCount` shots around `aim`. */
    method Burst(game: Game, aim: real)
      requires StatsValid(kind, stats) && Distinct(game.projectiles)
      modifies game`projectiles, game.random
      ensures ProjectileValues(game.projectiles) == old(ProjectileValues(game.projectiles))
        + Volley(game.math, kind, stats, owner.position, aim, game.random.draws, old(game.random.next))
      ensures game.random.next == old(game.random.next) + (if kind == SMG then stats.projectileCount else 0)
      ensures Distinct(game.projectiles) && forall p <- game.projectiles :: p in old(game.projectiles) || fresh(p)
    {
      ghost var volley := Volley(game.math, kind, stats, owner.position, aim, game.random.draws, game.random.next);
      ghost var ps0 := ProjectileValues(game.projectiles);
      ghost var n0 := game.random.next;
      var i := 0;
      while i < stats.projectileCount
        invariant 0 <= i <= stats.projectileCount
        invariant ProjectileValues(game.projectiles) == ps0 + volley[..i]
        invariant game.random.next == n0 + (if kind == SMG then i else 0)
        invariant Distinct(game.projectiles) && forall p <- game.projectiles :: p in old(game.projectiles) || fresh(p)
      {
        Shoot(game, aim, i, n0);
        assert volley[..i + 1] == volley[..i] + [volley[i]];
        i := i + 1;
      }
      assert volley[..stats.projectileCount] == volley;
    }

    /** One turn of the loop in `fire`: shot `i` at its angle around `aim`, the SMG's
        drawing its spread from the random stream. */
    method Shoot(game: Game, aim: real, i: nat, ghost n0: nat)
      requires StatsValid(kind, stats) && i < stats.projectileCount && Distinct(game.projectiles)
      requires kind == SMG ==> game.random.next == n0 + i
      modifies game`projectiles, game.random
      ensures ProjectileValues(game.projectiles) == old(ProjectileValues(game.projectiles))
        + [Launched(game.math, owner.position, ShotAngle(kind, stats, aim, i, game.random.draws(n0 + i)), stats)]
      ensures game.random.next == old(game.random.next) + (if kind == SMG then 1 else 0)
      ensures Distinct(game.projectiles) && forall p <- game.projectiles :: p in old(game.projectiles) || fresh(p)
    {
      var angle: real;
      match kind {
        case SMG =>
          var r := game.random.Random();
          angle := aim + SpreadOffset(r, stats.spread);
        case Shotgun =>
          angle := aim + PelletOffset(i, stats.projectileCount) * stats.spread;
      }
      assert angle == ShotAngle(kind, stats, aim, i, game.random.draws(n0 + i));
      Launch(angle, game);
    }

    /** `game.projectiles.push(new Projectile(...))` for one shot of `fire` at `angle`. */
    method Launch(angle: real, game: Game)
      requires Distinct(game.projectiles)
      modifies game`projectiles
      ensures ProjectileValues(game.projectiles) == old(ProjectileValues(game.projectiles)) + [Launched(game.math, owner.position, angle, stats)]
      ensures Distinct(game.projectiles) && forall p <- game.projectiles :: p in old(game.projectiles) || fresh(p)
    {
      var projectile := new Projectile(game.math, owner.position, angle, stats.projectileSpeed, stats.damage, stats.range, stats.pierce);
      game.projectiles := game.projectiles + [projectile];
      assert ProjectileValues(game.projectiles) == old(ProjectileValues(game.projectiles)) + [projectile.State()];
    }

    /** `findNearestEnemy`, as the index of the enemy it returns (-1 for none): the first
        of the enemies nearest to the owner. */
    method FindNearestEnemy(game: Game) returns (nearest: int)
      ensures |game.enemies| == 0 ==> nearest == -1
      ensures |game.enemies| > 0 ==> nearest == Nearest(owner.position, Targets(EnemyValues(game.enemies)))
    {
      ghost var ts := Targets(EnemyValues(game.enemies));
      nearest := -1;
      var minDist := 0.0;
      var k := 0;
      while k < |game.enemies|
        invariant 0 <= k <= |game.enemies|
        invariant k == 0 ==> nearest == -1
        invariant k > 0 ==> (0 <= nearest < k && nearest == Nearest(owner.position, ts[..k])
          && minDist == DistanceSquared(owner.position, ts[nearest]))
      {
        var dist := DistanceSquared(owner.position, game.enemies[k].position);
        if k > 0 {
          assert ts[..k + 1][..k] == ts[..k];
          assert ts[..k][nearest] == ts[nearest];
        }
        if nearest < 0 || dist < minDist {
          minDist := dist;
          nearest := k;
        }
        k := k + 1;
      }
      assert ts[..|game.enemies|] == ts;
    }

    /** `upgrade`: the level goes up, then the `switch` on the new level adds its deltas. */
    method Upgrade()
      modifies this`level, this`stats
      ensures State() == Upgraded(old(State()))
    {
      level := level + 1;
      match kind {
        case SMG =>
          if level == 2 {
            stats := stats.(damage := stats.damage + 2.0, fireRate := stats.fireRate + 1.0);
          } else if level == 3 {
            stats := stats.(projectileCount := stats.projectileCount + 1, spread := stats.spread * 1.5);
          } else if level == 4 {
            stats := stats.(pierce := stats.pierce + 1, damage := stats.damage + 3.0);
          } else if level == 5 {
            stats := stats.(fireRate := stats.fireRate + 2.0, projectileCount := stats.projectileCount + 1);
          }
        case Shotgun =>
          if level == 2 {
            stats := stats.(damage := stats.damage + 5.0, projectileCount := stats.projectileCount + 2);
          } else if level == 3 {
            stats := stats.(fireRate := stats.fireRate + 0.5, damage := stats.damage + 5.0);
          } else if level == 4 {
            stats := stats.(pierce := stats.pierce + 1, projectileCount := stats.projectileCount + 2);
          } else if level == 5 {
            stats := stats.(damage := stats.damage + 10.0, range := stats.range + 100.0);
          }
      }
    }
  }

  // ---------------------------------------------------------------------------------------
  // Player
  // ---------------------------------------------------------------------------------------

  class Player {
    var position: Vec
    var velocity: Vec
    const radius: real := PlayerRadius
    var isDead: bool
    var stats: PlayerStats
    var weapons: seq<Weapon>
    var level: int
    var xp: int
    var xpToNextLevel: int
    var kills: int
    var dashTimer: real
    const dashDuration: real := DashDuration
    var isDashing: bool
    var dashDirection: Vec
    var invulnerableTimer: real
    var damageFlashTimer: real

    function State(): PlayerState
      reads this
    {
      PlayerState(position, velocity, stats, level, xp, xpToNextLevel, kills, dashTimer, isDashing, dashDirection,
        invulnerableTimer, damageFlashTimer, isDead)
    }

    function WeaponStates(): seq<WeaponState>
      reads this`weapons, weapons
    {
      WeaponValues(weapons)
    }

    /** `new Player(x, y)`, still without a weapon. */
    constructor (at: Vec)
      ensures State() == NewPlayer(at) && weapons == []
    {
      position := at;
      velocity := ZeroVec();
      isDead := false;
      stats := Progression.InitialStats();
      weapons := [];
      level := 1;
      xp := 0;
      xpToNextLevel := InitialThreshold;
      kills := 0;
      dashTimer := 0.0;
      isDashing := false;
      dashDirection := ZeroVec();
      invulnerableTimer := 0.0;
      damageFlashTimer := 0.0;
    }

    method Kill()
      modifies this`isDead
      ensures isDead
    {
      isDead := true;
    }

    /** `takeDamage`: ignored while invulnerable; otherwise armor takes off all but at
        least 1, and hp is clamped at 0, which kills. */
    method TakeDamage(amount: real)
      modifies this`stats, this`damageFlashTimer, this`isDead
      ensures State() == Hurt(old(State()), amount)
    {
      if invulnerableTimer > 0.0 {
        return;
      }
      var actualDamage := if amount - stats.armor > 1.0 then amount - stats.armor else 1.0;
      stats := stats.(hp := stats.hp - actualDamage);
      damageFlashTimer := 0.1;
      if stats.hp <= 0.0 {
        stats := stats.(hp := 0.0);
        Kill();
      }
    }

    /** `heal`: `hp = min(maxHp, hp + amount)`. */
    method Heal(amount: real)
      modifies this`stats
      ensures State() == HealBy(old(State()), amount)
    {
      stats := stats.(hp := if stats.maxHp < stats.hp + amount then stats.maxHp else stats.hp + amount);
    }

    /** `addXP`: add the points, then level up while they reach the threshold. */
    method AddXP(amount: int, game: Game, ghost pool: seq<Offer>)
      requires game.player == this && xpToNextLevel >= InitialThreshold
      requires pool == Draw(game.random.shuffle, Pool(Arsenal(WeaponStates())))
      modifies this`xp, this`level, this`xpToNextLevel, game.ui, game`paused
      ensures State() == Gain(old(State()), amount)
      ensures ModalAfter(old(game.ui.State()), old(game.paused), level > old(level), pool, game.ui.State(), game.paused)
    {
      ghost var s0 := State();
      xp := xp + amount;
      ghost var goal := Progression.AddXp(xp, xpToNextLevel);
      ghost var l0, u0, p0 := level, game.ui.State(), game.paused;
      while xp >= xpToNextLevel
        invariant xpToNextLevel >= InitialThreshold && level >= l0
        invariant Progression.AddXp(xp, xpToNextLevel).xp == goal.xp && Progression.AddXp(xp, xpToNextLevel).threshold == goal.threshold
        invariant level + Progression.AddXp(xp, xpToNextLevel).levelUps == l0 + goal.levelUps
        invariant ModalAfter(u0, p0, level > l0, pool, game.ui.State(), game.paused)
        invariant pool == Draw(game.random.shuffle, Pool(Arsenal(WeaponStates())))
        invariant State() == s0.(xp := xp, level := level, xpToNextLevel := xpToNextLevel)
        decreases xp
      {
        LevelStep(game, pool, l0, u0, p0, goal);
      }
      assert Progression.AddXp(xp, xpToNextLevel) == Progression.XpState(xp, xpToNextLevel, 0);
      assert State() == s0.(xp := goal.xp, xpToNextLevel := goal.threshold, level := s0.level + goal.levelUps);
    }

    /** One turn of `addXP`'s loop: spend a threshold's worth of points on a level-up. The
        level-ups still to come shrink by one, so the loop ends where `AddXp` says; `l0`,
        `u0` and `p0` are the level and the screen the loop started with. */
    method LevelStep(game: Game, ghost pool: seq<Offer>, ghost l0: int, ghost u0: UIState, ghost p0: bool, ghost goal: Progression.XpState)
      requires game.player == this && xpToNextLevel >= InitialThreshold && xp >= xpToNextLevel && level >= l0
      requires pool == Draw(game.random.shuffle, Pool(Arsenal(WeaponStates())))
      requires Progression.AddXp(xp, xpToNextLevel).xp == goal.xp && Progression.AddXp(xp, xpToNextLevel).threshold == goal.threshold
      requires level + Progression.AddXp(xp, xpToNextLevel).levelUps == l0 + goal.levelUps
      requires ModalAfter(u0, p0, level > l0, pool, game.ui.State(), game.paused)
      modifies this`xp, this`level, this`xpToNextLevel, game.ui, game`paused
      ensures xpToNextLevel >= InitialThreshold && level >= l0 && xp < old(xp)
      ensures State() == old(State()).(xp := xp, level := level, xpToNextLevel := xpToNextLevel)
      ensures Progression.AddXp(xp, xpToNextLevel).xp == goal.xp && Progression.AddXp(xp, xpToNextLevel).threshold == goal.threshold
      ensures level + Progression.AddXp(xp, xpToNextLevel).levelUps == l0 + goal.levelUps
      ensures ModalAfter(u0, p0, level > l0, pool, game.ui.State(), game.paused)
    {
      ghost var u1, p1, l1 := game.ui.State(), game.paused, level;
      xp := xp - xpToNextLevel;
      LevelUp(game, pool);
      ModalAfterCompose(u0, p0, l1 > l0, u1, p1, true, game.ui.State(), game.paused, pool);
      assert (l1 > l0 || true) == (level > l0);
    }

    method LevelUp(game: Game, ghost pool: seq<Offer>)
      requires game.player == this && xpToNextLevel >= InitialThreshold
      requires pool == Draw(game.random.shuffle, Pool(Arsenal(WeaponStates())))
      modifies this`level, this`xpToNextLevel, game.ui, game`paused
      ensures level == old(level) + 1 && xpToNextLevel == NextThreshold(old(xpToNextLevel))
      ensures ModalAfter(old(game.ui.State()), old(game.paused), true, pool, game.ui.State(), game.paused)
    {
      level := level + 1;
      FlooredGrowth(xpToNextLevel);
      xpToNextLevel := ((xpToNextLevel as real) * 1.2).Floor;
      game.ui.ShowLevelUpModal(game, pool);
    }

    method AddWeapon(weapon: Weapon)
      modifies this`weapons
      ensures weapons == old(weapons) + [weapon]
    {
      weapons := weapons + [weapon];
    }

    /** `startDash`: with a direction held, start the cooldown and the invulnerability and
        fix the dash direction; without one, nothing. */
    method StartDash(game: Game)
      requires game.math.Valid()
      modifies this`isDashing, this`dashTimer, this`invulnerableTimer, this`dashDirection
      ensures var dir := Direction(game.math, game.input.Up(), game.input.Down(), game.input.Left(), game.input.Right());
        State() == if dir == ZeroVec() then old(State()) else DashStarted(old(State()), dir)
    {
      var dir := game.input.GetMovementDirection(game.math);
      if dir.x == 0.0 && dir.y == 0.0 {
        return;
      }
      isDashing := true;
      dashTimer := stats.dashCooldown;
      invulnerableTimer := dashDuration;
      dashDirection := dir;
    }

    /** `updateDash`: move along the dash direction at 400 units per second; the dash ends
        once the invulnerability is over. */
    method UpdateDash(dt: real)
      modifies this`position, this`isDashing
      ensures State() == Dashed(old(State()), dt)
    {
      position := Vec(position.x + dashDirection.x * DashSpeed * dt, position.y + dashDirection.y * DashSpeed * dt);
      if invulnerableTimer <= 0.0 {
        isDashing := false;
      }
    }

    /** `updateMovement`: the velocity is the input direction times `moveSpeed`. */
    method UpdateMovement(dt: real, game: Game)
      requires game.math.Valid()
      modifies this`velocity, this`position
      ensures State() == Walked(old(State()), Direction(game.math, game.input.Up(), game.input.Down(), game.input.Left(), game.input.Right()), dt)
    {
      ghost var p0 := State();
      var dir := game.input.GetMovementDirection(game.math);
      velocity := Vec(dir.x * stats.moveSpeed, dir.y * stats.moveSpeed);
      position := Vec(position.x + velocity.x * dt, position.y + velocity.y * dt);
      assert State() == Walked(p0, dir, dt);
    }

    /** The weapon loop of `update`: each weapon in list order, all firing from here. */
    method UpdateWeapons(dt: real, game: Game, ghost targets: seq<Vec>)
      requires (forall i :: 0 <= i < |weapons| ==> UniqueAt(weapons, i)) && (forall w <- weapons :: w.owner == this)
      requires ArmsValid(WeaponStates()) && Distinct(game.projectiles) && targets == Targets(EnemyValues(game.enemies))
      modifies weapons, game`projectiles, game.random
      ensures var v := Salvo(game.math, old(WeaponStates()), dt, position, targets, game.random.draws, old(game.random.next));
        && WeaponStates() == WeaponTimers(old(WeaponStates()), dt)
        && ProjectileValues(game.projectiles) == old(ProjectileValues(game.projectiles)) + v.projectiles
        && game.random.next == old(game.random.next) + v.draws
      ensures Distinct(game.projectiles) && forall p <- game.projectiles :: p in old(game.projectiles) || fresh(p)
    {
      ghost var ws0 := WeaponStates();
      ghost var after := WeaponTimers(ws0, dt);
      ghost var ps0 := ProjectileValues(game.projectiles);
      ghost var n0 := game.random.next;
      ghost var rs := game.random.draws;
      var i := 0;
      while i < |weapons|
        invariant 0 <= i <= |weapons| == |ws0|
        invariant |WeaponStates()| == |ws0| && forall k :: 0 <= k < |ws0| ==> WeaponStates()[k] == if k < i then after[k] else ws0[k]
        invariant ArmsValid(ws0[..i])
        invariant var v := Salvo(game.math, ws0[..i], dt, position, targets, rs, n0);
          ProjectileValues(game.projectiles) == ps0 + v.projectiles && game.random.next == n0 + v.draws
        invariant Distinct(game.projectiles) && forall p <- game.projectiles :: p in old(game.projectiles) || fresh(p)
      {
        WeaponAt(dt, game, i, ws0, after, targets, rs, n0, ps0, position, game.math);
        i := i + 1;
      }
      assert WeaponStates() == after && ws0[..|ws0|] == ws0;
    }

    /** One turn of the weapon loop: weapon `i` updates after those before it have fired. */
    method WeaponAt(dt: real, game: Game, i: nat, ghost ws0: seq<WeaponState>, ghost after: seq<WeaponState>,
        ghost targets: seq<Vec>, ghost rs: nat -> real, ghost n0: nat, ghost ps0: seq<ProjectileState>, ghost at: Vec, ghost m: MathFns)
      requires at == position && m == game.math && i < |weapons| == |ws0| && UniqueAt(weapons, i) && weapons[i].owner == this
      requires ArmsValid(ws0) && after == WeaponTimers(ws0, dt) && weapons[i].State() == ws0[i]
      requires targets == Targets(EnemyValues(game.enemies)) && rs == game.random.draws && Distinct(game.projectiles)
      requires var v := Salvo(m, ws0[..i], dt, at, targets, rs, n0);
        ProjectileValues(game.projectiles) == ps0 + v.projectiles && game.random.next == n0 + v.draws
      modifies weapons[i], game`projectiles, game.random
      ensures WeaponStates() == old(WeaponStates())[i := after[i]]
      ensures var v := Salvo(m, ws0[..i + 1], dt, at, targets, rs, n0);
        ProjectileValues(game.projectiles) == ps0 + v.projectiles && game.random.next == n0 + v.draws
      ensures Distinct(game.projectiles) && forall p <- game.projectiles :: p in old(game.projectiles) || fresh(p)
    {
      var weapon := weapons[i];
      SalvoStep(m, ws0, dt, at, targets, rs, n0, i);
      Fires(weapon, dt, game, ws0[i], targets, rs, Salvo(m, ws0[..i], dt, at, targets, rs, n0), n0, ps0, at, m);
      assert weapon.State() == after[i];
      forall k | 0 <= k < |weapons| && k != i ensures WeaponValues(weapons)[k] == old(WeaponValues(weapons))[k] {
        assert weapons[k] != weapon;
      }
      assert WeaponValues(weapons) == old(WeaponValues(weapons))[i := weapon.State()];
    }

    /** `weapon.update(dt)` inside the weapon loop, after the volleys `rest` of the weapons
        before it: its own volley joins them. */
    static method Fires(weapon: Weapon, dt: real, game: Game, ghost w: WeaponState, ghost targets: seq<Vec>,
        ghost rs: nat -> real, ghost rest: Volleys, ghost n0: nat, ghost ps0: seq<ProjectileState>, ghost at: Vec, ghost m: MathFns)
      requires at == weapon.owner.position && m == game.math && weapon.State() == w && StatsValid(w.kind, w.stats)
      requires targets == Targets(EnemyValues(game.enemies)) && rs == game.random.draws && Distinct(game.projectiles)
      requires ProjectileValues(game.projectiles) == ps0 + rest.projectiles && game.random.next == n0 + rest.draws
      modifies weapon`fireTimer, game`projectiles, game.random
      ensures var v := Contribution(m, w, dt, at, targets, rs, n0 + rest.draws);
        && weapon.State() == w.(fireTimer := FireTimerStep(w.fireTimer, dt, w.stats.fireRate).timer)
        && ProjectileValues(game.projectiles) == ps0 + (rest.projectiles + v.projectiles)
        && game.random.next == n0 + (rest.draws + v.draws)
      ensures Distinct(game.projectiles) && forall p <- game.projectiles :: p in old(game.projectiles) || fresh(p)
    {
      weapon.Update(dt, game, targets);
      ghost var v := Contribution(m, w, dt, at, targets, rs, n0 + rest.draws);
      assert (ps0 + rest.projectiles) + v.projectiles == ps0 + (rest.projectiles + v.projectiles);
    }

    /** `collectPickups`: from the back of the list, collect and splice out every pickup
        strictly within `pickupRange`. */
    method CollectPickups(game: Game, ghost pool: seq<Offer>)
      requires game.player == this && Distinct(game.pickups) && xpToNextLevel >= InitialThreshold
      requires pool == Draw(game.random.shuffle, Pool(Arsenal(WeaponStates())))
      modifies this`xp, this`level, this`xpToNextLevel, this`stats, game`pickups, game.ui, game`paused
      ensures var taken := InReach(old(PickupValues(game.pickups)), position, old(stats.pickupRange));
        && game.pickups == Keep(old(game.pickups), taken)
        && State() == ApplyAll(old(State()), Collected(old(PickupValues(game.pickups)), taken))
        && ModalAfter(old(game.ui.State()), old(game.paused), level > old(level), pool, game.ui.State(), game.paused)
    {
      var pickupRangeSquared := stats.pickupRange * stats.pickupRange;
      ghost var all := game.pickups;
      ghost var qs := PickupValues(all);
      ghost var taken := InReach(qs, position, stats.pickupRange);
      ghost var s0, u0, paused0 := State(), game.ui.State(), game.paused;
      assert pickupRangeSquared == s0.stats.pickupRange * s0.stats.pickupRange;
      var i := |game.pickups| - 1;
      while i >= 0
        invariant -1 <= i < |all| && PickupValues(all) == qs
        invariant game.pickups == all[..i + 1] + Keep(all[i + 1..], taken[i + 1..])
        invariant xpToNextLevel >= InitialThreshold && level >= s0.level && stats.pickupRange == s0.stats.pickupRange
        invariant State() == ApplyAll(s0, Collected(qs[i + 1..], taken[i + 1..]))
        invariant ModalAfter(u0, paused0, level > s0.level, pool, game.ui.State(), game.paused)
        invariant pool == Draw(game.random.shuffle, Pool(Arsenal(WeaponStates())))
        invariant taken == InReach(qs, position, s0.stats.pickupRange)
      {
        CollectStep(game, i, pickupRangeSquared, all, taken, qs, pool, s0, u0, paused0);
        i := i - 1;
      }
      assert all[..0] == [] && all[0..] == all && taken[0..] == taken && qs[0..] == qs;
    }

    /** One turn of the `collectPickups` loop, at index `i`, from the player state `s0` and
        the screen `u0`, `paused0` the loop started with. */
    method CollectStep(game: Game, i: nat, pickupRangeSquared: real, ghost all: seq<Pickup>, ghost taken: seq<bool>,
        ghost qs: seq<PickupState>, ghost pool: seq<Offer>, ghost s0: PlayerState, ghost u0: UIState, ghost paused0: bool)
      requires game.player == this && i < |all| == |taken| == |qs| && PickupValues(all) == qs
      requires taken == InReach(qs, position, s0.stats.pickupRange)
      requires pickupRangeSquared == s0.stats.pickupRange * s0.stats.pickupRange
      requires game.pickups == all[..i + 1] + Keep(all[i + 1..], taken[i + 1..])
      requires pool == Draw(game.random.shuffle, Pool(Arsenal(WeaponStates())))
      requires xpToNextLevel >= InitialThreshold && s0.xpToNextLevel >= InitialThreshold && level >= s0.level
      requires State() == ApplyAll(s0, Collected(qs[i + 1..], taken[i + 1..]))
      requires ModalAfter(u0, paused0, level > s0.level, pool, game.ui.State(), game.paused)
      modifies this`xp, this`level, this`xpToNextLevel, this`stats, game`pickups, game.ui, game`paused
      ensures game.pickups == all[..i] + Keep(all[i..], taken[i..])
      ensures xpToNextLevel >= InitialThreshold && level >= s0.level && stats.pickupRange == old(stats.pickupRange)
      ensures State() == ApplyAll(s0, Collected(qs[i..], taken[i..]))
      ensures ModalAfter(u0, paused0, level > s0.level, pool, game.ui.State(), game.paused)
      ensures PickupValues(all) == qs && taken == InReach(qs, position, s0.stats.pickupRange)
      ensures pool == Draw(game.random.shuffle, Pool(Arsenal(WeaponStates())))
    {
      ghost var u1, p1, l1 := game.ui.State(), game.paused, level;
      CollectAt(game, i, pickupRangeSquared, all, taken, qs, pool);
      CollectTurn(s0, qs, taken, i);
      ModalAfterCompose(u0, paused0, l1 > s0.level, u1, p1, level > l1, game.ui.State(), game.paused, pool);
      assert (l1 > s0.level || level > l1) == (level > s0.level);
    }

    /** One turn of the `collectPickups` loop, at index `i`. */
    method CollectAt(game: Game, i: nat, pickupRangeSquared: real, ghost all: seq<Pickup>, ghost taken: seq<bool>,
        ghost qs: seq<PickupState>, ghost pool: seq<Offer>)
      requires game.player == this && i < |all| == |taken| == |qs| && xpToNextLevel >= InitialThreshold
      requires all[i].State() == qs[i] && taken[i] == (DistanceSquared(position, qs[i].position) < pickupRangeSquared)
      requires game.pickups == all[..i + 1] + Keep(all[i + 1..], taken[i + 1..])
      requires pool == Draw(game.random.shuffle, Pool(Arsenal(WeaponStates())))
      modifies this`xp, this`level, this`xpToNextLevel, this`stats, game`pickups, game.ui, game`paused
      ensures game.pickups == all[..i] + Keep(all[i..], taken[i..])
      ensures State() == if taken[i] then Apply(old(State()), CollectEffect(qs[i].kind, qs[i].value)) else old(State())
      ensures ModalAfter(old(game.ui.State()), old(game.paused), level > old(level), pool, game.ui.State(), game.paused)
    {
      SpliceAt(all, taken, i);
      var pickup := game.pickups[i];
      if DistanceSquared(position, pickup.position) < pickupRangeSquared {
        pickup.Collect(this, game, pool);
        game.pickups := game.pickups[..i] + game.pickups[i + 1..];
      }
    }

    /** The timers at the top of `update`: each running one counts down by `dt`. */
    method CountDown(dt: real)
      modifies this`dashTimer, this`invulnerableTimer, this`damageFlashTimer
      ensures State() == Timers(old(State()), dt)
    {
      if dashTimer > 0.0 { dashTimer := dashTimer - dt; }
      if invulnerableTimer > 0.0 { invulnerableTimer := invulnerableTimer - dt; }
      if damageFlashTimer > 0.0 { damageFlashTimer := damageFlashTimer - dt; }
    }

    /** The first half of `update`: the timers count down, a Space press may start a dash,
        then the player dashes or walks. */
    method Move(dt: real, game: Game)
      requires game.math.Valid()
      modifies this`position, this`velocity, this`dashTimer, this`isDashing, this`dashDirection,
        this`invulnerableTimer, this`damageFlashTimer, game.input`keysPressed
      ensures State() == Moved(Timers(old(State()), dt), old(InputManager.Flag(game.input.keysPressed, "Space")),
        old(Direction(game.math, game.input.Up(), game.input.Down(), game.input.Left(), game.input.Right())), dt)
    {
      ghost var p0 := State();
      ghost var dir := Direction(game.math, game.input.Up(), game.input.Down(), game.input.Left(), game.input.Right());
      CountDown(dt);
      ghost var p1 := Timers(p0, dt);
      var pressed := game.input.IsKeyPressed("Space");
      assert Direction(game.math, game.input.Up(), game.input.Down(), game.input.Left(), game.input.Right()) == dir;
      if pressed && dashTimer <= 0.0 {
        StartDash(game);
      }
      ghost var q := if StartsDash(p1, pressed, dir) then DashStarted(p1, dir) else p1;
      assert State() == q;
      if isDashing {
        UpdateDash(dt);
        assert State() == Dashed(q, dt);
      } else {
        UpdateMovement(dt, game);
        assert State() == Walked(q, dir, dt);
      }
      assert State() == Moved(p1, pressed, dir, dt);
    }

    /** The weapon stage of `update`: every weapon counts down and fires at the enemies. */
    method Arm(dt: real, game: Game)
      requires game.player == this && game.Linked() && ArmsValid(WeaponStates())
      modifies weapons, game`projectiles, game.random
      ensures game.Linked()
      ensures forall p <- game.projectiles :: p in old(game.projectiles) || fresh(p)
      ensures game.Snapshot() == Shot(game.math, game.random.draws, old(game.Snapshot()), dt)
    {
      ghost var w0 := game.Snapshot();
      DistinctIsUniqueAt(weapons);
      UpdateWeapons(dt, game, Targets(w0.enemies));
    }

    /** The pickup stage of `update`, from where the move left the player. */
    method Gather(game: Game)
      requires game.player == this && game.Linked() && ArmsValid(WeaponStates()) && xpToNextLevel >= InitialThreshold
      modifies this`stats, this`level, this`xp, this`xpToNextLevel, game`pickups, game.ui, game`paused
      ensures game.Linked()
      ensures forall q <- game.pickups :: q in old(game.pickups)
      ensures game.Snapshot() == Gathered(game.random.shuffle, old(game.Snapshot()))
    {
      ghost var q0 := game.pickups;
      ghost var w0 := game.Snapshot();
      ghost var taken := InReach(w0.pickups, position, stats.pickupRange);
      CollectPickups(game, Draw(game.random.shuffle, Pool(Arsenal(WeaponStates()))));
      KeepSubset(q0, taken);
      KeepDistinct(q0, taken);
      PickupValuesKeep(q0, taken);
    }

    /** `Player.update`: timers, the Space press, dash or walk, the weapons, then the pickups. */
    method Update(dt: real, game: Game)
      requires game.player == this && game.Linked() && game.math.Valid()
      requires ArmsValid(WeaponStates()) && xpToNextLevel >= InitialThreshold
      modifies this`position, this`velocity, this`stats, this`level, this`xp, this`xpToNextLevel,
        this`dashTimer, this`isDashing, this`dashDirection, this`invulnerableTimer, this`damageFlashTimer,
        weapons, game.input`keysPressed, game`projectiles, game`pickups, game.random, game.ui, game`paused
      ensures game.Linked()
      ensures forall i :: 0 <= i < |game.projectiles| ==> game.projectiles[i] in old(game.projectiles) || fresh(game.projectiles[i])
      ensures forall i :: 0 <= i < |game.pickups| ==> game.pickups[i] in old(game.pickups)
      ensures game.Snapshot() == PlayerPhase(game.math, game.random.draws, game.random.shuffle, old(game.Snapshot()),
        old(InputManager.Flag(game.input.keysPressed, "Space")),
        old(Direction(game.math, game.input.Up(), game.input.Down(), game.input.Left(), game.input.Right())), dt)
    {
      ghost var w0 := game.Snapshot();
      ghost var pressed := InputManager.Flag(game.input.keysPressed, "Space");
      ghost var dir := Direction(game.math, game.input.Up(), game.input.Down(), game.input.Left(), game.input.Right());
      Move(dt, game);
      assert game.Snapshot() == Stepped(w0, pressed, dir, dt);
      Arm(dt, game);
      PlayerPhaseInStages(game.math, game.random.draws, game.random.shuffle, w0, pressed, dir, dt);
      Gather(game);
    }
  }
  // ---------------------------------------------------------------------------------------
  // UIManager
  // ---------------------------------------------------------------------------------------

  /** The flags of `UIManager`, and the offers of the level-up screen (the modal's DOM). */
  class UIManager {
    var levelUpModalVisible: bool
    var gameOverVisible: bool
    var victory: bool
    var options: seq<Offer>

    function State(): UIState
      reads this
    {
      UIState(levelUpModalVisible, gameOverVisible, victory, options)
    }

    constructor ()
      ensures State() == UIState(false, false, false, [])
    {
      levelUpModalVisible := false;
      gameOverVisible := false;
      victory := false;
      options := [];
    }

    /** `showLevelUpModal`: latched while the screen is up; otherwise it shows three offers
        and pauses the game. */
    method ShowLevelUpModal(game: Game, ghost pool: seq<Offer>)
      requires game.ui == this && pool == Draw(game.random.shuffle, Pool(Arsenal(game.player.WeaponStates())))
      modifies this`levelUpModalVisible, this`options, game`paused
      ensures ModalAfter(old(State()), old(game.paused), true, pool, State(), game.paused)
    {
      if levelUpModalVisible {
        return;
      }
      levelUpModalVisible := true;
      game.paused := true;
      options := GenerateUpgradeOptions(game);
    }

    /** `closeLevelUpModal`. */
    method CloseLevelUpModal(game: Game)
      requires game.ui == this
      modifies this`levelUpModalVisible, game`paused
      ensures game.Snapshot() == old(game.Snapshot()).(ui := old(State()).(levelUpModalVisible := false), paused := false)
    {
      levelUpModalVisible := false;
      game.paused := false;
    }

    /** `generateUpgradeOptions`: build the pool, shuffle it and keep the first three. */
    method GenerateUpgradeOptions(game: Game) returns (offers: seq<Offer>)
      ensures offers == Draw(game.random.shuffle, Pool(Arsenal(game.player.WeaponStates())))
    {
      ghost var owned := Arsenal(game.player.WeaponStates());
      var ws := game.player.weapons;
      var pool := UpgradeOffers(ws);
      var hasSmg := exists k :: 0 <= k < |ws| && ws[k].kind == SMG;
      var hasShotgun := exists k :: 0 <= k < |ws| && ws[k].kind == Shotgun;
      assert hasSmg == Owns(owned, SMG) by {
        if hasSmg {
          var k :| 0 <= k < |ws| && ws[k].kind == SMG;
          assert owned[k].kind == SMG;
        }
      }
      assert hasShotgun == Owns(owned, Shotgun) by {
        if hasShotgun {
          var k :| 0 <= k < |ws| && ws[k].kind == Shotgun;
          assert owned[k].kind == Shotgun;
        }
      }
      if !hasSmg {
        pool := pool + [Offer("SMG", "High fire rate, moderate damage", AddWeapon(SMG))];
      }
      if !hasShotgun {
        pool := pool + [Offer("Shotgun", "Cone burst, high damage", AddWeapon(Shotgun))];
      }
      pool := pool + [Offer("+10% Move Speed", "Move faster", MoreMoveSpeed)];
      pool := pool + [Offer("+20 Max HP", "Increase maximum health", MoreMaxHp)];
      pool := pool + [Offer("+1 Armor", "Reduce damage taken", MoreArmor)];
      assert pool == WeaponOffers(owned, |owned|) + (if !Owns(owned, SMG) then [NewWeaponOffer(SMG)] else [])
        + (if !Owns(owned, Shotgun) then [NewWeaponOffer(Shotgun)] else []) + StatOffers();
      var shuffled := game.random.shuffle(pool);
      offers := if |shuffled| >= 3 then shuffled[..3] else shuffled;
    }

    /** The weapon loop of `generateUpgradeOptions`: an upgrade offer for every weapon
        below the top level, in list order. */
    method UpgradeOffers(ws: seq<Weapon>) returns (pool: seq<Offer>)
      ensures pool == WeaponOffers(Arsenal(WeaponValues(ws)), |ws|)
    {
      ghost var owned := Arsenal(WeaponValues(ws));
      pool := [];
      var i := 0;
      while i < |ws|
        invariant 0 <= i <= |ws| == |owned|
        invariant pool == WeaponOffers(owned, i)
      {
        var weapon := ws[i];
        assert owned[i] == Owned(weapon.kind, weapon.level);
        if weapon.level < MaxWeaponLevel {
          pool := pool + [Offer(weapon.name + " Level " + IntToString(weapon.level + 1), Description(weapon.kind, weapon.level), UpgradeWeapon(i))];
        }
        i := i + 1;
      }
    }

    /** Clicking offer `k` of the level-up screen: its `apply`, then `closeLevelUpModal`. */
    method SelectOption(k: nat, game: Game)
      requires game.ui == this && game.Valid() && k < |options|
      modifies game.player`stats, game.player`weapons, game.player.weapons, this`levelUpModalVisible, game`paused
      ensures game.Valid()
      ensures game.Snapshot() == Chosen(old(game.Snapshot()), old(options[k].action))
    {
      ghost var w0 := game.Snapshot();
      var action := options[k].action;
      assert options[k] in options;
      match action {
        case UpgradeWeapon(i) => ApplyUpgrade(i, game);
        case AddWeapon(kind) => ApplyNewWeapon(kind, game);
        case _ => ApplyStat(action, game);
      }
      assert game.Snapshot() == Applied(w0, action);
      CloseLevelUpModal(game);
      ChosenKeepsValid(w0, action);
    }

    /** The `apply` of a weapon-upgrade offer: `weapon.upgrade()` on the player's `i`-th weapon. */
    method ApplyUpgrade(i: nat, game: Game)
      requires game.Linked() && i < |game.player.weapons|
      modifies game.player.weapons[i]
      ensures game.Linked()
      ensures game.Snapshot() == Applied(old(game.Snapshot()), UpgradeWeapon(i))
    {
      var weapon := game.player.weapons[i];
      weapon.Upgrade();
      forall j | 0 <= j < |game.player.weapons| && j != i
        ensures game.player.WeaponStates()[j] == old(game.player.WeaponStates())[j]
      {
        assert game.player.weapons[j] != weapon;
      }
      assert game.player.WeaponStates() == old(game.player.WeaponStates())[i := weapon.State()];
    }

    /** The `apply` of a new-weapon offer: `player.addWeapon(new SMG(player))` or the Shotgun. */
    method ApplyNewWeapon(kind: WeaponKind, game: Game)
      requires game.Linked()
      modifies game.player`weapons
      ensures game.Linked()
      ensures game.Snapshot() == Applied(old(game.Snapshot()), AddWeapon(kind))
    {
      var weapon := new Weapon(kind, game.player);
      game.player.AddWeapon(weapon);
      assert game.player.WeaponStates() == old(game.player.WeaponStates()) + [NewWeapon(kind)];
    }

    /** The `apply` of a stat offer: more speed, more health or more armor. */
    method ApplyStat(action: Action, game: Game)
      requires !action.UpgradeWeapon? && !action.AddWeapon?
      modifies game.player`stats
      ensures game.Snapshot() == Applied(old(game.Snapshot()), action)
    {
      var stats := game.player.stats;
      match action {
        case MoreMoveSpeed =>
          stats := stats.(moveSpeed := stats.moveSpeed * 1.1);
        case MoreMaxHp =>
          stats := stats.(maxHp := stats.maxHp + 20.0);
          stats := stats.(hp := stats.hp + 20.0);
        case MoreArmor =>
          stats := stats.(armor := stats.armor + 1.0);
      }
      game.player.stats := stats;
    }

    /** `showGameOver`: latched; the first call records the outcome and pauses the game. */
    method ShowGameOver(game: Game, victory: bool)
      modifies this`gameOverVisible, this`victory, game`paused
      ensures old(gameOverVisible) ==> State() == old(State()) && game.paused == old(game.paused)
      ensures !old(gameOverVisible) ==> State() == old(State()).(gameOverVisible := true, victory := victory) && game.paused
    {
      if gameOverVisible {
        return;
      }
      gameOverVisible := true;
      this.victory := victory;
      game.paused := true;
    }
  }

  // ---------------------------------------------------------------------------------------
  // WaveManager
  // ---------------------------------------------------------------------------------------

  class WaveManager {
    var gameTime: real
    var spawnTimer: real
    var bossSpawned: bool
    const maxEnemies: nat := MaxEnemies
    const waves: seq<WaveConfig> := WaveTable()

    function State(): WaveState
      reads this
    {
      WaveState(gameTime, spawnTimer, bossSpawned)
    }

    constructor ()
      ensures State() == WaveState(0.0, 0.0, false)
    {
      gameTime := 0.0;
      spawnTimer := 0.0;
      bossSpawned := false;
    }

    /** `getFormattedTime`. */
    function GetFormattedTime(): string
      reads this
    {
      FormatTime(gameTime)
    }

    /** `getCurrentWave`: the first window holding the clock, else the last wave. */
    method GetCurrentWave() returns (wave: WaveConfig)
      ensures wave == CurrentWave(gameTime)
    {
      var i := 0;
      while i < |waves|
        invariant 0 <= i <= |waves|
        invariant WaveIndex(waves, gameTime, i) == WaveIndex(waves, gameTime, 0)
      {
        if gameTime >= waves[i].startTime && gameTime < waves[i].endTime {
          return waves[i];
        }
        i := i + 1;
      }
      return waves[|waves| - 1];
    }

    /** `getSpawnPosition`: 400 units from the player at a random angle. */
    method GetSpawnPosition(game: Game) returns (at: Vec)
      modifies game.random
      ensures at == SpawnPosition(game.math, game.player.position, game.random.draws(old(game.random.next)))
      ensures game.random.next == old(game.random.next) + 1
    {
      var r := game.random.Random();
      var angle := r * Pi * 2.0;
      at := Vec(game.player.position.x + game.math.cos(angle) * SpawnDistance,
                game.player.position.y + game.math.sin(angle) * SpawnDistance);
    }

    method SpawnBoss(game: Game)
      requires Distinct(game.enemies)
      modifies game`enemies, game.random
      ensures EnemyValues(game.enemies) == old(EnemyValues(game.enemies))
        + [Spawned(Boss, SpawnPosition(game.math, game.player.position, game.random.draws(old(game.random.next))))]
      ensures game.random.next == old(game.random.next) + 1
      ensures Distinct(game.enemies) && forall e <- game.enemies :: e in old(game.enemies) || fresh(e)
    {
      var at := GetSpawnPosition(game);
      var boss := new Enemy(Boss, at);
      game.enemies := game.enemies + [boss];
      assert EnemyValues(game.enemies) == old(EnemyValues(game.enemies)) + [boss.State()];
    }

    /** `spawnEnemy`: one draw picks the type by weight, one more the position. */
    method SpawnEnemy(wave: WaveConfig, game: Game)
      requires Distinct(game.enemies)
      modifies game`enemies, game.random
      ensures var d := old(game.random.next);
        EnemyValues(game.enemies) == old(EnemyValues(game.enemies))
          + [Spawned(SpawnKind(wave, game.random.draws(d)), SpawnPosition(game.math, game.player.position, game.random.draws(d + 1)))]
      ensures game.random.next == old(game.random.next) + 2
      ensures Distinct(game.enemies) && forall e <- game.enemies :: e in old(game.enemies) || fresh(e)
    {
      var ts := wave.enemyTypes;
      var totalWeight := TotalWeight(ts);
      var draw := game.random.Random();
      var random := draw * totalWeight;
      ghost var start := random;
      var enemyType := "walker";
      var i := 0;
      while i < |ts|
        invariant 0 <= i <= |ts|
        invariant PickIndex(ts, start) == i + PickIndex(ts[i..], random)
        invariant enemyType == "walker"
      {
        assert ts[i..][1..] == ts[i + 1..];
        random := random - ts[i].weight;
        if random <= 0.0 {
          enemyType := ts[i].name;
          break;
        }
        i := i + 1;
      }
      assert enemyType == PickedName(ts, start);
      SpawnKindOfDraw(wave, draw, totalWeight);
      var at := GetSpawnPosition(game);
      var enemy := new Enemy(if enemyType == "runner" then Runner else Walker, at);
      game.enemies := game.enemies + [enemy];
      assert EnemyValues(game.enemies) == old(EnemyValues(game.enemies)) + [enemy.State()];
    }

    /** The first half of `update`: the clock runs, and at 180 s the boss spawns once,
        whatever the number of enemies. */
    method Advance(dt: real, game: Game)
      requires game.waveManager == this && Distinct(game.enemies)
      modifies this`gameTime, this`bossSpawned, game`enemies, game.random
      ensures Distinct(game.enemies) && forall e <- game.enemies :: e in old(game.enemies) || fresh(e)
      ensures game.Snapshot() == Clocked(game.math, game.random.draws, old(game.Snapshot()), dt)
    {
      gameTime := gameTime + dt;
      if gameTime >= BossTime && !bossSpawned {
        SpawnBoss(game);
        bossSpawned := true;
      }
    }

    /** The second half of `update`: nothing more at 60 enemies; otherwise the timer gains
        `dt` and regular enemies spawn while it holds an interval and fewer than 60 live. */
    method Reinforce(dt: real, game: Game)
      requires game.waveManager == this && Distinct(game.enemies)
      modifies this`spawnTimer, game`enemies, game.random
      ensures Distinct(game.enemies) && forall e <- game.enemies :: e in old(game.enemies) || fresh(e)
      ensures game.Snapshot() == Reinforced(game.math, game.random.draws, old(game.Snapshot()), dt)
    {
      if |game.enemies| >= maxEnemies {
        return;
      }
      var wave := GetCurrentWave();
      CurrentWaveWindows(gameTime);
      spawnTimer := spawnTimer + dt;
      var spawnInterval := 1.0 / wave.spawnRate;
      CatchUp(wave, spawnInterval, game);
    }

    /** The catch-up loop of `update`: one spawn per interval on the timer, up to 60 enemies. */
    method CatchUp(wave: WaveConfig, spawnInterval: real, game: Game)
      requires spawnInterval > 0.0 && Distinct(game.enemies)
      modifies this`spawnTimer, game`enemies, game.random
      ensures var c := CatchUpSpawns(old(spawnTimer), spawnInterval, old(|game.enemies|));
        && spawnTimer == c.timer
        && EnemyValues(game.enemies) == old(EnemyValues(game.enemies))
          + Spawns(game.math, wave, game.player.position, game.random.draws, old(game.random.next), c.spawns)
        && game.random.next == old(game.random.next) + 2 * c.spawns
      ensures Distinct(game.enemies) && forall e <- game.enemies :: e in old(game.enemies) || fresh(e)
    {
      ghost var es0 := EnemyValues(game.enemies);
      ghost var d0 := game.random.next;
      ghost var n1 := |game.enemies|;
      ghost var at, rs := game.player.position, game.random.draws;
      ghost var c := CatchUpSpawns(spawnTimer, spawnInterval, n1);
      while spawnTimer >= spawnInterval && |game.enemies| < maxEnemies
        invariant n1 <= |game.enemies|
        invariant CatchUpSpawns(spawnTimer, spawnInterval, |game.enemies|).timer == c.timer
        invariant CatchUpSpawns(spawnTimer, spawnInterval, |game.enemies|).spawns + (|game.enemies| - n1) == c.spawns
        invariant EnemyValues(game.enemies) == es0 + Spawns(game.math, wave, at, rs, d0, |game.enemies| - n1)
        invariant game.random.next == d0 + 2 * (|game.enemies| - n1)
        invariant Distinct(game.enemies) && forall e <- game.enemies :: e in old(game.enemies) || fresh(e)
        decreases maxEnemies - |game.enemies|
      {
        CatchUpStep(wave, spawnInterval, game, es0, d0, n1, at, rs, c);
      }
    }

    /** One turn of the catch-up loop, from the enemy values `es0`, the draw count `d0` and
        the enemy count `n1` the loop started with; `c` is what the whole loop does. */
    method CatchUpStep(wave: WaveConfig, spawnInterval: real, game: Game, ghost es0: seq<EnemyState>, ghost d0: nat,
        ghost n1: nat, ghost at: Vec, ghost rs: nat -> real, ghost c: Waves.CatchUp)
      requires spawnTimer >= spawnInterval && |game.enemies| < maxEnemies
      requires at == game.player.position && rs == game.random.draws && n1 <= |game.enemies| && Distinct(game.enemies)
      requires CatchUpSpawns(spawnTimer, spawnInterval, |game.enemies|).timer == c.timer
      requires CatchUpSpawns(spawnTimer, spawnInterval, |game.enemies|).spawns + (|game.enemies| - n1) == c.spawns
      requires EnemyValues(game.enemies) == es0 + Spawns(game.math, wave, at, rs, d0, |game.enemies| - n1)
      requires game.random.next == d0 + 2 * (|game.enemies| - n1)
      modifies this`spawnTimer, game`enemies, game.random
      ensures |game.enemies| == old(|game.enemies|) + 1 && Distinct(game.enemies)
      ensures CatchUpSpawns(spawnTimer, spawnInterval, |game.enemies|).timer == c.timer
      ensures CatchUpSpawns(spawnTimer, spawnInterval, |game.enemies|).spawns + (|game.enemies| - n1) == c.spawns
      ensures EnemyValues(game.enemies) == es0 + Spawns(game.math, wave, at, rs, d0, |game.enemies| - n1)
      ensures game.random.next == d0 + 2 * (|game.enemies| - n1)
      ensures forall e <- game.enemies :: e in old(game.enemies) || fresh(e)
    {
      ghost var rest := CatchUpSpawns(spawnTimer - spawnInterval, spawnInterval, |game.enemies| + 1);
      assert CatchUpSpawns(spawnTimer, spawnInterval, |game.enemies|) == Waves.CatchUp(rest.timer, rest.spawns + 1);
      spawnTimer := spawnTimer - spawnInterval;
      SpawnNext(wave, game, es0, d0, n1, at);
    }

    /** One turn of the catch-up loop: the next spawn joins the list. */
    method SpawnNext(wave: WaveConfig, game: Game, ghost es0: seq<EnemyState>, ghost d0: nat, ghost n1: nat, ghost at: Vec)
      requires at == game.player.position && n1 <= |game.enemies| && Distinct(game.enemies)
      requires EnemyValues(game.enemies) == es0 + Spawns(game.math, wave, at, game.random.draws, d0, |game.enemies| - n1)
      requires game.random.next == d0 + 2 * (|game.enemies| - n1)
      modifies game`enemies, game.random
      ensures |game.enemies| == old(|game.enemies|) + 1
      ensures EnemyValues(game.enemies) == es0 + Spawns(game.math, wave, at, game.random.draws, d0, |game.enemies| - n1)
      ensures game.random.next == d0 + 2 * (|game.enemies| - n1)
      ensures Distinct(game.enemies) && forall e <- game.enemies :: e in old(game.enemies) || fresh(e)
    {
      ghost var k := |game.enemies| - n1;
      ghost var s := Spawns(game.math, wave, at, game.random.draws, d0, k);
      SpawnAppendsOne(game.math, wave, at, game.random.draws, d0, k);
      SpawnEnemy(wave, game);
      assert es0 + s + [EnemyValues(game.enemies)[|game.enemies| - 1]] == es0 + (s + [EnemyValues(game.enemies)[|game.enemies| - 1]]);
    }

    /** `WaveManager.update`: the clock, the boss at 180 s (before the cap check), then
        regular spawns while the timer holds an interval and fewer than 60 enemies live. */
    method Update(dt: real, game: Game)
      requires game.waveManager == this && Distinct(game.enemies)
      modifies this`gameTime, this`spawnTimer, this`bossSpawned, game`enemies, game.random
      ensures Distinct(game.enemies) && forall e <- game.enemies :: e in old(game.enemies) || fresh(e)
      ensures game.Snapshot() == WavePhase(game.math, game.random.draws, old(game.Snapshot()), dt)
    {
      WavePhaseInStages(game.math, game.random.draws, game.Snapshot(), dt);
      Advance(dt, game);
      Reinforce(dt, game);
    }
  }

  /** The spawn that the two draws after the first `n` spawns make comes next. */
  lemma SpawnAppendsOne(m: MathFns, w: WaveConfig, player: Vec, draws: nat -> real, start: nat, n: nat)
    ensures Spawns(m, w, player, draws, start, n + 1) == Spawns(m, w, player, draws, start, n)
      + [Spawned(SpawnKind(w, draws(start + 2 * n)), SpawnPosition(m, player, draws(start + 2 * n + 1)))]
  {
    SpawnsAppend(m, w, player, draws, start, n);
  }

  // ---------------------------------------------------------------------------------------
  // Game
  // ---------------------------------------------------------------------------------------

  class Game {
    const player: Player
    const input: InputManager
    const waveManager: WaveManager
    const ui: UIManager
    const random: RandomSource
    const math: MathFns
    var enemies: seq<Enemy>
    var projectiles: seq<Projectile>
    var pickups: seq<Pickup>
    var paused: bool
    var gameOver: bool
    var lastTime: real

    /** The whole game state as a value. */
    function Snapshot(): World
      reads this, player, player.weapons, enemies, projectiles, pickups, waveManager, ui, random
    {
      World(player.State(), player.WeaponStates(), EnemyValues(enemies), ProjectileValues(projectiles),
        PickupValues(pickups), waveManager.State(), ui.State(), paused, gameOver, random.next)
    }

    /** No object is listed twice, and every weapon belongs to the player. */
    ghost predicate Linked()
      reads this, player
    {
      && Distinct(enemies) && Distinct(projectiles) && Distinct(pickups) && Distinct(player.weapons)
      && (forall w <- player.weapons :: w.owner == player)
    }

    ghost predicate Valid()
      reads this, player, player.weapons, enemies, projectiles, pickups, waveManager, ui, random
    {
      Linked() && math.Valid() && Permutes(random.shuffle) && WorldValid(Snapshot())
    }

    /** `new Game(canvas)`: the player at (640, 360) with one SMG and nothing else. */
    constructor (math: MathFns, draws: nat -> real, shuffle: seq<Offer> -> seq<Offer>)
      requires math.Valid() && Permutes(shuffle)
      ensures Valid() && Snapshot() == NewWorld()
      ensures this.math == math && random.draws == draws && random.shuffle == shuffle
    {
      enemies := [];
      projectiles := [];
      pickups := [];
      paused := false;
      gameOver := false;
      lastTime := 0.0;
      input := new InputManager();
      waveManager := new WaveManager();
      ui := new UIManager();
      player := new Player(Vec(640.0, 360.0));
      random := new RandomSource(draws, shuffle);
      this.math := math;
      new;
      var smg := new Weapon(SMG, player);
      player.AddWeapon(smg);
      assert player.WeaponStates() == [NewWeapon(SMG)];
      NewWorldValid();
    }

    /** The entities the projectiles fight over, as a value. */
    function Battlefield(): Battle
      reads this`enemies, this`pickups, enemies, pickups, player`kills, random`next
    {
      Battle(EnemyValues(enemies), PickupValues(pickups), player.kills, random.next)
    }

    /** The enemy loop of `update`, stated on the whole game. */
    method UpdateEnemies(dt: real)
      requires Linked()
      modifies this`enemies, enemies, player`stats, player`damageFlashTimer, player`isDead
      ensures Linked() && forall e <- enemies :: e in old(enemies)
      ensures Snapshot() == EnemyPhase(math, old(Snapshot()), dt)
    {
      EnemyLoop(dt);
    }

    /** The enemy loop of `update`: each enemy from the back, spliced out if dead. */
    method EnemyLoop(dt: real)
      requires Distinct(enemies)
      modifies this`enemies, enemies, player`stats, player`damageFlashTimer, player`isDead
      ensures Distinct(enemies) && forall e <- enemies :: e in old(enemies)
      ensures var r := EnemiesStep(math, old(EnemyValues(enemies)), old(player.State()), dt);
        EnemyValues(enemies) == Keep(r.enemies, EnemiesDead(r.enemies)) && player.State() == r.player
    {
      ghost var all := enemies;
      ghost var r := EnemiesStep(math, EnemyValues(enemies), player.State(), dt);
      EnemySweep(dt, all, EnemyValues(enemies), r);
      EnemyValuesKeep(all, EnemiesDead(r.enemies));
      KeepSubset(all, EnemiesDead(r.enemies));
      KeepDistinct(all, EnemiesDead(r.enemies));
    }

    /** The loop itself, over the list `all` of values `es0` whose pass is `r`. */
    method EnemySweep(dt: real, ghost all: seq<Enemy>, ghost es0: seq<EnemyState>, ghost r: EnemyPass)
      requires enemies == all && Distinct(all) && EnemyValues(all) == es0 && r == EnemiesStep(math, es0, player.State(), dt)
      modifies this`enemies, all, player`stats, player`damageFlashTimer, player`isDead
      ensures enemies == Keep(all, EnemiesDead(r.enemies)) && EnemyValues(all) == r.enemies && player.State() == r.player
    {
      ghost var dead := EnemiesDead(r.enemies);
      assert es0[..|es0|] == es0 && r.enemies[..|es0|] == r.enemies;
      var i := |enemies| - 1;
      while i >= 0
        invariant -1 <= i < |all|
        invariant enemies == all[..i + 1] + Keep(all[i + 1..], dead[i + 1..])
        invariant EnemyValues(all) == es0[..i + 1] + r.enemies[i + 1..]
        invariant EnemiesStep(math, es0[..i + 1], player.State(), dt).enemies == r.enemies[..i + 1]
        invariant EnemiesStep(math, es0[..i + 1], player.State(), dt).player == r.player
      {
        EnemyAt(i, dt, all, es0, r);
        i := i - 1;
      }
      assert all[..0] == [] && all[0..] == all && dead[0..] == dead;
      assert es0[..0] == [] && r.enemies[0..] == r.enemies;
    }

    /** One turn of the enemy loop, at index `i`: the enemy moves and may attack the player
        as the later enemies left them. */
    method EnemyAt(i: nat, dt: real, ghost all: seq<Enemy>, ghost es0: seq<EnemyState>, ghost r: EnemyPass)
      requires i < |all| == |es0| == |r.enemies| && Distinct(all)
      requires enemies == all[..i + 1] + Keep(all[i + 1..], EnemiesDead(r.enemies)[i + 1..])
      requires EnemyValues(all) == es0[..i + 1] + r.enemies[i + 1..]
      requires EnemiesStep(math, es0[..i + 1], player.State(), dt).enemies == r.enemies[..i + 1]
      requires EnemiesStep(math, es0[..i + 1], player.State(), dt).player == r.player
      modifies this`enemies, all[i], player`stats, player`damageFlashTimer, player`isDead
      ensures enemies == all[..i] + Keep(all[i..], EnemiesDead(r.enemies)[i..])
      ensures EnemyValues(all) == es0[..i] + r.enemies[i..]
      ensures EnemiesStep(math, es0[..i], player.State(), dt).enemies == r.enemies[..i]
      ensures EnemiesStep(math, es0[..i], player.State(), dt).player == r.player
    {
      SpliceAt(all, EnemiesDead(r.enemies), i);
      var enemy := enemies[i];
      assert es0[..i + 1][..i] == es0[..i] && es0[..i + 1][i] == es0[i];
      assert r.enemies[..i + 1][..i] == r.enemies[..i];
      enemy.Update(dt, this);
      forall k | 0 <= k < |all| && k != i ensures EnemyValues(all)[k] == old(EnemyValues(all))[k] {
        assert all[k] != all[i];
      }
      assert EnemyValues(all) == old(EnemyValues(all))[i := all[i].State()];
      ReplaceStep(es0, r.enemies, i);
      if enemy.isDead {
        enemies := enemies[..i] + enemies[i + 1..];
      }
    }

    /** The projectile loop of `update`, stated on the whole game. */
    method UpdateProjectiles(dt: real)
      requires Linked()
      modifies this`projectiles, this`pickups, projectiles, enemies, player`kills, random
      ensures Linked() && forall p <- projectiles :: p in old(projectiles)
      ensures forall q <- pickups :: q in old(pickups) || fresh(q)
      ensures Snapshot() == ProjectilePhase(math, old(Snapshot()), dt)
    {
      ghost var w0 := Snapshot();
      ProjectilePhaseAsHits(math, w0, dt);
      ProjectileLoop(dt);
      ghost var b := AfterHits(Battle(w0.enemies, w0.pickups, w0.player.kills, w0.draws), PassHits(math, w0.projectiles, w0.enemies, dt));
      assert player.State() == w0.player.(kills := b.kills);
      assert EnemyValues(enemies) == b.enemies && PickupValues(pickups) == b.pickups && random.next == b.draws;
    }

    /** The projectile loop of `update`: each projectile from the back, spliced out if dead;
        the hits of the whole loop are those of the batch pass. */
    method ProjectileLoop(dt: real)
      requires Distinct(projectiles) && Distinct(enemies) && Distinct(pickups)
      modifies this`projectiles, this`pickups, projectiles, enemies, player`kills, random
      ensures Distinct(projectiles) && forall p <- projectiles :: p in old(projectiles)
      ensures Distinct(pickups) && forall q <- pickups :: q in old(pickups) || fresh(q)
      ensures var r := ProjectilesStep(math, old(ProjectileValues(projectiles)), old(EnemyValues(enemies)), dt);
        ProjectileValues(projectiles) == Keep(r.projectiles, ProjectilesDead(r.projectiles))
      ensures Battlefield() == AfterHits(old(Battlefield()), PassHits(math, old(ProjectileValues(projectiles)), old(EnemyValues(enemies)), dt))
    {
      ghost var all := projectiles;
      ghost var next := ProjectilesStep(math, ProjectileValues(projectiles), EnemyValues(enemies), dt).projectiles;
      ghost var ps0, dead := ProjectileValues(projectiles), ProjectilesDead(next);
      ProjectileSweep(dt, all, ps0, Battlefield(), next, dead);
      assert all[..0] == [] && all[0..] == all && dead[0..] == dead && ps0[0..] == ps0;
      assert ps0[..0] == [] && next[0..] == next;
      assert projectiles == Keep(all, dead) && ProjectileValues(all) == next;
      ProjectileValuesKeep(all, dead);
      assert ProjectileValues(projectiles) == Keep(next, dead);
      KeepSubset(all, dead);
      KeepDistinct(all, dead);
    }

    /** The loop itself, over the list `all` of values `ps0`, from the battle `b0`. */
    method ProjectileSweep(dt: real, ghost all: seq<Projectile>, ghost ps0: seq<ProjectileState>, ghost b0: Battle,
        ghost next: seq<ProjectileState>, ghost dead: seq<bool>)
      requires projectiles == all && Distinct(all) && Distinct(enemies) && Distinct(pickups)
      requires ProjectileValues(all) == ps0 && Battlefield() == b0
      requires next == ProjectilesStep(math, ps0, b0.enemies, dt).projectiles && dead == ProjectilesDead(next)
      modifies this`projectiles, this`pickups, all, enemies, player`kills, random
      ensures projectiles == all[..0] + Keep(all[0..], dead[0..]) && ProjectileValues(all) == ps0[..0] + next[0..]
      ensures Battlefield() == AfterHits(b0, PassHits(math, ps0[0..], b0.enemies, dt))
      ensures Distinct(pickups) && forall q <- pickups :: q in old(pickups) || fresh(q)
    {
      var i := |projectiles| - 1;
      assert ps0[..i + 1] == ps0 && all[..i + 1] == all;
      while i >= 0
        invariant -1 <= i < |all|
        invariant projectiles == all[..i + 1] + Keep(all[i + 1..], dead[i + 1..])
        invariant ProjectileValues(all) == ps0[..i + 1] + next[i + 1..]
        invariant Battlefield() == AfterHits(b0, PassHits(math, ps0[i + 1..], b0.enemies, dt))
        invariant Distinct(pickups) && forall q <- pickups :: q in old(pickups) || fresh(q)
      {
        ProjectileAt(i, dt, all, ps0, b0, next, dead);
        i := i - 1;
      }
    }

    /** One turn of the projectile loop, at index `i`: the projectile meets the enemies as the
        later projectiles left them. */
    method ProjectileAt(i: nat, dt: real, ghost all: seq<Projectile>, ghost ps0: seq<ProjectileState>, ghost b0: Battle,
        ghost next: seq<ProjectileState>, ghost dead: seq<bool>)
      requires i < |all| == |ps0| && Distinct(all) && Distinct(enemies) && Distinct(pickups)
      requires next == ProjectilesStep(math, ps0, b0.enemies, dt).projectiles && dead == ProjectilesDead(next)
      requires projectiles == all[..i + 1] + Keep(all[i + 1..], dead[i + 1..])
      requires ProjectileValues(all) == ps0[..i + 1] + next[i + 1..]
      requires Battlefield() == AfterHits(b0, PassHits(math, ps0[i + 1..], b0.enemies, dt))
      modifies this`projectiles, this`pickups, all[i], enemies, player`kills, random
      ensures projectiles == all[..i] + Keep(all[i..], dead[i..])
      ensures ProjectileValues(all) == ps0[..i] + next[i..]
      ensures Battlefield() == AfterHits(b0, PassHits(math, ps0[i..], b0.enemies, dt))
      ensures Distinct(pickups) && forall q <- pickups :: q in old(pickups) || fresh(q)
    {
      SpliceAt(all, dead, i);
      var projectile := projectiles[i];
      ProjectileTurn(math, ps0, b0.enemies, dt, i, b0);
      Fly(projectile, i, dt, all, ps0[i], Battlefield());
      ReplaceStep(ps0, next, i);
      if projectile.isDead {
        projectiles := projectiles[..i] + projectiles[i + 1..];
      }
    }

    /** The projectile at index `i` of `all`, in state `p`, updates against the battle `b`;
        the other projectiles keep their state. */
    method Fly(projectile: Projectile, i: nat, dt: real, ghost all: seq<Projectile>, ghost p: ProjectileState, ghost b: Battle)
      requires i < |all| && all[i] == projectile && Distinct(all) && Distinct(enemies) && Distinct(pickups)
      requires projectile.State() == p && Battlefield() == b
      modifies projectile, enemies, this`pickups, player`kills, random
      ensures var t := ProjectileStep(math, p, b.enemies, dt);
        && HitsWithin(HitsOf(t.hits, p.damage), |b.enemies|)
        && ProjectileValues(all) == old(ProjectileValues(all))[i := t.next]
        && Battlefield() == AfterHits(b, HitsOf(t.hits, p.damage))
      ensures Distinct(pickups) && forall q <- pickups :: q in old(pickups) || fresh(q)
    {
      projectile.Update(dt, this);
      forall k | 0 <= k < |all| && k != i ensures ProjectileValues(all)[k] == old(ProjectileValues(all))[k] {
        assert all[k] != all[i];
      }
    }

    /** The pickup loop of `update`, stated on the whole game. */
    method UpdatePickups(dt: real)
      requires Linked()
      modifies this`pickups, pickups
      ensures Linked() && forall q <- pickups :: q in old(pickups)
      ensures Snapshot() == PickupPhase(old(Snapshot()), dt)
    {
      PickupLoop(dt);
    }

    /** The pickup loop of `update`: each pickup from the back, spliced out if expired. */
    method PickupLoop(dt: real)
      requires Distinct(pickups)
      modifies this`pickups, pickups
      ensures Distinct(pickups) && forall q <- pickups :: q in old(pickups)
      ensures PickupValues(pickups) == Keep(PickupsStep(old(PickupValues(pickups)), dt), PickupsDead(PickupsStep(old(PickupValues(pickups)), dt)))
    {
      ghost var all := pickups;
      ghost var q0 := PickupValues(pickups);
      ghost var after := PickupsStep(q0, dt);
      ghost var dead := PickupsDead(after);
      var i := |pickups| - 1;
      while i >= 0
        invariant -1 <= i < |all|
        invariant pickups == all[..i + 1] + Keep(all[i + 1..], dead[i + 1..])
        invariant PickupValues(all) == q0[..i + 1] + after[i + 1..]
      {
        PickupAt(i, dt, all, q0);
        i := i - 1;
      }
      assert all[..0] == [] && all[0..] == all && dead[0..] == dead;
      assert q0[..0] == [] && after[0..] == after;
      assert pickups == Keep(all, dead);
      assert PickupValues(all) == after;
      PickupValuesKeep(all, dead);
      KeepSubset(all, dead);
      KeepDistinct(all, dead);
    }

    /** One turn of the pickup loop, at index `i`. */
    method PickupAt(i: nat, dt: real, ghost all: seq<Pickup>, ghost q0: seq<PickupState>)
      requires i < |all| == |q0| && Distinct(all)
      requires pickups == all[..i + 1] + Keep(all[i + 1..], PickupsDead(PickupsStep(q0, dt))[i + 1..])
      requires PickupValues(all) == q0[..i + 1] + PickupsStep(q0, dt)[i + 1..]
      modifies this`pickups, all[i]
      ensures pickups == all[..i] + Keep(all[i..], PickupsDead(PickupsStep(q0, dt))[i..])
      ensures PickupValues(all) == q0[..i] + PickupsStep(q0, dt)[i..]
    {
      ghost var after := PickupsStep(q0, dt);
      SpliceAt(all, PickupsDead(after), i);
      var pickup := pickups[i];
      pickup.Update(dt);
      forall k | 0 <= k < |all| && k != i ensures PickupValues(all)[k] == old(PickupValues(all))[k] {
        assert all[k] != all[i];
      }
      assert PickupValues(all) == old(PickupValues(all))[i := all[i].State()];
      ReplaceStep(q0, after, i);
      if pickup.isDead {
        pickups := pickups[..i] + pickups[i + 1..];
      }
    }

    /** `triggerGameOver`: latched; the first call records the outcome on the screen. */
    method TriggerGameOver(victory: bool)
      modifies this`gameOver, ui`gameOverVisible, ui`victory, this`paused
      ensures Snapshot() == GameOver(old(Snapshot()), victory)
    {
      if gameOver {
        return;
      }
      gameOver := true;
      ui.ShowGameOver(this, victory);
    }

    /** The middle of `update`: the enemy loop, then the projectile loop. */
    method Fight(dt: real)
      requires Linked()
      modifies this`enemies, this`projectiles, this`pickups, enemies, projectiles,
        player`stats, player`damageFlashTimer, player`isDead, player`kills, random
      ensures Linked() && forall p <- projectiles :: p in old(projectiles)
      ensures forall q <- pickups :: q in old(pickups) || fresh(q)
      ensures Snapshot() == ProjectilePhase(math, EnemyPhase(math, old(Snapshot()), dt), dt)
    {
      UpdateEnemies(dt);
      assert forall i :: 0 <= i < |enemies| ==> enemies[i] in old(enemies);
      UpdateProjectiles(dt);
    }

    /** The end of `update`: the pickup loop, the wave manager, then defeat and victory. */
    method Settle(dt: real)
      requires Linked()
      modifies this`enemies, this`pickups, this`paused, this`gameOver, pickups, waveManager, ui, random
      ensures Linked()
      ensures Snapshot() == EndChecks(WavePhase(math, random.draws, PickupPhase(old(Snapshot()), dt), dt))
    {
      UpdatePickups(dt);
      waveManager.Update(dt, this);
      if player.isDead {
        TriggerGameOver(false);
      }
      if waveManager.gameTime >= VictoryTime {
        TriggerGameOver(true);
      }
    }

    /** `Game.update(dt)`: the player, the enemies, the projectiles, the pickups, the wave
        manager, then defeat and victory. */
    method Update(dt: real)
      requires Valid()
      modifies this`enemies, this`projectiles, this`pickups, this`paused, this`gameOver,
        player, player.weapons, enemies, projectiles, pickups, waveManager, ui, input`keysPressed, random
      ensures Valid()
      ensures Snapshot() == Tick(math, random.draws, random.shuffle, old(Snapshot()), old(InputManager.Flag(input.keysPressed, "Space")),
        old(Direction(math, input.Up(), input.Down(), input.Left(), input.Right())), dt)
    {
      ghost var w0 := Snapshot();
      ghost var pressed := InputManager.Flag(input.keysPressed, "Space");
      ghost var dir := Direction(math, input.Up(), input.Down(), input.Left(), input.Right());
      Step(dt);
      TickKeepsValid(math, random.draws, random.shuffle, w0, pressed, dir, dt);
    }

    /** The body of `update`, on a game whose lists hold no object twice. */
    method Step(dt: real)
      requires Linked() && math.Valid() && ArmsValid(player.WeaponStates()) && player.xpToNextLevel >= InitialThreshold
      modifies this`enemies, this`projectiles, this`pickups, this`paused, this`gameOver,
        player, player.weapons, enemies, projectiles, pickups, waveManager, ui, input`keysPressed, random
      ensures Linked()
      ensures Snapshot() == Tick(math, random.draws, random.shuffle, old(Snapshot()), old(InputManager.Flag(input.keysPressed, "Space")),
        old(Direction(math, input.Up(), input.Down(), input.Left(), input.Right())), dt)
    {
      ghost var w0 := Snapshot();
      ghost var pressed, dir := InputManager.Flag(input.keysPressed, "Space"), Direction(math, input.Up(), input.Down(), input.Left(), input.Right());
      player.Update(dt, this);
      ghost var w1 := Snapshot();
      assert w1 == PlayerPhase(math, random.draws, random.shuffle, w0, pressed, dir, dt);
      Resolve(dt);
      assert Snapshot() == EndChecks(WavePhase(math, random.draws, PickupPhase(ProjectilePhase(math, EnemyPhase(math, w1, dt), dt), dt), dt));
    }

    /** Everything in `update` after the player. */
    method Resolve(dt: real)
      requires Linked()
      modifies this`enemies, this`projectiles, this`pickups, this`paused, this`gameOver, enemies, projectiles, pickups,
        player`stats, player`damageFlashTimer, player`isDead, player`kills, waveManager, ui, random
      ensures Linked()
      ensures Snapshot() == EndChecks(WavePhase(math, random.draws, PickupPhase(ProjectilePhase(math, EnemyPhase(math, old(Snapshot()), dt), dt), dt), dt))
    {
      Fight(dt);
      assert forall i :: 0 <= i < |pickups| ==> pickups[i] in old(pickups) || fresh(pickups[i]);
      Settle(dt);
    }

    /** One frame of `gameLoop` at time `now` (in milliseconds): the frame time capped at
        0.1 s, then an update unless the game is paused or over. */
    method GameLoop(now: real)
      requires Valid()
      modifies this`enemies, this`projectiles, this`pickups, this`paused, this`gameOver, this`lastTime,
        player, player.weapons, enemies, projectiles, pickups, waveManager, ui, input`keysPressed, random
      ensures Valid() && lastTime == now
      ensures old(!paused && !gameOver) ==>
        Snapshot() == Tick(math, random.draws, random.shuffle, old(Snapshot()), old(InputManager.Flag(input.keysPressed, "Space")),
          old(Direction(math, input.Up(), input.Down(), input.Left(), input.Right())), FrameTime(old(lastTime), now))
      ensures old(paused || gameOver) ==> Snapshot() == old(Snapshot())
    {
      var deltaTime := if (now - lastTime) / 1000.0 < 0.1 then (now - lastTime) / 1000.0 else 0.1;
      Clock(now);
      Frame(deltaTime);
    }

    /** The gate of `gameLoop`: an update only while the game is neither paused nor over. */
    method Frame(dt: real)
      requires Valid()
      modifies this`enemies, this`projectiles, this`pickups, this`paused, this`gameOver,
        player, player.weapons, enemies, projectiles, pickups, waveManager, ui, input`keysPressed, random
      ensures Valid()
      ensures old(!paused && !gameOver) ==>
        Snapshot() == Tick(math, random.draws, random.shuffle, old(Snapshot()), old(InputManager.Flag(input.keysPressed, "Space")),
          old(Direction(math, input.Up(), input.Down(), input.Left(), input.Right())), dt)
      ensures old(paused || gameOver) ==> Snapshot() == old(Snapshot())
    {
      if !paused && !gameOver {
        Update(dt);
      }
    }

    /** `this.lastTime = currentTime`: only the frame clock moves. */
    method Clock(now: real)
      requires Valid()
      modifies this`lastTime
      ensures lastTime == now && Valid() && Snapshot() == old(Snapshot())
    {
      lastTime := now;
    }

    /** `start`: the clock starts at `startTime` and the first frame runs at `now`. */
    method Start(startTime: real, now: real)
      requires Valid()
      modifies this`enemies, this`projectiles, this`pickups, this`paused, this`gameOver, this`lastTime,
        player, player.weapons, enemies, projectiles, pickups, waveManager, ui, input`keysPressed, random
      ensures Valid() && lastTime == now
      ensures old(!paused && !gameOver) ==>
        Snapshot() == Tick(math, random.draws, random.shuffle, old(Snapshot()), old(InputManager.Flag(input.keysPressed, "Space")),
          old(Direction(math, input.Up(), input.Down(), input.Left(), input.Right())), FrameTime(startTime, now))
      ensures old(paused || gameOver) ==> Snapshot() == old(Snapshot())
    {
      Clock(startTime);
      GameLoop(now);
    }
  }
}
