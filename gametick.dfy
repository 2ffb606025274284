/** One frame of `Game.update` (dist/core/Game.js) on values: the whole game state
    as a `World`, each phase of the update as a function, and `Tick`, their
    composition in the order the update runs them. The objects of
    `Simulation` are proved to follow these functions. */
module GameTick {
  import opened Vectors
  import opened Weapons
  import opened Enemies
  import opened Pickups
  import opened Progression
  import opened Combat
  import opened Collections
  import opened Upgrades
  import opened Waves

  /** The flags of `UIManager`, what the game-over screen says, and the offers on the
      level-up screen. */
  datatype UIState = UIState(levelUpModalVisible: bool, gameOverVisible: bool, victory: bool, options: seq<Offer>)

  datatype WaveState = WaveState(gameTime: real, spawnTimer: real, bossSpawned: bool)

  /** Everything an update reads or writes; `draws` counts the draws taken so far from the
      stream of `Math.random()` values (the shuffle of the level-up offers aside). */
  datatype World = World(
    player: PlayerState,
    weapons: seq<WeaponState>,
    enemies: seq<EnemyState>,
    projectiles: seq<ProjectileState>,
    pickups: seq<PickupState>,
    waves: WaveState,
    ui: UIState,
    paused: bool,
    gameOver: bool,
    draws: nat)

  function Targets(es: seq<EnemyState>): (r: seq<Vec>)
    ensures |r| == |es| && forall k :: 0 <= k < |es| ==> r[k] == es[k].position
  {
    seq(|es|, k requires 0 <= k < |es| => es[k].position)
  }

  /** What the level-up pool needs to know about each weapon. */
  function Arsenal(ws: seq<WeaponState>): (r: seq<Owned>)
    ensures |r| == |ws| && forall k :: 0 <= k < |ws| ==> r[k] == Owned(ws[k].kind, ws[k].level)
  {
    seq(|ws|, k requires 0 <= k < |ws| => Owned(ws[k].kind, ws[k].level))
  }

  /** The timers of a weapon update leave what the level-up pool sees alone. */
  lemma ArsenalIgnoresTimers(ws: seq<WeaponState>, dt: real)
    requires ArmsValid(ws)
    ensures Arsenal(WeaponTimers(ws, dt)) == Arsenal(ws)
  {
  }

  /** `Math.min((now - lastTime) / 1000, 0.1)`: the frame time in seconds, capped at 100 ms. */
  function FrameTime(last: real, now: real): (dt: real)
    ensures dt <= 0.1
    ensures dt == 0.1 || dt == (now - last) / 1000.0
    ensures (now - last) / 1000.0 <= 0.1 ==> dt == (now - last) / 1000.0
  {
    if (now - last) / 1000.0 < 0.1 then (now - last) / 1000.0 else 0.1
  }

  function EnemiesDead(es: seq<EnemyState>): (r: seq<bool>)
    ensures |r| == |es| && forall k :: 0 <= k < |es| ==> r[k] == es[k].isDead
  {
    seq(|es|, k requires 0 <= k < |es| => es[k].isDead)
  }

  function ProjectilesDead(ps: seq<ProjectileState>): (r: seq<bool>)
    ensures |r| == |ps| && forall k :: 0 <= k < |ps| ==> r[k] == ps[k].isDead
  {
    seq(|ps|, k requires 0 <= k < |ps| => ps[k].isDead)
  }

  function PickupsDead(ps: seq<PickupState>): (r: seq<bool>)
    ensures |r| == |ps| && forall k :: 0 <= k < |ps| ==> r[k] == ps[k].isDead
  {
    seq(|ps|, k requires 0 <= k < |ps| => ps[k].isDead)
  }

  /** Every weapon's stats are those of its level. */
  predicate WeaponsAtLevel(ws: seq<WeaponState>)
  {
    forall k :: 0 <= k < |ws| ==> ws[k].level >= 1 && ws[k].stats == StatsAtLevel(ws[k].kind, ws[k].level)
  }

  lemma WeaponsAtLevelAreArmed(ws: seq<WeaponState>)
    requires WeaponsAtLevel(ws)
    ensures ArmsValid(ws)
  {
    forall k | 0 <= k < |ws| ensures StatsValid(ws[k].kind, ws[k].stats) {
      StatsAtLevelValid(ws[k].kind, ws[k].level);
    }
  }

  /** The `showLevelUpModal` latch: the first level-up while the screen is hidden shows it
      and pauses the game; further level-ups change nothing. */
  predicate ModalAfter(u0: UIState, paused0: bool, leveled: bool, offers: seq<Offer>, u: UIState, paused: bool)
  {
    if leveled && !u0.levelUpModalVisible then
      u == u0.(levelUpModalVisible := true, options := offers) && paused
    else u == u0 && paused == paused0
  }

  /** Two stretches of level-ups with the same draw show the screen at most once. */
  lemma ModalAfterCompose(u0: UIState, p0: bool, l1: bool, u1: UIState, p1: bool, l2: bool, u2: UIState, p2: bool, offers: seq<Offer>)
    requires ModalAfter(u0, p0, l1, offers, u1, p1) && ModalAfter(u1, p1, l2, offers, u2, p2)
    ensures ModalAfter(u0, p0, l1 || l2, offers, u2, p2)
  {
  }

  /** No pickup is worth a negative amount (a negative heal could lower hp). */
  predicate PickupsWorth(qs: seq<PickupState>)
  {
    forall k :: 0 <= k < |qs| ==> qs[k].value >= 0
  }

  predicate EnemiesWorth(es: seq<EnemyState>)
  {
    forall k :: 0 <= k < |es| ==> es[k].stats.xpValue >= 0
  }

  /** Every weapon upgrade offered names one of the `n` weapons. */
  predicate OffersFit(os: seq<Offer>, n: nat)
  {
    forall o <- os :: o.action.UpgradeWeapon? ==> o.action.index < n
  }

  /** Drawn offers fit the weapon list they were drawn for. */
  lemma DrawsFit(shuffle: seq<Offer> -> seq<Offer>, ws: seq<WeaponState>)
    requires Permutes(shuffle)
    ensures OffersFit(Draw(shuffle, Pool(Arsenal(ws))), |ws|)
  {
    DrawShowsThreeOffers(shuffle, Arsenal(ws));
    PoolUpgradeOffers(Arsenal(ws));
  }

  /** At most 60 enemies, and one more only once the boss has come: the boss is the one
      spawn that ignores the cap. */
  predicate EnemiesCapped(w: World)
  {
    |w.enemies| <= MaxEnemies + (if w.waves.bossSpawned then 1 else 0)
  }

  /** What every reachable state satisfies. */
  ghost predicate WorldValid(w: World)
  {
    && PlayerValid(w.player)
    && WeaponsAtLevel(w.weapons) && ArmsValid(w.weapons)
    && PickupsWorth(w.pickups) && EnemiesWorth(w.enemies)
    && OffersFit(w.ui.options, |w.weapons|)
    && w.ui.gameOverVisible == w.gameOver
    && EnemiesCapped(w)
  }

  // ---------------------------------------------------------------------------------------
  // The phases
  // ---------------------------------------------------------------------------------------

  /** `player.update`: timers, dash or walk, every weapon's update in list order (firing at
      the enemies as they stand), then `collectPickups`. If a level-up shows the level-up
      screen, it offers what `shuffle` draws from the pool. */
  function PlayerPhase(m: MathFns, rs: nat -> real, shuffle: seq<Offer> -> seq<Offer>, w: World, pressed: bool, dir: Vec, dt: real): World
    requires ArmsValid(w.weapons) && w.player.xpToNextLevel >= InitialThreshold
  {
    var offers := Draw(shuffle, Pool(Arsenal(w.weapons)));
    var p1 := Moved(Timers(w.player, dt), pressed, dir, dt);
    var v := Salvo(m, w.weapons, dt, p1.position, Targets(w.enemies), rs, w.draws);
    var taken := InReach(w.pickups, p1.position, p1.stats.pickupRange);
    var p2 := ApplyAll(p1, Collected(w.pickups, taken));
    var opens := p2.level > p1.level && !w.ui.levelUpModalVisible;
    w.(player := p2, weapons := WeaponTimers(w.weapons, dt),
       projectiles := w.projectiles + v.projectiles, pickups := Keep(w.pickups, taken),
       draws := w.draws + v.draws,
       ui := if opens then w.ui.(levelUpModalVisible := true, options := offers) else w.ui,
       paused := w.paused || opens)
  }

  /** The player update in its three stages, each on the whole world: the player moves, the
      weapons count down and fire at the enemies as they stand, then the player collects the
      pickups in reach from where the move left it. */
  function Stepped(w: World, pressed: bool, dir: Vec, dt: real): World
  {
    w.(player := Moved(Timers(w.player, dt), pressed, dir, dt))
  }

  function Shot(m: MathFns, rs: nat -> real, w: World, dt: real): World
    requires ArmsValid(w.weapons)
  {
    var v := Salvo(m, w.weapons, dt, w.player.position, Targets(w.enemies), rs, w.draws);
    w.(weapons := WeaponTimers(w.weapons, dt), projectiles := w.projectiles + v.projectiles, draws := w.draws + v.draws)
  }

  function Gathered(shuffle: seq<Offer> -> seq<Offer>, w: World): World
    requires w.player.xpToNextLevel >= InitialThreshold
  {
    var taken := InReach(w.pickups, w.player.position, w.player.stats.pickupRange);
    var p := ApplyAll(w.player, Collected(w.pickups, taken));
    var opens := p.level > w.player.level && !w.ui.levelUpModalVisible;
    w.(player := p, pickups := Keep(w.pickups, taken),
       ui := if opens then w.ui.(levelUpModalVisible := true, options := Draw(shuffle, Pool(Arsenal(w.weapons)))) else w.ui,
       paused := w.paused || opens)
  }

  /** The player update is its three stages in order; the offers drawn on a level-up are the
      same whether they look at the weapons before or after their timers ran. */
  lemma PlayerPhaseInStages(m: MathFns, rs: nat -> real, shuffle: seq<Offer> -> seq<Offer>, w: World, pressed: bool, dir: Vec, dt: real)
    requires ArmsValid(w.weapons) && w.player.xpToNextLevel >= InitialThreshold
    ensures Stepped(w, pressed, dir, dt).player.xpToNextLevel == w.player.xpToNextLevel
    ensures PlayerPhase(m, rs, shuffle, w, pressed, dir, dt) == Gathered(shuffle, Shot(m, rs, Stepped(w, pressed, dir, dt), dt))
  {
    ArsenalIgnoresTimers(w.weapons, dt);
  }

  /** The enemy loop: every enemy updates (last first) and the dead ones are removed. */
  function EnemyPhase(m: MathFns, w: World, dt: real): World
  {
    var r := EnemiesStep(m, w.enemies, w.player, dt);
    w.(enemies := Keep(r.enemies, EnemiesDead(r.enemies)), player := r.player)
  }

  /** The projectile loop: every projectile updates (last first) against the enemies as the
      earlier ones left them, each death counts a kill and drops its XP (the new pickup takes
      one draw for its bobbing phase), and the dead projectiles are removed. Dead enemies
      stay in the list until the next enemy loop. */
  function ProjectilePhase(m: MathFns, w: World, dt: real): World
  {
    var r := ProjectilesStep(m, w.projectiles, w.enemies, dt);
    w.(projectiles := Keep(r.projectiles, ProjectilesDead(r.projectiles)), enemies := r.enemies,
       pickups := w.pickups + Drops(w.enemies, r.deaths),
       player := w.player.(kills := w.player.kills + |r.deaths|),
       draws := w.draws + |r.deaths|)
  }

  /** The projectile loop seen as its hits, one after the other, on the battle of the world:
      the enemies, pickups, kills and draws it leaves are those of the battle after the
      hits of the whole pass. */
  lemma ProjectilePhaseAsHits(m: MathFns, w: World, dt: real)
    ensures var r := ProjectilesStep(m, w.projectiles, w.enemies, dt);
      var b := AfterHits(Battle(w.enemies, w.pickups, w.player.kills, w.draws), PassHits(m, w.projectiles, w.enemies, dt));
      ProjectilePhase(m, w, dt)
        == w.(projectiles := Keep(r.projectiles, ProjectilesDead(r.projectiles)), enemies := b.enemies, pickups := b.pickups,
              player := w.player.(kills := b.kills), draws := b.draws)
  {
    ProjectilePassIsBatch(m, w.projectiles, w.enemies, dt);
    AfterHitsIsOutcome(Battle(w.enemies, w.pickups, w.player.kills, w.draws), PassHits(m, w.projectiles, w.enemies, dt));
  }

  /** The pickup loop: lifetimes run down and the expired pickups are removed. */
  function PickupPhase(w: World, dt: real): World
  {
    var ps := PickupsStep(w.pickups, dt);
    w.(pickups := Keep(ps, PickupsDead(ps)))
  }

  /** `waveManager.update`: the clock, the boss (one draw for its angle), and the regular
      spawns (two draws each). */
  function WavePhase(m: MathFns, rs: nat -> real, w: World, dt: real): World
  {
    var t := WaveStep(w.waves.gameTime, w.waves.spawnTimer, w.waves.bossSpawned, |w.enemies|, dt);
    var at := w.player.position;
    var boss := if t.spawnsBoss then [Spawned(Boss, SpawnPosition(m, at, rs(w.draws)))] else [];
    var start := w.draws + |boss|;
    w.(enemies := w.enemies + boss + Spawns(m, CurrentWave(t.gameTime), at, rs, start, t.regular),
       waves := WaveState(t.gameTime, t.spawnTimer, t.bossSpawned),
       draws := start + 2 * t.regular)
  }

  /** The wave update in its two stages: the clock runs and the boss may spawn, then the
      regular spawns catch up with the timer unless the list is already at the cap. */
  function Clocked(m: MathFns, rs: nat -> real, w: World, dt: real): World
  {
    var b := BossStep(w.waves.gameTime, w.waves.bossSpawned, dt);
    var boss := if b.spawnsBoss then [Spawned(Boss, SpawnPosition(m, w.player.position, rs(w.draws)))] else [];
    w.(enemies := w.enemies + boss, waves := w.waves.(gameTime := b.gameTime, bossSpawned := b.bossSpawned),
       draws := w.draws + |boss|)
  }

  function Reinforced(m: MathFns, rs: nat -> real, w: World, dt: real): World
  {
    var c := RegularSpawns(w.waves.gameTime, w.waves.spawnTimer, |w.enemies|, dt);
    w.(enemies := w.enemies + Spawns(m, CurrentWave(w.waves.gameTime), w.player.position, rs, w.draws, c.spawns),
       waves := w.waves.(spawnTimer := c.timer), draws := w.draws + 2 * c.spawns)
  }

  /** The wave update is its two stages in order. */
  lemma WavePhaseInStages(m: MathFns, rs: nat -> real, w: World, dt: real)
    ensures WavePhase(m, rs, w, dt) == Reinforced(m, rs, Clocked(m, rs, w, dt), dt)
  {
  }

  /** `triggerGameOver(victory)` with `showGameOver` inside it: both are latched. */
  function GameOver(w: World, victory: bool): (r: World)
  {
    if w.gameOver then w
    else if w.ui.gameOverVisible then w.(gameOver := true)
    else w.(gameOver := true, ui := w.ui.(gameOverVisible := true, victory := victory), paused := true)
  }

  /** The checks at the end of `update`: defeat first, then victory at 420 s. */
  function EndChecks(w: World): World
  {
    var w1 := if w.player.isDead then GameOver(w, false) else w;
    if w1.waves.gameTime >= VictoryTime then GameOver(w1, true) else w1
  }

  /** `Game.update(dt)` with the Space press `pressed` (consumed by the read) and the
      movement direction `dir` of the keys held, drawing from `rs`, and shuffling the
      level-up offers with `shuffle`. */
  function Tick(m: MathFns, rs: nat -> real, shuffle: seq<Offer> -> seq<Offer>, w: World, pressed: bool, dir: Vec, dt: real): World
    requires ArmsValid(w.weapons) && w.player.xpToNextLevel >= InitialThreshold
  {
    EndChecks(WavePhase(m, rs, PickupPhase(ProjectilePhase(m, EnemyPhase(m, PlayerPhase(m, rs, shuffle, w, pressed, dir, dt), dt), dt), dt), dt))
  }

  /** An offer's `apply`: upgrade one weapon, add a new one, or change the player's stats. */
  function Applied(w: World, a: Action): World
  {
    match a
    case UpgradeWeapon(i) => if i < |w.weapons| then w.(weapons := w.weapons[i := Upgraded(w.weapons[i])]) else w
    case AddWeapon(k) => w.(weapons := w.weapons + [NewWeapon(k)])
    case _ => w.(player := w.player.(stats := ApplyStats(a, w.player.stats)))
  }

  /** Clicking an offer: its `apply`, then `closeLevelUpModal`, which hides the screen and
      unpauses the game. */
  function Chosen(w: World, a: Action): World
  {
    var w1 := Applied(w, a);
    w1.(ui := w1.ui.(levelUpModalVisible := false), paused := false)
  }

  /** The world `new Game(canvas)` builds: the player at (640, 360) with one SMG, nothing
      else on the field, the clock at 0 and no screen shown. */
  function NewWorld(): World
  {
    World(NewPlayer(Vec(640.0, 360.0)), [NewWeapon(SMG)], [], [], [], WaveState(0.0, 0.0, false),
          UIState(false, false, false, []), false, false, 0)
  }

  // ---------------------------------------------------------------------------------------
  // What a tick keeps
  // ---------------------------------------------------------------------------------------

  /** The survivors of a filter on the dead flags are all alive. */
  lemma KeptAreAlive(ps: seq<ProjectileState>, qs: seq<PickupState>, es: seq<EnemyState>)
    ensures forall p <- Keep(ps, ProjectilesDead(ps)) :: !p.isDead
    ensures forall q <- Keep(qs, PickupsDead(qs)) :: !q.isDead
    ensures forall e <- Keep(es, EnemiesDead(es)) :: !e.isDead
  {
    forall p <- Keep(ps, ProjectilesDead(ps)) ensures !p.isDead { KeepMember(ps, ProjectilesDead(ps), p); }
    forall q <- Keep(qs, PickupsDead(qs)) ensures !q.isDead { KeepMember(qs, PickupsDead(qs), q); }
    forall e <- Keep(es, EnemiesDead(es)) ensures !e.isDead { KeepMember(es, EnemiesDead(es), e); }
  }

  lemma KeptPickupsAreWorth(qs: seq<PickupState>, drop: seq<bool>)
    requires |drop| == |qs| && PickupsWorth(qs)
    ensures PickupsWorth(Keep(qs, drop))
  {
    var r := Keep(qs, drop);
    forall k | 0 <= k < |r| ensures r[k].value >= 0 { KeepMember(qs, drop, r[k]); }
  }

  lemma KeptEnemiesAreWorth(es: seq<EnemyState>, drop: seq<bool>)
    requires |drop| == |es| && EnemiesWorth(es)
    ensures EnemiesWorth(Keep(es, drop))
  {
    var r := Keep(es, drop);
    forall k | 0 <= k < |r| ensures r[k].stats.xpValue >= 0 { KeepMember(es, drop, r[k]); }
  }

  /** The player update keeps the world valid; it only collects, so xp, level and threshold
      can only grow, kills stay, and the weapons change only their fire timers. */
  lemma PlayerPhaseKeepsValid(m: MathFns, rs: nat -> real, shuffle: seq<Offer> -> seq<Offer>, w: World, pressed: bool, dir: Vec, dt: real)
    requires WorldValid(w) && Permutes(shuffle)
    ensures var r := PlayerPhase(m, rs, shuffle, w, pressed, dir, dt);
      && WorldValid(r)
      && r.player.level >= w.player.level && r.player.kills == w.player.kills
      && r.player.xpToNextLevel >= w.player.xpToNextLevel
      && |r.weapons| == |w.weapons|
      && (forall k :: 0 <= k < |w.weapons| ==> r.weapons[k] == w.weapons[k].(fireTimer := r.weapons[k].fireTimer))
      && r.gameOver == w.gameOver && r.ui.gameOverVisible == w.ui.gameOverVisible
  {
    var p0 := Timers(w.player, dt);
    var p1 := Moved(p0, pressed, dir, dt);
    MovedRules(p0, pressed, dir, dir, dt);
    var taken := InReach(w.pickups, p1.position, p1.stats.pickupRange);
    CollectedHarmless(w.pickups, taken);
    ApplyAllKeepsValid(p1, Collected(w.pickups, taken));
    KeptPickupsAreWorth(w.pickups, taken);
    DrawsFit(shuffle, w.weapons);
  }

  /** The enemy loop keeps the world valid and takes out every enemy dead before it; the
      player only loses hp. */
  lemma EnemyPhaseKeepsValid(m: MathFns, w: World, dt: real)
    requires WorldValid(w)
    ensures var r := EnemyPhase(m, w, dt);
      && WorldValid(r)
      && (forall e <- r.enemies :: !e.isDead)
      && |r.enemies| <= |w.enemies|
      && r.player.level == w.player.level && r.player.kills == w.player.kills
      && r.player.xpToNextLevel == w.player.xpToNextLevel
      && r.player.stats.hp <= w.player.stats.hp
      && r.weapons == w.weapons && r.gameOver == w.gameOver && r.ui == w.ui
  {
    var s := EnemiesStep(m, w.enemies, w.player, dt);
    EnemyPassHurtsPlayer(m, w.enemies, w.player, dt);
    HurtAllKeepsBounds(w.player, Attacks(m, w.enemies, w.player.position, dt));
    EnemyPassMovesEach(m, w.enemies, w.player, dt);
    forall k | 0 <= k < |s.enemies| ensures s.enemies[k].stats.xpValue >= 0 {
      EnemyStepRules(m, w.enemies[k], w.player.position, PlayerRadius, dt);
    }
    KeptEnemiesAreWorth(s.enemies, EnemiesDead(s.enemies));
    KeptAreAlive([], [], s.enemies);
  }

  /** The projectile loop keeps the world valid, leaves no dead projectile, counts one
      kill and drops one XP pickup per death, and keeps the enemy list's length. */
  lemma ProjectilePhaseKeepsValid(m: MathFns, w: World, dt: real)
    requires WorldValid(w)
    ensures var r := ProjectilePhase(m, w, dt);
      var d := ProjectilesStep(m, w.projectiles, w.enemies, dt).deaths;
      && WorldValid(r)
      && (forall p <- r.projectiles :: !p.isDead)
      && |r.enemies| == |w.enemies|
      && r.player == w.player.(kills := w.player.kills + |d|)
      && r.pickups == w.pickups + Drops(w.enemies, d) && r.draws == w.draws + |d|
      && r.weapons == w.weapons && r.gameOver == w.gameOver && r.ui == w.ui
  {
    var s := ProjectilesStep(m, w.projectiles, w.enemies, dt);
    ProjectilePassIsBatch(m, w.projectiles, w.enemies, dt);
    forall j | 0 <= j < |s.enemies| ensures s.enemies[j].stats.xpValue >= 0 {
      ApplyHitsRules(w.enemies, PassHits(m, w.projectiles, w.enemies, dt), j);
    }
    KeptAreAlive(s.projectiles, [], []);
  }

  /** The pickup loop keeps the world valid and leaves no expired pickup. */
  lemma PickupPhaseKeepsValid(w: World, dt: real)
    requires WorldValid(w)
    ensures var r := PickupPhase(w, dt);
      && WorldValid(r) && (forall q <- r.pickups :: !q.isDead)
      && r.player == w.player && r.projectiles == w.projectiles && r.enemies == w.enemies
      && r.weapons == w.weapons && r.gameOver == w.gameOver && r.ui == w.ui
  {
    var ps := PickupsStep(w.pickups, dt);
    forall k | 0 <= k < |ps| ensures ps[k].value >= 0 { PickupStepRules(w.pickups[k], dt); }
    KeptPickupsAreWorth(ps, PickupsDead(ps));
    KeptAreAlive([], ps, []);
  }

  /** The wave update keeps the world valid and only appends enemies: the boss once, and
      regular ones only up to 60 in all. */
  lemma WavePhaseKeepsValid(m: MathFns, rs: nat -> real, w: World, dt: real)
    requires WorldValid(w)
    ensures var r := WavePhase(m, rs, w, dt);
      && WorldValid(r)
      && r.enemies[..|w.enemies|] == w.enemies
      && (|r.enemies| <= |w.enemies| + 1 || |r.enemies| <= MaxEnemies)
      && r.waves.gameTime == w.waves.gameTime + dt
      && r.player == w.player && r.projectiles == w.projectiles && r.pickups == w.pickups
      && r.weapons == w.weapons && r.gameOver == w.gameOver && r.ui == w.ui
  {
    var t := WaveStep(w.waves.gameTime, w.waves.spawnTimer, w.waves.bossSpawned, |w.enemies|, dt);
    WaveStepRules(w.waves.gameTime, w.waves.spawnTimer, w.waves.bossSpawned, |w.enemies|, dt);
    var r := WavePhase(m, rs, w, dt);
    var sp := Spawns(m, CurrentWave(t.gameTime), w.player.position, rs, w.draws + (if t.spawnsBoss then 1 else 0), t.regular);
    forall k | 0 <= k < |sp| ensures sp[k].stats.xpValue >= 0 {
      KindStatsWellFormed(sp[k].kind);
    }
    assert r.enemies[..|w.enemies|] == w.enemies;
  }

  /** The checks at the end of an update: once over, the game stays as it is; otherwise it
      ends exactly when the player is dead or 420 s have passed, and a player dead at 420 s
      still loses. Ending pauses the game and changes nothing else. */
  lemma EndChecksRules(w: World)
    requires w.ui.gameOverVisible == w.gameOver
    ensures w.gameOver ==> EndChecks(w) == w
    ensures !w.gameOver ==> var r := EndChecks(w);
      && (r.gameOver <==> w.player.isDead || w.waves.gameTime >= VictoryTime)
      && (r.gameOver ==> r.ui.victory == !w.player.isDead && r.ui.gameOverVisible && r.paused)
      && (!r.gameOver ==> r == w)
      && r == w.(gameOver := r.gameOver, ui := w.ui.(gameOverVisible := r.gameOver, victory := r.ui.victory), paused := r.paused)
  {
  }

  /** A whole update keeps the world valid. Projectiles and pickups that died during it are
      gone; enemies killed by projectiles stay in the list, dead, until the next update's
      enemy loop. The enemy count grows by at most one (the boss) past 60, so it never
      exceeds 61, and exceeds 60 only once the boss has come. Kills, level and
      the XP threshold never go down, the weapons only change their fire timers, and once
      the game is over it stays over. */
  lemma TickKeepsValid(m: MathFns, rs: nat -> real, shuffle: seq<Offer> -> seq<Offer>, w: World, pressed: bool, dir: Vec, dt: real)
    requires WorldValid(w) && Permutes(shuffle)
    ensures var r := Tick(m, rs, shuffle, w, pressed, dir, dt);
      && WorldValid(r)
      && (forall p <- r.projectiles :: !p.isDead)
      && (forall q <- r.pickups :: !q.isDead)
      && (|r.enemies| <= |w.enemies| + 1 || |r.enemies| <= MaxEnemies)
      && |r.enemies| <= MaxEnemies + 1 && (|r.enemies| > MaxEnemies ==> r.waves.bossSpawned)
      && r.player.kills >= w.player.kills && r.player.level >= w.player.level
      && r.player.xpToNextLevel >= w.player.xpToNextLevel
      && |r.weapons| == |w.weapons|
      && (forall k :: 0 <= k < |w.weapons| ==> r.weapons[k] == w.weapons[k].(fireTimer := r.weapons[k].fireTimer))
      && r.waves.gameTime == w.waves.gameTime + dt
      && (w.gameOver ==> r.gameOver && r.ui.victory == w.ui.victory)
      && (w.paused ==> r.paused)
  {
    var w1 := PlayerPhase(m, rs, shuffle, w, pressed, dir, dt);
    PlayerPhaseKeepsValid(m, rs, shuffle, w, pressed, dir, dt);
    var w2 := EnemyPhase(m, w1, dt);
    EnemyPhaseKeepsValid(m, w1, dt);
    var w3 := ProjectilePhase(m, w2, dt);
    ProjectilePhaseKeepsValid(m, w2, dt);
    var w4 := PickupPhase(w3, dt);
    PickupPhaseKeepsValid(w3, dt);
    var w5 := WavePhase(m, rs, w4, dt);
    WavePhaseKeepsValid(m, rs, w4, dt);
    EndChecksRules(w5);
  }

  /** Clicking an offer keeps the world valid and closes the screen: an upgrade raises one
      weapon's level by one with that level's stats, a new weapon joins at level 1, and a
      stat offer changes only the stats. */
  lemma ChosenKeepsValid(w: World, a: Action)
    requires WorldValid(w)
    ensures var r := Chosen(w, a);
      && WorldValid(r)
      && !r.ui.levelUpModalVisible && !r.paused
      && |r.weapons| >= |w.weapons|
      && (!a.UpgradeWeapon? ==> r.weapons[..|w.weapons|] == w.weapons)
      && (a.UpgradeWeapon? && a.index < |w.weapons| ==>
            r.weapons == w.weapons[a.index := Upgraded(w.weapons[a.index])]
            && r.weapons[a.index].level == w.weapons[a.index].level + 1)
      && (a.AddWeapon? ==> r.weapons == w.weapons + [NewWeapon(a.kind)])
  {
    var r := Chosen(w, a);
    match a
    case UpgradeWeapon(i) =>
      if i < |w.weapons| {
        UpgradedStaysAtLevel(w.weapons[i]);
      }
      WeaponsAtLevelAreArmed(r.weapons);
    case AddWeapon(k) =>
      WeaponsAtLevelAreArmed(r.weapons);
    case _ =>
      ApplyStatsKeepsHealthBounds(a, w.player.stats);
  }

  /** The game starts in a valid world. */
  lemma NewWorldValid()
    ensures WorldValid(NewWorld())
  {
    WeaponsAtLevelAreArmed(NewWorld().weapons);
  }
}
