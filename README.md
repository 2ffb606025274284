# Zombie Survivor: the simulation tick in Dafny

This project models the per-tick simulation of Zombie Survivor, a top-down survival
game written in TypeScript. The player walks, dashes and levels up. Weapons fire at the
nearest zombie, projectiles pierce through enemies, dead enemies drop XP, and a wave
director spawns zombies up to a cap, plus a boss at 3:00. One `Game.update` runs all of
this in a fixed order and removes the dead entities with backward `splice` loops.

The model has two layers.

- **Rules on values.** Each concern has a module of datatypes, functions and lemmas:
  - `Vectors`: vectors, and the in-place `Vector2D` class.
  - `Entities`: circle collision, the screen position, and timers.
  - `Weapons`: stats, the upgrade tables, descriptions, the fire timer and pellet offsets.
  - `Enemies`: the three kinds, homing, the attack cooldown and the Boss's charge timer.
  - `Pickups`: lifetime and effects.
  - `Progression`: armor, heal, XP thresholds and the player's timers and movement.
  - `Waves`: the wave table, weighted choice, the boss latch, catch-up spawning and the cap.
  - `Text`: `M:SS` formatting.
  - `Upgrades`: the level-up offer pool.
  - `Input`: the key handlers and the movement direction.
  - `Animation`: the sprite state machines of the single-file build.
  - `Combat`: the projectile scan, hits, deaths and drops, and the enemy, projectile and pickup passes.
  - `GameTick`: one whole `Game.update` on a value `World`, with the invariant `WorldValid` that every update and every click on an offer keeps.
- **The objects.** The `Simulation` module holds the game's classes: `Game`, `Player`,
  `Weapon`, `Projectile`, `Enemy`, `Pickup`, `WaveManager`, `UIManager` and the random
  source. Their methods change fields and lists in place, as the source does. Each
  method is proved against the value layer: its new state is the value function applied
  to its old state, for example `game.Snapshot() == Tick(..., old(game.Snapshot()), ...)`
  for `Game.update`.

Numbers are `real`; levels, XP, kills, pierce and counts are integers. `Math.sqrt`,
`Math.atan2`, `Math.cos` and `Math.sin` are function values held in a `MathFns` record,
and only the square root is constrained. `Math.random()` is a stream of draws
`draws: nat -> real` with a counter of draws taken. The shuffle of the level-up offers is
a function parameter that permutes its input. The time source of `gameLoop` is a
parameter too.

The model keeps three behaviours of the source that look accidental:
- the projectile hit set records list indices, so after a removal the hit set can skip a
  different enemy (`Combat.HitSetFollowsIndices`);
- `Enemy.takeDamage` has no dead-guard, so a dead enemy that is hit again counts another
  kill and drops another pickup (`Combat.DeadEnemyDiesTwice`);
- the boss is spawned before the cap check, so 61 enemies are possible
  (`Waves.BossBypassesCap`).

A reader might expect the wave director never to exceed its cap of 60 enemies. `update`
spawns the boss before it checks the cap (src/systems/WaveManager.ts:71-79), and the model
follows the code: the state invariant `GameTick.WorldValid` allows at most 60 enemies
before the boss and at most 61 after it.

The sources cited below are the TypeScript under `src/`, the single-file build `game.js`,
and the compiled JavaScript of `Game.ts` and `Runner.ts`: the rows for the game loop follow
`dist/core/Game.js`, and the Runner's stat block follows `dist/entities/enemies/Runner.js`.

## Model

The method rows of `Simulation` are proved equal to value functions, which are their
specifications and have no rows of their own: `GameTick.Tick` (for `Game.update`),
`Progression.Hurt` (`Player.takeDamage`), `Waves.WaveStep` (`WaveManager.update`),
`Waves.FormatTime` (`getFormattedTime`), `Weapons.Upgraded` (`upgrade`), `Upgrades.Pool`
(`generateUpgradeOptions`), `Collections.Keep` (the backward `splice` loops),
`Enemies.EnemyStep` (`Enemy.update`), `Pickups.PickupStep` (`Pickup.update`) and
`Combat.ScanFrom` (the hit loop of `Projectile.update`). Their properties are stated by
the lemma rows `GameTick.TickKeepsValid`, `Progression.HurtRules`, `Waves.WaveStepRules`,
`Waves.FormatTimeShape`, `Weapons.UpgradedStaysAtLevel`, `Upgrades.PoolUpgradeOffers`,
`Collections.KeepMember`, `Enemies.EnemyStepRules`, `Pickups.PickupStepRules` and
`Combat.ScanTakesBudget`.

| member | source | states |
|---|---|---|
| Vectors.AddThenSubtract | src/core/Vector2D.ts:17-30 | adding then subtracting the same vector, or the reverse, gives back the original coordinates |
| Vectors.DistanceSquaredLaws | src/core/Vector2D.ts:79-83 | the squared distance is never negative, is symmetric, and is zero from a point to itself |
| Vectors.LengthSquaredIsDistanceFromZero | src/core/Vector2D.ts:51-53 | the squared length is the squared distance from the origin |
| Vectors.LengthSquaredSign | src/core/Vector2D.ts:51-53 | the squared length is never negative and is positive exactly for a non-zero vector |
| Vectors.NormalizeGuard | src/core/Vector2D.ts:58-65 | the `len > 0` guard of `normalize` fails exactly on the zero vector, which is then left as it is |
| Vectors.NormalizedIsUnit | src/core/Vector2D.ts:58-65 | a non-zero vector normalizes to one of squared length 1 |
| Vectors.Vector2D.constructor | src/core/Vector2D.ts:5 | the new vector has the given coordinates |
| Vectors.Vector2D.Clone | src/core/Vector2D.ts:10-12 | a fresh object with the same coordinates |
| Vectors.Vector2D.Add | src/core/Vector2D.ts:17-21 | the receiver becomes the sum of its old value and the argument's old value (doubled when they alias) and is returned |
| Vectors.Vector2D.Subtract | src/core/Vector2D.ts:26-30 | the receiver becomes the difference of the old values and is returned |
| Vectors.Vector2D.Multiply | src/core/Vector2D.ts:35-39 | the receiver is scaled in place and returned |
| Vectors.Vector2D.Set | src/core/Vector2D.ts:95-99 | the receiver takes the given coordinates and is returned |
| Vectors.Vector2D.Normalize | src/core/Vector2D.ts:58-65 | the receiver becomes its normalized old value and is returned |
| Vectors.Vector2D.Length | src/core/Vector2D.ts:44-46 | the square root of the squared length, positive exactly for a non-zero vector |
| Vectors.Vector2D.LengthSquared | src/core/Vector2D.ts:51-53 | the squared length of the current value, never negative |
| Vectors.Vector2D.DistanceSquaredTo | src/core/Vector2D.ts:79-83 | the squared distance, never negative and the same in both directions |
| Vectors.Vector2D.DistanceTo | src/core/Vector2D.ts:70-74 | the square root of the squared distance, the same in both directions |
| Vectors.Vector2D.Angle | src/core/Vector2D.ts:88-90 | `atan2(y, x)` of the current coordinates |
| Vectors.Vector2D.MakeFromAngle | src/core/Vector2D.ts:104-106 | a fresh vector of the given length pointing along the angle |
| Vectors.Vector2D.Zero | src/core/Vector2D.ts:111-113 | a fresh zero vector |
| Vectors.AddThenSubtractRestores | src/core/Vector2D.ts:17-30 | `add(v)` then `subtract(v)` on two distinct objects restores the receiver and leaves `v` alone |
| Vectors.CloneIsIndependent | src/core/Vector2D.ts:10-12 | scaling a clone leaves the original unchanged |
| Vectors.LengthSquaredFromZero | src/core/Vector2D.ts:51-113 | `lengthSquared()` equals the squared distance from `Vector2D.zero()` |
| Entities.CollidesSymmetric | src/core/Entity.ts:39-43 | `a.collidesWith(b)` holds exactly when `b.collidesWith(a)` does |
| Entities.TouchingDoesNotCollide | src/core/Entity.ts:39-43 | circles exactly `r + s` apart do not collide, because the comparison is strict |
| Entities.SameCentreCollides | src/core/Entity.ts:39-43 | circles at the same centre collide once a radius is positive |
| Entities.ScreenPosition | src/core/Entity.ts:48-53 | adding the camera back to the screen position gives the world position |
| Entities.Countdown | src/entities/Player.ts:50-52 | an `if (t > 0) t -= dt` timer never grows for `dt >= 0` and stays put once it is not positive |
| Entities.TotalNonNegative | src/entities/Player.ts:50-52 | the frame times of a run of non-negative frames add up to a non-negative total |
| Entities.CountdownExpires | src/entities/Player.ts:50-52 | a positive timer has expired once the frame times add up to its value; a spent timer never changes |
| Input.OnKeyDown | src/core/InputManager.ts:13-17 | after keydown the key is held, and it is pressed exactly when it was already pressed or was not held |
| Input.OnKeyUp | src/core/InputManager.ts:25-28 | keyup clears both the held and the pressed flag |
| Input.OnRead | src/core/InputManager.ts:41-47 | a read answers the pressed flag, clears it and keeps the held flag |
| Input.HandlersKeepReachable | src/core/InputManager.ts:13-47 | starting from an untouched key, every handler keeps the rule that a key is only pressed while held |
| Input.OnePressPerEdge | src/core/InputManager.ts:13-47 | between two keyups, however many auto-repeat keydowns and reads happen, at most one read answers true |
| Input.PressThenReadTwice | src/core/InputManager.ts:13-47 | a keydown on a released key makes the next read answer true and later reads false, even after a repeated keydown |
| Input.Axis | src/core/InputManager.ts:55-58 | an axis reads -1, 0 or 1; it is 0 exactly when both or neither key is held, and positive exactly when only the positive key is |
| Input.DirectionOnAxes | src/core/InputManager.ts:52-68 | the direction is zero exactly when each axis has both or neither key held; on a single axis it is that axis unscaled |
| Input.DiagonalIsUnit | src/core/InputManager.ts:60-65 | a diagonal is divided down to unit length and keeps the signs of its keys |
| Input.InputManager.constructor | src/core/InputManager.ts:5-10 | both key maps start empty |
| Input.InputManager.KeyDown | src/core/InputManager.ts:13-17 | `keys[code]` becomes true, `keysPressed[code]` becomes true only if the key was not held; no other key changes |
| Input.InputManager.KeyUp | src/core/InputManager.ts:25-28 | both maps set `code` to false; no other key changes |
| Input.InputManager.IsKeyPressed | src/core/InputManager.ts:41-47 | answers the pressed flag and clears it only when it was set; no other key changes |
| Input.InputManager.GetMovementDirection | src/core/InputManager.ts:52-68 | the direction of the held WASD or arrow keys, as `Direction` defines it |
| Weapons.UpgradedStaysAtLevel | src/weapons/SMG.ts:70-91 | `upgrade` (of the SMG, and likewise of the Shotgun) raises the level by one and leaves the stats of the new level; the kind and the fire timer are kept |
| Weapons.UpgradeNeverWeakens | src/weapons/Shotgun.ts:71-92 | no case of either upgrade `switch` lowers any stat |
| Weapons.UpgradeKeepsValid | src/weapons/SMG.ts:70-91 | an upgrade keeps every stat at or above the constructor's value |
| Weapons.StatsAtLevelValid | src/weapons/SMG.ts:10-22 | every level a weapon can reach has stats at or above the constructor's |
| Weapons.StatsValidKeepsDivisorsPositive | src/weapons/Shotgun.ts:37-39 | the divisors stay positive: `fireRate` in `1 / fireRate`, and the Shotgun's `projectileCount - 1` (it has at least 5 pellets) |
| Weapons.SmgUpgradeTable | src/weapons/SMG.ts:11-90 | an SMG at level 5 has damage 13, fire rate 8, 3 projectiles, pierce 1, range 400, speed 500, spread 0.15 |
| Weapons.ShotgunUpgradeTable | src/weapons/Shotgun.ts:11-91 | a Shotgun at level 5 has damage 35, fire rate 2.5, 9 pellets, pierce 1, range 350, speed 600, spread 0.6 |
| Weapons.NoUpgradePastFive | src/weapons/Shotgun.ts:74-91 | past level 5 the `switch` has no case, so the stats stay those of level 5 |
| Weapons.DescriptionMaxLevel | src/weapons/SMG.ts:93-102 | the description (of either weapon) is "MAX LEVEL" exactly outside levels 1 to 4, and from level 5 on the next upgrade changes nothing |
| Weapons.FireTimerStep | src/weapons/Weapon.ts:30-38 | after an update the timer is below the interval `1 / fireRate`, or was just reset to 0 |
| Weapons.FireTimerStepFires | src/weapons/Weapon.ts:30-38 | it fires exactly when the accumulated time reaches the interval; firing resets the timer to 0, otherwise the frame time is added |
| Weapons.ShotsBoundedByTime | src/weapons/Weapon.ts:30-38 | over any run of non-negative frames, the shots times the interval plus the timer left never exceed the starting timer plus the elapsed time |
| Weapons.PelletOffsets | src/weapons/Shotgun.ts:37-39 | the pellet offsets run from -0.5 to +0.5 in equal steps of `1 / (n - 1)`, symmetrically |
| Weapons.SpreadOffsetRange | src/weapons/SMG.ts:37 | the SMG's random offset lies in `[-spread / 2, spread / 2)` |
| Weapons.ShotAngleInCone | src/weapons/Shotgun.ts:36-39 | every shot (the SMG's too) leaves within half the spread of the aim; the Shotgun's outer pellets sit exactly on the edges of the cone |
| Weapons.Nearest | src/weapons/SMG.ts:55-68 | the index chosen has the smallest squared distance, and no earlier target is as close (the Shotgun's copy is the same) |
| Weapons.NearestIsUnique | src/weapons/SMG.ts:55-68 | only one index satisfies that, so the choice is deterministic |
| Enemies.KindStatsWellFormed | src/entities/enemies/Walker.ts:7-18 | each kind's stat block (the Walker's, the Runner's and the Boss's) starts at full positive health, with positive damage, speed, cooldown and radius and at least 1 xp |
| Enemies.HomingSpeed | src/entities/Enemy.ts:35-40 | on top of the player the velocity is zero; otherwise it has exactly the enemy's move speed |
| Enemies.DamagedHp | src/entities/Enemy.ts:55 | hp drops by exactly `amount`, with no clamp |
| Enemies.SpecialTimerStep | src/entities/enemies/Boss.ts:25-35 | the Boss charges exactly when its special timer reaches 0 after counting down |
| Enemies.SpecialTimerStaysPositive | src/entities/enemies/Boss.ts:25-35 | after every Boss update the special timer is positive; a charge resets it to 5 s, and a timer at 0 charges at once |
| Enemies.Spawned | src/entities/Enemy.ts:24-27 | a new enemy sits at its spawn point, standing still, alive, at full hp, with every timer at 0 |
| Enemies.Damaged | src/entities/Enemy.ts:54-61 | `takeDamage` lowers hp by the amount, restarts the flash at 0.1 s and marks the enemy dead at hp <= 0; nothing else changes |
| Enemies.EnemyStepRules | src/entities/Enemy.ts:29-48 | one update moves the enemy by its homing velocity, counts its timers down only while positive, and attacks exactly when touching the player with the attack timer run out (restarting it at the cooldown); hp and `isDead` are left alone |
| Enemies.BossCharges | src/entities/enemies/Boss.ts:25-45 | a Boss's special timer stays positive and a charge only sets its speed to 150; other kinds never change their stats |
| Enemies.NewBossChargesAtOnce | src/entities/enemies/Boss.ts:8-35 | a new Boss, whose special timer starts at 0, charges on its first update |
| Enemies.HitOnDeadEnemyDiesAgain | src/entities/Enemy.ts:54-61 | with no `isDead` guard, a hit on an enemy already at or below 0 hp runs `die` again |
| Pickups.LifetimeStep | src/entities/Pickup.ts:25-29 | the lifetime drops by exactly the frame time, and the pickup expires exactly when it reaches 0 |
| Pickups.SurvivesWhileTimeRemains | src/entities/Pickup.ts:14-29 | a pickup survives `n` updates exactly when after each of them less time than its lifetime has passed |
| Pickups.CollectEffect | src/entities/Pickup.ts:34-46 | xp adds its value as points, health heals by its value, and a coin does nothing |
| Pickups.Dropped | src/entities/Enemy.ts:71-79 | the pickup an enemy drops is an xp pickup worth its `xpValue`, where it died, alive, with the full 30 s lifetime |
| Pickups.PickupStepRules | src/entities/Pickup.ts:25-32 | an update only runs the clock: type, value and position never change, and a pickup dies exactly when it was dead or its time ran out |
| Progression.ArmorDamage | src/entities/Player.ts:154 | the damage taken is `amount - armor`, but never below 1 |
| Progression.HpAfterHit | src/entities/Player.ts:150-162 | after a hit hp is never negative, and it either dropped by at least 1 or is exactly 0 |
| Progression.HitOutcome | src/entities/Player.ts:150-162 | a hit kills (hp clamped to 0) exactly when the armored damage reaches hp; otherwise exactly that damage is removed; at 1 hp or less any hit kills |
| Progression.Healed | src/entities/Player.ts:164-166 | healing gives `hp + amount` capped at `maxHp` |
| Progression.HealKeepsBounds | src/entities/Player.ts:164-166 | healing by a non-negative amount never lowers hp and never exceeds `maxHp` |
| Progression.NextThreshold | src/entities/Player.ts:179 | the next threshold is the integer floor of `1.2 * t` |
| Progression.FlooredGrowth | src/entities/Player.ts:179 | `Math.floor(t * 1.2)` on an integer `t` equals that integer floor |
| Progression.NextThresholdGrows | src/entities/Player.ts:179 | from the starting threshold 5 on, each level-up raises the threshold by at least 1 |
| Progression.AddXp | src/entities/Player.ts:168-175 | after `addXP` the points left are below the threshold, the threshold never fell, and there is a level-up exactly when the points reached the threshold |
| Progression.AddXpCrossesThresholds | src/entities/Player.ts:168-183 | `addXP` levels up once per threshold crossed: the points spent are the sum of the thresholds crossed, what is left is below the next one, and the threshold is the one after that many level-ups |
| Progression.NewPlayer | src/entities/Player.ts:22-46 | a new player has the constructor's stats, is at level 1 with 0 xp, a threshold of 5 and 0 kills, and is not dashing |
| Progression.HurtRules | src/entities/Player.ts:150-162 | an invulnerable player ignores the hit; otherwise hp follows `HpAfterHit`, the flash restarts at 0.1 s and the player dies at 0 hp; nothing else changes |
| Progression.HurtAllKeepsBounds | src/entities/Player.ts:150-162 | however many hits land, hp stays between 0 and its old value, a dead player stays dead, and only hp, the flash and `isDead` change |
| Progression.HealBy | src/entities/Player.ts:164-166 | `heal` changes only hp; from a state with `0 <= hp <= maxHp`, a non-negative amount never lowers hp and never lifts it past `maxHp`, and hp reaches `maxHp` exactly when the amount covers the missing hp |
| Progression.Gain | src/entities/Player.ts:168-183 | after `addXP` the threshold never fell, the points left are below it, and the level never fell |
| Progression.Apply | src/entities/Pickup.ts:34-46 | collecting a pickup never lowers the xp threshold |
| Progression.ApplyAll | src/entities/Player.ts:105-117 | collecting a run of pickups never lowers the xp threshold |
| Progression.ApplyAllKeepsValid | src/entities/Player.ts:105-117 | collecting keeps hp within bounds and the threshold valid, never lowers the level, and changes only hp, xp, level and threshold |
| Progression.Timers | src/entities/Player.ts:50-52 | only the dash, invulnerability and flash timers change; none grows for `dt >= 0`, and a timer already at or below 0 stays put |
| Progression.MovedRules | src/entities/Player.ts:54-103 | a dash sets the cooldown, the invulnerability and the direction; a press during the cooldown or without a direction is lost; a dash moves at 400 along its own direction whatever the keys say and ends once the invulnerability is over; walking moves at `moveSpeed` along the input |
| Progression.ApplyAllAppend | src/entities/Player.ts:108-116 | collecting one more pickup applies its effect after all the earlier ones |
| Waves.WaveTable | src/systems/WaveManager.ts:22-65 | the wave table has the source's five configurations |
| Waves.WaveIndex | src/systems/WaveManager.ts:95-104 | the scan of `getCurrentWave` always settles on an index of the table |
| Waves.WaveIndexIsFirstMatch | src/systems/WaveManager.ts:95-104 | `getCurrentWave` returns the first configuration whose window holds the clock, or the last one when none does |
| Waves.CurrentWaveWindows | src/systems/WaveManager.ts:22-104 | the windows 0-120-180-300-420 pick configurations 0 to 3; from 420 s on, or at a negative clock, the last one applies; every spawn rate is positive |
| Waves.PickIndex | src/systems/WaveManager.ts:109-118 | the subtractive scan stops at an index of the type list or runs past its end |
| Waves.PickIndexIsFirstReach | src/systems/WaveManager.ts:109-118 | the scan picks the first type whose running total of weights reaches the draw |
| Waves.CumulativeIsTotal | src/systems/WaveManager.ts:108 | the running total over every type is the `reduce` total |
| Waves.DrawPicksListedType | src/systems/WaveManager.ts:108-118 | a draw below the total weight picks a listed type, so the 'walker' default is then never used |
| Waves.KindOf | src/systems/WaveManager.ts:124-131 | only 'runner' makes a Runner, anything else a Walker, and never a Boss |
| Waves.ScaledDrawBelowTotal | src/systems/WaveManager.ts:109 | `Math.random() * totalWeight` lies in `[0, totalWeight)` for a positive total |
| Waves.SpawnKindOfDraw | src/systems/WaveManager.ts:106-131 | the kind spawned is the one the weighted choice picks for the draw scaled by the total weight |
| Waves.SpawnKindIsListed | src/systems/WaveManager.ts:106-131 | in a wave with a positive total, any draw in `[0, 1)` spawns the kind named by the type it picks |
| Waves.BossStep | src/systems/WaveManager.ts:68-74 | the clock grows by `dt`; the boss spawns exactly when the clock reaches 180 s and the latch is not set; the latch is set from then on |
| Waves.BossSpawnsExactlyOnce | src/systems/WaveManager.ts:68-74 | over any run of non-negative frames the boss spawns once if the clock reaches 180 s and never otherwise |
| Waves.CatchUpBounds | src/systems/WaveManager.ts:86-92 | each spawn of the catch-up loop takes one interval off the timer; the count never passes 60; the loop ends below one interval or at the cap; a non-negative timer stays so |
| Waves.SpawnsAppend | src/systems/WaveManager.ts:106-151 | one more regular spawn uses the next two draws, one for its type and one for its angle |
| Waves.SpawnsAreRegular | src/systems/WaveManager.ts:106-134 | regular spawns are never bosses and start alive at full health with their kind's stats |
| Waves.WaveStepRules | src/systems/WaveManager.ts:67-93 | one update: the clock grows by `dt`; the boss latch follows `BossStep`; at the cap (counting a boss just spawned) the spawn timer stays and nothing spawns; below it the timer gains `dt` and loses one interval per spawn, spawns stop at 60, and it ends below one interval or at the cap |
| Waves.BossBypassesCap | src/systems/WaveManager.ts:67-79 | with 60 enemies alive, the update that crosses 180 s still adds the boss, making 61, and spawns nothing else |
| Waves.MinutesAndSeconds | src/systems/WaveManager.ts:157-161 | for a non-negative clock, `Math.floor(t / 60)` minutes and `Math.floor(t % 60)` seconds (below 60) make up the whole seconds elapsed |
| Waves.FormatTimeShape | src/systems/WaveManager.ts:157-161 | the text is the whole minutes, a colon and the seconds padded to two digits, the two making up the whole seconds elapsed |
| Waves.ClockTextReadsBack | src/systems/WaveManager.ts:157-161 | in the `m:ss` text the seconds field is exactly two digits, and both fields read back as the minutes and the seconds |
| Text.DigitValue | src/systems/WaveManager.ts:160 | a digit character reads back as a value below 10 that prints as the same character |
| Text.NatToString | src/systems/WaveManager.ts:160 | a natural number prints as a non-empty run of digits, a single digit exactly below 10 |
| Text.ParseNatToString | src/systems/WaveManager.ts:160 | the digits printed for `n` read back as `n` |
| Text.IntToString | src/systems/UIManager.ts:118 | an integer prints as its digits, with a leading minus when negative |
| Text.PadStart2 | src/systems/WaveManager.ts:160 | `padStart(2, '0')` keeps the text at the end and fills with zeros in front up to two characters |
| Text.PadTwoDigits | src/systems/WaveManager.ts:160 | a number below 100 pads to exactly two digits that read back as the number |
| Upgrades.Actions | src/systems/UIManager.ts:111-180 | the actions of a list of offers, one per offer, in order |
| Upgrades.WeaponOffersSound | src/systems/UIManager.ts:114-123 | the weapon loop pushes only upgrade offers, each for a weapon below level 5 and named `<name> Level <level + 1>` with its description |
| Upgrades.WeaponOffersComplete | src/systems/UIManager.ts:114-123 | every weapon below level 5 gets its offer |
| Upgrades.WeaponOffersOrdered | src/systems/UIManager.ts:114-123 | the offers follow the weapon order, so no weapon gets two |
| Upgrades.PoolUpgradeOffers | src/systems/UIManager.ts:111-123 | an owned weapon's "Level n+1" offer is in the pool exactly when it is below level 5, and every upgrade offer names an owned weapon |
| Upgrades.PoolNewWeaponOffers | src/systems/UIManager.ts:125-149 | a new SMG or Shotgun is offered exactly when the player owns no weapon of that kind |
| Upgrades.PoolHasStatOffers | src/systems/UIManager.ts:151-175 | the three stat offers are always in the pool, so it never has fewer than three |
| Upgrades.PoolDistinct | src/systems/UIManager.ts:111-175 | no two offers of the pool are equal or do the same thing |
| Upgrades.DrawIsThreeDistinctOffers | src/systems/UIManager.ts:177-179 | any draw of three from the shuffled pool shows three different offers, all from the pool |
| Upgrades.Draw | src/systems/UIManager.ts:177-179 | `slice(0, 3)` keeps at most three offers, a prefix of the shuffled list |
| Upgrades.DrawIsADraw | src/systems/UIManager.ts:177-179 | with a shuffle that only rearranges, the first three of the shuffled pool are a draw of it |
| Upgrades.DrawShowsThreeOffers | src/systems/UIManager.ts:111-179 | every level-up screen shows three different offers, all from the pool |
| Upgrades.ApplyStats | src/systems/UIManager.ts:152-175 | '+10% Move Speed' multiplies the speed by 1.1, '+20 Max HP' adds 20 to both max and current hp, '+1 Armor' adds 1; no offer changes anything else |
| Upgrades.ApplyStatsKeepsHealthBounds | src/systems/UIManager.ts:160-167 | no offer breaks `0 <= hp <= maxHp`, and '+20 Max HP' keeps the missing health as it was |
| Combat.CandidatesIncreasing | src/entities/Projectile.ts:50-54 | the indices the scan may damage from `i` on come in strictly increasing list order |
| Combat.ScanWithin | src/entities/Projectile.ts:50-66 | the collision loop only damages enemies at or after its start index that collide with the projectile and are not yet in its hit set |
| Combat.ResumeTurn | src/entities/Projectile.ts:51-65 | one turn of the loop: an index already hit or out of reach is skipped; a new collision is damaged and ends the loop exactly when the hit set grows past `pierce` |
| Combat.ScanTakesBudget | src/entities/Projectile.ts:50-66 | the loop damages the colliding, not yet hit enemies in list order until the hit set holds `pierce + 1` indices, so it damages exactly the first `pierce + 1 - |hitEnemies|` of them and stops exactly when that budget is used up |
| Combat.FreshIndicesGrowSet | src/entities/Projectile.ts:58 | adding indices that are new to the hit set, each once, grows its `size` by their number |
| Combat.Launched | src/entities/Projectile.ts:18-35 | a new projectile starts at the given point, heads along `fromAngle(angle)`, carries the weapon's speed, damage, range and pierce, and has travelled nothing, hit nothing and is alive |
| Combat.Volley | src/weapons/SMG.ts:37-52 | one `fire` creates exactly `projectileCount` projectiles, shot `i` launched at its own angle from the owner |
| Combat.VolleyRules | src/weapons/Shotgun.ts:37-53 | every shot of a volley starts at the owner with the weapon's speed, damage, range and pierce, and heads along an angle within half the spread of the aim |
| Combat.HitFlags | src/entities/Projectile.ts:56 | one flag per enemy, true exactly when the moved projectile's circle overlaps that enemy's |
| Combat.ProjectileHits | src/entities/Projectile.ts:37-67 | the projectile moves by `direction * speed * dt`; past its range it dies without hitting anything; otherwise it hits the untouched colliding enemies in list order, as many as its pierce allows, and dies exactly when it was dead already or the budget ran out |
| Combat.ExpectedHitsFresh | src/entities/Projectile.ts:50-66 | the hits of one update are increasing indices of colliding enemies new to the hit set; the set grows by their number to at most `pierce + 1`, and the loop stops exactly when it passes `pierce` |
| Combat.ProjectileBudgets | src/entities/Projectile.ts:37-67 | distance travelled never shrinks; past the range nothing is hit; each enemy index is hit at most once over the projectile's life; at most `pierce + 1` hits in all; a live projectile dies exactly when out of range or out of pierce, and a pierce-0 projectile dies at its first hit |
| Combat.HitSetFollowsIndices | src/entities/Projectile.ts:54 | the hit set records list positions, so an enemy that moves into an index hit earlier is skipped even though it touches the projectile |
| Combat.ApplyHitsRules | src/entities/Enemy.ts:54-61 | after a run of `takeDamage` calls each enemy's hp is its old hp less the total damage it received, nothing else in its stats, position or kind changes, it is dead exactly when it was or one of the calls took it to 0 or below, and its flash is restarted to 0.1 s or untouched |
| Combat.HitsCompose | src/entities/Enemy.ts:54-61 | the hits of one projectile followed by those of the next act like one run of hits, on the enemies and on the deaths |
| Combat.DropsAfterHits | src/entities/Enemy.ts:71-79 | damage does not move an enemy or change its XP, so the drops of later deaths are those the undamaged enemy would make |
| Combat.DeadEnemyDiesTwice | src/entities/Enemy.ts:54-61 | `takeDamage` has no dead-guard: a hit on an enemy already at or below 0 hp kills it again and drops another XP pickup |
| Combat.AfterHitsCompose | src/entities/Enemy.ts:54-79 | hits on the battle (enemies, pickups, kills, draws) compose: `h1` then `h2` is `h1 + h2` |
| Combat.OutcomeCompose | src/entities/Enemy.ts:63-79 | taken together, hits compose the same way: one kill, one draw and one drop per death, in order |
| Combat.AfterHitsIsOutcome | src/entities/Enemy.ts:54-79 | the `takeDamage` calls one by one leave the battle as the batch reading: enemies after all hits, one kill, one draw and one XP pickup per death |
| Combat.AfterHitsBodies | src/entities/Enemy.ts:54-61 | hits never move an enemy or change its kind |
| Combat.StepSeesBodiesOnly | src/entities/Projectile.ts:50-66 | a projectile update depends on the enemies only through their positions and kinds, not their hp |
| Combat.ProjectilesStep | dist/core/Game.js:70-76 | the projectile loop keeps one entry per projectile and per enemy, and every death it records names an enemy in the list |
| Combat.PassHits | dist/core/Game.js:70-76 | every `takeDamage` of the pass names an enemy in the list |
| Combat.ProjectilePassIsBatch | dist/core/Game.js:70-76 | the back-to-front loop is the batch reading: each projectile moves and scans as if alone against the enemies at the start of the pass, the enemies end up with all its hits applied, and the deaths are those of that run of hits |
| Combat.PassHitsFront | dist/core/Game.js:70-76 | since the loop runs from the back, the front projectile's hits come last |
| Combat.PassStep | dist/core/Game.js:70-76 | one turn of the loop: projectile `i` finds the enemies as the later projectiles left them, hits what it would hit alone, and its hits, deaths and drops follow theirs |
| Combat.ProjectileTurn | dist/core/Game.js:70-76 | one turn on the battle: projectile `i` ends where the whole pass puts it and its hits extend the battle to the one after projectiles `i` and later |
| Combat.ProjectilePassDamage | dist/core/Game.js:70-76 | with non-negative damage, over a whole pass each enemy's hp falls by exactly the damage it took, its position and kind stay, and it is dead exactly when it was before or it died in this pass |
| Combat.HurtAllAppend | src/entities/Player.ts:150-162 | a run of `takeDamage` calls on the player followed by another is the concatenated run |
| Combat.EnemyPassMovesEach | dist/core/Game.js:62-68 | every enemy updates as if alone, towards where the player stood when the loop started, and the loop itself kills no enemy |
| Combat.EnemyPassHurtsPlayer | dist/core/Game.js:62-68 | the player takes the attacks one `takeDamage` after another from the back of the list, stays within its health bounds and does not move |
| Combat.InReach | src/entities/Player.ts:108-110 | a pickup is collected exactly when its squared distance to the player is strictly below `pickupRange` squared |
| Combat.CollectedHarmless | src/entities/Player.ts:105-117 | collecting applies at most one effect per pickup and, since no pickup is worth a negative amount, none of them lowers hp |
| Combat.CollectedFront | src/entities/Player.ts:106-116 | collecting from the back of the list, the front pickup is the last one collected |
| Combat.CollectTurn | src/entities/Player.ts:107-115 | one turn of `collectPickups`: pickup `i` applies its effect after all the later ones |
| Combat.AttacksFront | dist/core/Game.js:62-68 | with the loop running from the back, the front enemy attacks last |
| Combat.SingleHit | src/entities/Enemy.ts:54-61 | one hit changes only its target, and records a death exactly when it leaves the target at or below 0 hp |
| Combat.HitStep | src/entities/Projectile.ts:56-58 | one more damaged index adds exactly that enemy's hit on the enemies as the earlier hits left them |
| Combat.DropStep | src/entities/Enemy.ts:58-78 | one more hit adds one XP pickup, at the enemy and worth its XP, exactly when it kills that enemy |
| Combat.Fired | src/weapons/SMG.ts:24-53 | `fire` adds nothing when there is no enemy, otherwise `projectileCount` projectiles aimed at the nearest enemy |
| Combat.SalvoStep | src/entities/Player.ts:66-68 | updating one more weapon adds its volley and draws after those of the weapons before it |
| Combat.SalvoNeedsTargets | src/weapons/SMG.ts:25-27 | with no enemy no weapon shoots or draws, whatever its timer says |
| Combat.SalvoStartsAtOwner | src/weapons/Shotgun.ts:24-54 | every projectile the weapons shoot in one update starts at the owner, alive, having travelled and hit nothing, with the damage and pierce of one of the weapons |
| GameTick.ArsenalIgnoresTimers | src/systems/UIManager.ts:111-180 | the offers drawn on a level-up see each weapon's kind and level only, so the fire-timer changes of a weapon update do not change them |
| GameTick.FrameTime | dist/core/Game.js:22-24 | the frame time is the elapsed time in seconds capped at 0.1: never above 0.1, and the uncapped value whenever that is at most 0.1 |
| GameTick.WeaponsAtLevelAreArmed | src/weapons/SMG.ts:70-91 | weapons whose stats are those of their level have valid stats (positive fire rate, at least one projectile) |
| GameTick.ModalAfterCompose | src/systems/UIManager.ts:52-65 | the level-up screen latch: two stretches of level-ups show the screen at most once, with the offers of the first show |
| GameTick.DrawsFit | src/systems/UIManager.ts:111-180 | every weapon upgrade offered names a weapon the player holds |
| GameTick.PlayerPhaseInStages | src/entities/Player.ts:48-72 | `player.update` is timers and movement, then every weapon's update, then `collectPickups`, in that order; the movement leaves the XP threshold alone |
| GameTick.ProjectilePhaseAsHits | dist/core/Game.js:70-76 | the projectile loop leaves the surviving projectiles in order and the enemies, pickups, kills and draws of the battle after all the pass's hits |
| GameTick.WavePhaseInStages | src/systems/WaveManager.ts:67-93 | the wave update is the clock and boss step, then the regular spawns, in that order |
| GameTick.KeptAreAlive | dist/core/Game.js:62-84 | after a removal loop, no projectile, pickup or enemy left in the list is dead |
| GameTick.KeptPickupsAreWorth | dist/core/Game.js:78-84 | removing pickups keeps every remaining pickup's value non-negative |
| GameTick.KeptEnemiesAreWorth | dist/core/Game.js:62-68 | removing enemies keeps every remaining enemy's XP non-negative |
| GameTick.PlayerPhaseKeepsValid | src/entities/Player.ts:48-72 | the player update keeps the game state valid; level, XP threshold and kills do not go down, the weapons change only their fire timers, and the game-over flags stay |
| GameTick.EnemyPhaseKeepsValid | dist/core/Game.js:62-68 | the enemy loop keeps the state valid, removes every dead enemy and never adds one, and the player only loses hp |
| GameTick.ProjectilePhaseKeepsValid | dist/core/Game.js:70-76 | the projectile loop keeps the state valid, removes every dead projectile, keeps the enemy list's length, and adds exactly one kill, one draw and one XP pickup per death |
| GameTick.PickupPhaseKeepsValid | dist/core/Game.js:78-84 | the pickup loop keeps the state valid, leaves no expired pickup and touches nothing else |
| GameTick.WavePhaseKeepsValid | src/systems/WaveManager.ts:67-93 | the wave update keeps the state valid, only appends enemies (at most the boss past the cap of 60), advances the clock by `dt` and touches nothing else |
| GameTick.EndChecksRules | dist/core/Game.js:93-99 | the end-of-update checks: a game already over stays exactly as it is; otherwise it ends exactly when the player is dead or 420 s have passed, a dead player loses even at 420 s, and ending shows the game-over screen and pauses |
| GameTick.TickKeepsValid | dist/core/Game.js:58-100 | a whole update keeps the state valid: no dead projectile or pickup remains, the enemy count grows past 60 by at most the boss and, across every run, stays at most 61 and above 60 only once the boss has come, kills, level and XP threshold never go down, the weapons change only their fire timers, the clock advances by `dt`, and a game that is over or paused stays so |
| GameTick.ChosenKeepsValid | src/systems/UIManager.ts:90-109 | clicking an offer keeps the state valid and closes the screen and unpauses: an upgrade raises that weapon's level by one, a new weapon is appended at level 1, and a stat offer leaves the weapons alone |
| GameTick.NewWorldValid | dist/core/Game.js:11-47 | the state `new Game` builds, with the player at (640, 360) and one SMG, is valid |
| Collections.KeepMember | dist/core/Game.js:62-68 | the removal loops keep an element exactly when some position holding it is not flagged dead, in the original order |
| Collections.SpliceAt | dist/core/Game.js:65-67 | one turn of a backward `splice(i, 1)` loop: element `i` is still at index `i`, and splicing it out when dead, or leaving it, extends the filtered tail by one index |
| Collections.KeepDistinct | dist/core/Game.js:62-68 | removing entities keeps the list free of duplicates |
| Animation.FacingFor | game.js:283-289 | a zero movement keeps the facing; otherwise the horizontal axis wins only when strictly larger, facing right exactly for positive `x` and left for negative, and the vertical axis faces down exactly for positive `y` and up otherwise |
| Animation.DiagonalFacesVertically | game.js:285-288 | an exact diagonal faces up or down, never sideways |
| Animation.Advance | game.js:303-307 | after a step the animation timer is either reset to 0 or has grown by `dt`, and it is below the frame time unless reset |
| Animation.AdvanceFlips | game.js:784-790 | the frame stays 0 or 1 and flips exactly when the timer reaches the frame time; otherwise only the timer grows |
| Animation.TwoFlipsReturn | game.js:786-789 | two flips bring the walk cycle back to its frame |
| Animation.PlayerSprite.constructor | game.js:247-251 | a new player has timer 0, frame 0, faces down and is not moving |
| Animation.PlayerSprite.Face | game.js:279-292 | `isMoving` is set exactly for a non-zero direction, the facing follows `FacingFor`, and the frames are untouched |
| Animation.PlayerSprite.UpdateAnimation | game.js:301-312 | while moving the player's frames advance with a 0.2 s frame time; at rest they reset to timer 0 and frame 0 |
| Animation.PlayerSprite.Update | game.js:254-270 | a dash skips `updateMovement`, so the facing and moving flag stay; otherwise they follow the input direction; the frames advance either way |
| Animation.EnemySprite.constructor | game.js:748-751 | a new enemy has timer 0, frame 0 and faces down |
| Animation.EnemySprite.Update | game.js:754-776 | the facing follows the direction to the player by the dominant axis and the walk cycle advances with a 0.3 s frame time whether or not the enemy moves |
| Simulation.EnemyValuesKeep | dist/core/Game.js:62-68 | splicing enemy objects out of the list and reading their states commute: the states of the survivors are the surviving states |
| Simulation.ProjectileValuesKeep | dist/core/Game.js:70-76 | the same for the projectile list |
| Simulation.PickupValuesKeep | dist/core/Game.js:78-84 | the same for the pickup list |
| Simulation.RandomSource.Random | src/weapons/SMG.ts:37 | each `Math.random()` call returns the next value of the random stream and advances it by one |
| Simulation.Pickup.constructor | src/entities/Pickup.ts:18-23 | a new pickup has its kind and value, stands at the given point with the full 30 s lifetime, is alive, and its bobbing phase takes one draw |
| Simulation.Pickup.Update | src/entities/Pickup.ts:25-32 | the pickup's lifetime runs down by `dt` and it dies at 0 or below, as `PickupStep` states |
| Simulation.Pickup.Collect | src/entities/Pickup.ts:34-46 | XP goes to `addXP`, health to `heal`, a coin does nothing; a level-up shows the level-up screen by its latch |
| Simulation.Projectile.constructor | src/entities/Projectile.ts:18-35 | a new projectile heads along `fromAngle(angle)` with the given speed, damage, range and pierce, and has travelled nothing and hit nothing |
| Simulation.Projectile.Update | src/entities/Projectile.ts:37-67 | the projectile ends in the state `ProjectileStep` gives, and the enemies, pickups, kills and draws are those after its `takeDamage` calls, in order |
| Simulation.Projectile.HitEnemies | src/entities/Projectile.ts:50-66 | the loop adds to the hit set exactly the indices the scan damages, dies exactly when the scan stops, and leaves the battle as those hits in order leave it |
| Simulation.Projectile.HitTurn | src/entities/Projectile.ts:51-65 | one turn of the loop keeps its invariants: the hit set, the death flag and the battle follow the indices damaged so far, and the rest of the scan is what remains of the whole scan |
| Simulation.Projectile.HitAt | src/entities/Projectile.ts:54-64 | at index `i`: an index already hit or out of reach changes nothing; otherwise the enemy takes the damage, `i` joins the hit set, and the loop stops exactly when the set grows past `pierce` |
| Simulation.Enemy.constructor | src/entities/enemies/Walker.ts:7-18 | a new Walker, Runner or Boss has its kind's stat block at the given point |
| Simulation.Enemy.Update | src/entities/Enemy.ts:29-48 | the enemy ends in the state `EnemyStep` gives, and the player takes its damage exactly when it attacks |
| Simulation.Enemy.AttackPlayer | src/entities/Enemy.ts:50-52 | the player takes one `takeDamage` of the enemy's damage |
| Simulation.Enemy.SpecialAttack | src/entities/enemies/Boss.ts:37-45 | the Boss's speed goes to 150 and nothing else in its stats changes |
| Simulation.Enemy.TakeDamage | src/entities/Enemy.ts:54-61 | the battle is the one after a single hit on this enemy: hp drops, the flash restarts, and at or below 0 hp it dies with a kill, a draw and an XP drop |
| Simulation.Enemy.Die | src/entities/Enemy.ts:63-69 | the enemy is dead, the kill count grows by one, and one XP pickup worth its XP is pushed at its position |
| Simulation.Enemy.DropXP | src/entities/Enemy.ts:71-79 | exactly one XP pickup at the enemy, worth its `xpValue`, is appended, taking one draw |
| Simulation.Weapon.constructor | src/weapons/SMG.ts:9-22 | a new weapon is level 1 with its kind's initial stats and a zero fire timer, owned by the given player |
| Simulation.Weapon.Update | src/weapons/Weapon.ts:30-38 | the fire timer steps as `FireTimerStep` states, and the projectiles and draws added are the weapon's contribution: a volley when the timer fires, nothing otherwise |
| Simulation.Weapon.Fire | src/weapons/SMG.ts:24-53 | `fire` appends exactly the volley aimed at the nearest enemy, or nothing without enemies, taking one draw per SMG bullet and none for the Shotgun |
| Simulation.Weapon.Burst | src/weapons/Shotgun.ts:37-53 | the loop of `fire` appends the whole volley, shot by shot in order |
| Simulation.Weapon.Shoot | src/weapons/SMG.ts:36-52 | one turn of the loop appends shot `i` at its angle around the aim; an SMG shot takes one draw |
| Simulation.Weapon.Launch | src/weapons/SMG.ts:40-51 | `push(new Projectile(...))` appends exactly one projectile launched from the owner with the weapon's stats |
| Simulation.Weapon.FindNearestEnemy | src/weapons/SMG.ts:55-68 | with no enemy the result is none; otherwise it is the first enemy at minimal squared distance from the owner |
| Simulation.Weapon.Upgrade | src/weapons/SMG.ts:70-91 | the level goes up by one and the stats gain that level's deltas, as `Upgraded` states |
| Simulation.Player.constructor | src/entities/Player.ts:34-46 | a new player has the starting state at the given point and no weapon |
| Simulation.Player.TakeDamage | src/entities/Player.ts:150-162 | the player ends in the state `Hurt` gives: nothing while invulnerable, else armor-reduced damage, a flash, and death at 0 hp |
| Simulation.Player.Heal | src/entities/Player.ts:164-166 | hp becomes `min(maxHp, hp + amount)` and nothing else changes |
| Simulation.Player.AddXP | src/entities/Player.ts:168-175 | the player ends in the state `Gain` gives, with the leftover XP below the new threshold, and any level-up shows the level-up screen once |
| Simulation.Player.LevelStep | src/entities/Player.ts:170-174 | one turn of the `while` loop keeps its invariant: the XP still to spend and the level-ups still to come add up to the whole `addXP` |
| Simulation.Player.LevelUp | src/entities/Player.ts:177-183 | the level goes up by one, the threshold grows to `floor(threshold * 1.2)`, and the level-up screen is shown by its latch |
| Simulation.Player.AddWeapon | src/entities/Player.ts:185-187 | the weapon is appended to the list |
| Simulation.Player.StartDash | src/entities/Player.ts:84-93 | with a direction held, the dash starts along it with its cooldown and invulnerability; with none, nothing happens |
| Simulation.Player.UpdateDash | src/entities/Player.ts:95-103 | the player moves along the dash direction at dash speed and the dash ends when its time runs out, as `Dashed` states |
| Simulation.Player.UpdateMovement | src/entities/Player.ts:74-82 | the velocity is the input direction times `moveSpeed` and the position moves by it, as `Walked` states |
| Simulation.Player.UpdateWeapons | src/entities/Player.ts:66-68 | every weapon updates in list order: each fire timer steps and the projectiles and draws added are the salvo of all weapons fired from the player |
| Simulation.Player.CollectPickups | src/entities/Player.ts:105-117 | exactly the pickups within reach are spliced out, order kept; the player is the start state with their effects applied from the back of the list; a level-up shows the screen once |
| Simulation.Player.CountDown | src/entities/Player.ts:50-52 | every running timer counts down by `dt`, as `Timers` states |
| Simulation.Player.Move | src/entities/Player.ts:50-64 | timers, then the Space press may start a dash, then dash or walk, as `Moved` states |
| Simulation.Player.Arm | src/entities/Player.ts:66-68 | the weapon stage leaves the game state that `Shot` gives |
| Simulation.Player.Gather | src/entities/Player.ts:71 | the pickup stage leaves the game state that `Gathered` gives |
| Simulation.Player.Update | src/entities/Player.ts:48-72 | `Player.update` leaves the game state that `PlayerPhase` gives |
| Simulation.UIManager.constructor | src/systems/UIManager.ts:15-16 | no screen is shown and no offer is pending |
| Simulation.UIManager.ShowLevelUpModal | src/systems/UIManager.ts:52-65 | latched: while the screen is up nothing changes; otherwise it shows the drawn offers and pauses the game |
| Simulation.UIManager.CloseLevelUpModal | src/systems/UIManager.ts:101-109 | the level-up screen is hidden, the game unpaused, and nothing else changes |
| Simulation.UIManager.GenerateUpgradeOptions | src/systems/UIManager.ts:111-180 | the offers are the first three of the shuffled pool built from the player's weapons |
| Simulation.UIManager.UpgradeOffers | src/systems/UIManager.ts:115-123 | the weapon loop builds one upgrade offer for every weapon below level 5, in list order |
| Simulation.UIManager.SelectOption | src/systems/UIManager.ts:90-93 | clicking an offer applies it and closes the screen, as `Chosen` states, and the game stays valid |
| Simulation.UIManager.ApplyUpgrade | src/systems/UIManager.ts:120 | the `apply` of an upgrade offer upgrades that weapon |
| Simulation.UIManager.ApplyNewWeapon | src/systems/UIManager.ts:133-136 | the `apply` of a new-weapon offer appends a new weapon of that kind |
| Simulation.UIManager.ApplyStat | src/systems/UIManager.ts:155-174 | the `apply` of a stat offer changes the player's stats as `Applied` states |
| Simulation.UIManager.ShowGameOver | src/systems/UIManager.ts:182-186 | latched: a second call changes nothing; the first records the outcome, shows the screen and pauses |
| Simulation.WaveManager.constructor | src/systems/WaveManager.ts:17-20 | the clock and spawn timer start at 0 and no boss has spawned |
| Simulation.WaveManager.GetCurrentWave | src/systems/WaveManager.ts:95-104 | the wave is the one `CurrentWave` picks for the clock |
| Simulation.WaveManager.GetSpawnPosition | src/systems/WaveManager.ts:142-151 | the point 400 units from the player at the angle of one draw |
| Simulation.WaveManager.SpawnBoss | src/systems/WaveManager.ts:136-140 | exactly one Boss is appended at a spawn position, taking one draw |
| Simulation.WaveManager.SpawnEnemy | src/systems/WaveManager.ts:106-134 | exactly one enemy is appended, its kind picked by weight with one draw and its position with another |
| Simulation.WaveManager.Advance | src/systems/WaveManager.ts:67-74 | the clock runs and the boss spawns once at 180 s, as `Clocked` states |
| Simulation.WaveManager.Reinforce | src/systems/WaveManager.ts:76-92 | the cap and the regular spawns, as `Reinforced` states |
| Simulation.WaveManager.CatchUp | src/systems/WaveManager.ts:89-92 | the catch-up loop spawns once per interval on the timer, stopping at 60 enemies, as `CatchUpSpawns` counts, two draws per spawn |
| Simulation.WaveManager.CatchUpStep | src/systems/WaveManager.ts:89-92 | one turn of the catch-up loop keeps its invariant: spawns made plus spawns still due equal the whole count |
| Simulation.WaveManager.SpawnNext | src/systems/WaveManager.ts:90-91 | one more spawn is appended, the next of the wave's spawns |
| Simulation.WaveManager.Update | src/systems/WaveManager.ts:67-93 | `WaveManager.update` leaves the game state that `WavePhase` gives |
| Simulation.SpawnAppendsOne | src/systems/WaveManager.ts:89-92 | one more turn of the loop appends exactly one more spawn |
| Simulation.Game.constructor | dist/core/Game.js:11-47 | the game starts in the valid state with the player at (640, 360) holding one SMG |
| Simulation.Game.UpdateEnemies | dist/core/Game.js:62-68 | the enemy loop leaves the game state that `EnemyPhase` gives |
| Simulation.Game.EnemyLoop | dist/core/Game.js:62-68 | the survivors are the enemies the pass leaves alive, in order, and the player is as the attacks left it |
| Simulation.Game.EnemySweep | dist/core/Game.js:62-68 | the loop from the back ends with the survivors kept in order and the player as the pass leaves it |
| Simulation.Game.EnemyAt | dist/core/Game.js:63-67 | one turn at index `i`: the enemy moves and may attack, and is spliced out if dead |
| Simulation.Game.UpdateProjectiles | dist/core/Game.js:70-76 | the projectile loop leaves the game state that `ProjectilePhase` gives |
| Simulation.Game.ProjectileLoop | dist/core/Game.js:70-76 | the surviving projectiles are the live ones after the pass, in order, and the battle is the one after all the pass's hits |
| Simulation.Game.ProjectileSweep | dist/core/Game.js:70-76 | the loop from the back ends with the survivors kept in order, each projectile in its stepped state, and the battle after the pass's hits |
| Simulation.Game.ProjectileAt | dist/core/Game.js:71-75 | one turn at index `i`: the projectile meets the enemies as the later ones left them and is spliced out if dead |
| Simulation.Game.Fly | dist/core/Game.js:72 | `projectile.update` replaces that projectile's state by its stepped one and adds its hits to the battle |
| Simulation.Game.UpdatePickups | dist/core/Game.js:78-84 | the pickup loop leaves the game state that `PickupPhase` gives |
| Simulation.Game.PickupLoop | dist/core/Game.js:78-84 | the pickups left are the stepped ones that are still alive, in order |
| Simulation.Game.PickupAt | dist/core/Game.js:79-83 | one turn at index `i`: the pickup steps and is spliced out if expired |
| Simulation.Game.TriggerGameOver | dist/core/Game.js:162-167 | latched: the first call ends the game and shows the outcome; later calls change nothing |
| Simulation.Game.Fight | dist/core/Game.js:62-76 | the enemy loop, then the projectile loop |
| Simulation.Game.Settle | dist/core/Game.js:78-99 | the pickup loop, the wave manager, then the defeat and victory checks |
| Simulation.Game.Resolve | dist/core/Game.js:62-99 | everything in `update` after the player, in order |
| Simulation.Game.Step | dist/core/Game.js:58-100 | the body of `update` leaves the game state that `Tick` gives |
| Simulation.Game.Update | dist/core/Game.js:58-100 | `update` leaves the game state that `Tick` gives and keeps the object graph valid |
| Simulation.Game.GameLoop | dist/core/Game.js:21-30 | one frame: the frame clock moves to now; unless paused or over, the game takes one `Tick` of the capped frame time; otherwise nothing changes |
| Simulation.Game.Frame | dist/core/Game.js:25-27 | the update runs exactly when the game is neither paused nor over |
| Simulation.Game.Clock | dist/core/Game.js:24 | only the frame clock moves |
| Simulation.Game.Start | dist/core/Game.js:51-54 | the clock starts, then the first frame runs |

## Left out

- Rendering: every `render` method, `drawBackground`, `drawDebugInfo`, the camera and the Camera class. These only draw.
- The DOM half of `UIManager`: the HUD element writes of `update`, building the level-up modal's elements, the game-over screen's markup and its reload button. Only the flags, the pause latch and the offer pool are modelled. The offer's name and description strings are modelled by `Upgrades`.
- `ImageLoader`, `main` and the event-listener wiring of `InputManager`. These are bootstrapping; the key handlers are modelled as methods.
- `performance.now` and `requestAnimationFrame`: the current time is a parameter of `Game.GameLoop`. The loop schedules itself forever, so one call models one frame.
- The canvas-context check in the `Game` constructor: a host failure, not game logic.
- The `setTimeout` that reverts the Boss's charge speed after one second: an asynchronous callback outside the tick. `Simulation.Enemy.SpecialAttack` only sets the speed to 150.
- Simulation.Enemy.SpecialAttack: does not restore the old speed, because that happens in the asynchronous callback above.
- Pickup `bobOffset` and `bobSpeed`: cosmetic. The one draw the bobbing phase takes at construction is counted, so later draws line up with the source until the first level-up.
- IEEE floating point: all numbers are exact reals, so rounding, `Infinity` and `NaN` are not modelled. `findNearestEnemy`'s `if (!target) return;` can only fire with `NaN` distances, so that path is not modelled.
- `Math.sqrt`, `Math.atan2`, `Math.cos` and `Math.sin` are uninterpreted apart from `sqrt` being a square root, so facts that need trigonometry are not stated, for example that `fromAngle` gives a unit vector.
- `Math.random()` values are not constrained to [0, 1) except where a property needs it, and then it is a precondition. The spread bounds and the weighted choice are examples.
- The shuffle in `generateUpgradeOptions` (`sort(() => Math.random() - 0.5)`) is any permutation given as a parameter. The distribution it produces is not modelled.
- The shuffle's own `Math.random()` calls: the comparator's draws are not taken from the model's draw stream, so after the first level-up the model's draw indices no longer match the source's calls. One permutation function also serves every level-up of a session, so two level-up screens over the same pool show the same three offers, where the source reshuffles each time. No proved property depends on either point: every lemma holds for any permutation and any draw stream.
- Aliasing of `Vector2D` objects between entities: positions are values inside each entity, because the source never shares one position object between two entities. The in-place `Vector2D` API is modelled on its own by `Vectors.Vector2D`.
- The class hierarchy `Entity` / `Enemy` / `Walker` / `Runner` / `Boss` and `Weapon` / `SMG` / `Shotgun` is flattened into one class with a kind field. The per-kind stat blocks and upgrade tables are kept.
- The classes of `game.js` other than the sprite state: they repeat the logic of the `src` files, which is what is modelled. The sprite fields are modelled by `Animation.PlayerSprite` and `Animation.EnemySprite`, on their own, beside `Simulation.Player` and `Simulation.Enemy`.
- `Player.getHpPercent` and `getXpPercent`: they feed only the HUD.
