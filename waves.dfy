/** Spawning rules of src/systems/WaveManager.ts: the wave table, the choice
    of the current wave, the weighted enemy-type choice, the boss latch, the
    spawn position, and the `M:SS` clock text. The object that holds the clock
    and timers is `Simulation.WaveManager`. */
module Waves {
  import opened Vectors
  import opened Text
  import Enemies
  import opened Entities

  datatype WeightedType = WeightedType(name: string, weight: real)

  datatype WaveConfig = WaveConfig(startTime: real, endTime: real, spawnRate: real, enemyTypes: seq<WeightedType>)

  const MaxEnemies: nat := 60
  const BossTime: real := 180.0
  const VictoryTime: real := 420.0
  const SpawnDistance: real := 400.0
  /** `Math.PI` as a double. */
  const Pi: real := 3.141592653589793

  function WaveTable(): (ws: seq<WaveConfig>)
    ensures |ws| == 5
  {
    [ WaveConfig(0.0, 120.0, 8.0, [WeightedType("walker", 1.0)]),
      WaveConfig(120.0, 180.0, 12.0, [WeightedType("walker", 0.7), WeightedType("runner", 0.3)]),
      WaveConfig(180.0, 300.0, 10.0, [WeightedType("walker", 0.6), WeightedType("runner", 0.4)]),
      WaveConfig(300.0, 420.0, 15.0, [WeightedType("walker", 0.5), WeightedType("runner", 0.5)]),
      WaveConfig(420.0, 720.0, 20.0, [WeightedType("walker", 0.4), WeightedType("runner", 0.6)]) ]
  }

  predicate InWindow(w: WaveConfig, t: real) { w.startTime <= t < w.endTime }

  /** The index `getCurrentWave` settles on in `ws`: the first window holding `t`,
      and the last entry when none does. */
  function WaveIndex(ws: seq<WaveConfig>, t: real, from: nat): (i: nat)
    requires 0 < |ws| && from <= |ws|
    ensures i < |ws|
    decreases |ws| - from
  {
    if from == |ws| then |ws| - 1
    else if InWindow(ws[from], t) then from
    else WaveIndex(ws, t, from + 1)
  }

  function CurrentWave(t: real): WaveConfig
  {
    WaveTable()[WaveIndex(WaveTable(), t, 0)]
  }

  /** The scan returns the first window containing `t` if there is one, and otherwise
      falls back to the last configuration. */
  lemma {:induction false} WaveIndexIsFirstMatch(ws: seq<WaveConfig>, t: real, from: nat)
    requires 0 < |ws| && from <= |ws|
    ensures var i := WaveIndex(ws, t, from);
      && (forall j :: from <= j < i ==> !InWindow(ws[j], t))
      && (InWindow(ws[i], t) || ((forall j :: from <= j < |ws| ==> !InWindow(ws[j], t)) && i == |ws| - 1))
    decreases |ws| - from
  {
    if from < |ws| && !InWindow(ws[from], t) {
      WaveIndexIsFirstMatch(ws, t, from + 1);
    }
  }

  /** The windows 0-120-180-300-420-720 are contiguous, so the last configuration is the
      fallback only from 720 s on (or before 0). */
  lemma CurrentWaveWindows(t: real)
    ensures 0.0 <= t < 120.0 ==> CurrentWave(t) == WaveTable()[0]
    ensures 120.0 <= t < 180.0 ==> CurrentWave(t) == WaveTable()[1]
    ensures 180.0 <= t < 300.0 ==> CurrentWave(t) == WaveTable()[2]
    ensures 300.0 <= t < 420.0 ==> CurrentWave(t) == WaveTable()[3]
    ensures (t >= 420.0 || t < 0.0) ==> CurrentWave(t) == WaveTable()[4]
    ensures CurrentWave(t).spawnRate > 0.0
  {
  }

  function TotalWeight(ts: seq<WeightedType>): real
    decreases |ts|
  {
    if ts == [] then 0.0 else ts[0].weight + TotalWeight(ts[1..])
  }

  /** The sum of the first `n` weights. */
  function CumulativeWeight(ts: seq<WeightedType>, n: nat): real
    requires n <= |ts|
    decreases n
  {
    if n == 0 then 0.0 else CumulativeWeight(ts, n - 1) + ts[n - 1].weight
  }

  /** `spawnEnemy`'s loop: `random -= weight; if (random <= 0) pick`, as the index picked,
      or `|ts|` when the loop runs out and the default 'walker' stands. */
  function PickIndex(ts: seq<WeightedType>, random: real): (i: nat)
    ensures i <= |ts|
    decreases |ts|
  {
    if ts == [] then 0
    else if random - ts[0].weight <= 0.0 then 0
    else 1 + PickIndex(ts[1..], random - ts[0].weight)
  }

  function PickedName(ts: seq<WeightedType>, random: real): string
  {
    var i := PickIndex(ts, random);
    if i < |ts| then ts[i].name else "walker"
  }

  lemma {:induction false} CumulativeShift(ts: seq<WeightedType>, n: nat)
    requires 1 <= n <= |ts|
    ensures CumulativeWeight(ts, n) == ts[0].weight + CumulativeWeight(ts[1..], n - 1)
    decreases n
  {
    if n > 1 {
      CumulativeShift(ts, n - 1);
    }
  }

  /** The subtractive scan picks the first type whose cumulative weight reaches the draw. */
  lemma {:induction false} PickIndexIsFirstReach(ts: seq<WeightedType>, random: real)
    ensures var i := PickIndex(ts, random);
      && (forall j :: 1 <= j <= i ==> CumulativeWeight(ts, j) < random)
      && (i < |ts| ==> CumulativeWeight(ts, i + 1) >= random)
    decreases |ts|
  {
    if ts != [] && random - ts[0].weight > 0.0 {
      var rest := ts[1..];
      PickIndexIsFirstReach(rest, random - ts[0].weight);
      var i := PickIndex(ts, random);
      forall j | 1 <= j <= i ensures CumulativeWeight(ts, j) < random {
        CumulativeShift(ts, j);
      }
      if i < |ts| {
        CumulativeShift(ts, i + 1);
      }
    } else if ts != [] {
      assert CumulativeWeight(ts, 1) == ts[0].weight;
    }
  }

  lemma {:induction false} CumulativeIsTotal(ts: seq<WeightedType>)
    ensures CumulativeWeight(ts, |ts|) == TotalWeight(ts)
    decreases |ts|
  {
    if ts != [] {
      CumulativeIsTotal(ts[1..]);
      CumulativeShift(ts, |ts|);
    }
  }

  /** A draw below the total weight makes the loop pick one of the listed types, so the
      'walker' default is never used then. */
  lemma DrawPicksListedType(ts: seq<WeightedType>, draw: real)
    requires 0.0 <= draw < TotalWeight(ts)
    ensures PickIndex(ts, draw) < |ts|
  {
    PickIndexIsFirstReach(ts, draw);
    CumulativeIsTotal(ts);
    assert |ts| > 0;
    var total := CumulativeWeight(ts, |ts|);
    assert total > draw;
  }

  /** `switch (enemyType)`: only 'runner' makes a Runner; anything else makes a Walker. */
  function KindOf(name: string): (k: Enemies.EnemyKind)
    ensures k != Enemies.Boss
    ensures k == Enemies.Runner <==> name == "runner"
  {
    if name == "runner" then Enemies.Runner else Enemies.Walker
  }

  /** `Math.random() * totalWeight`. */
  function ScaledDraw(r: real, total: real): real
  {
    r * total
  }

  /** `Math.random() * totalWeight` lies below a positive total. */
  lemma ScaledDrawBelowTotal(r: real, total: real)
    requires 0.0 <= r < 1.0 && total > 0.0
    ensures 0.0 <= ScaledDraw(r, total) < total
  {
    var u := 1.0 - r;
    PositiveProduct(u, total);
    NonNegativeProduct(r, total);
    calc {
      total - r * total;
      == u * total;
      > 0.0;
    }
  }

  /** The kind spawned for a draw `r` of `Math.random()` in wave `w`. */
  function SpawnKind(w: WaveConfig, r: real): Enemies.EnemyKind
  {
    KindOf(PickedName(w.enemyTypes, ScaledDraw(r, TotalWeight(w.enemyTypes))))
  }

  /** The kind spawned is the one the weighted choice picks for the draw scaled by the
      total weight, falling back to a Walker. */
  lemma SpawnKindOfDraw(w: WaveConfig, r: real, total: real)
    requires total == TotalWeight(w.enemyTypes)
    ensures SpawnKind(w, r) == KindOf(PickedName(w.enemyTypes, r * total))
  {
    assert r * total == ScaledDraw(r, total);
  }

  /** In a wave whose weights add up to a positive total, a draw in [0, 1) spawns one of
      the listed types. */
  lemma SpawnKindIsListed(w: WaveConfig, r: real)
    requires 0.0 <= r < 1.0 && TotalWeight(w.enemyTypes) > 0.0
    ensures PickIndex(w.enemyTypes, ScaledDraw(r, TotalWeight(w.enemyTypes))) < |w.enemyTypes|
    ensures SpawnKind(w, r) == KindOf(w.enemyTypes[PickIndex(w.enemyTypes, ScaledDraw(r, TotalWeight(w.enemyTypes)))].name)
  {
    var total := TotalWeight(w.enemyTypes);
    ScaledDrawBelowTotal(r, total);
    DrawPicksListedType(w.enemyTypes, ScaledDraw(r, total));
  }

  /** `getSpawnPosition`: 400 units from the player in the direction `random * 2 * PI`. */
  function SpawnPosition(m: MathFns, player: Vec, r: real): Vec
  {
    var angle := r * Pi * 2.0;
    Vec(player.x + m.cos(angle) * SpawnDistance, player.y + m.sin(angle) * SpawnDistance)
  }

  datatype BossTick = BossTick(gameTime: real, bossSpawned: bool, spawnsBoss: bool)

  /** `gameTime += dt; if (gameTime >= 180 && !bossSpawned) { spawnBoss(); bossSpawned = true }`. */
  function BossStep(gameTime: real, bossSpawned: bool, dt: real): (r: BossTick)
    ensures r.gameTime == gameTime + dt
    ensures r.bossSpawned == (bossSpawned || r.gameTime >= BossTime)
    ensures r.spawnsBoss <==> !bossSpawned && r.gameTime >= BossTime
  {
    var t := gameTime + dt;
    if t >= BossTime && !bossSpawned then BossTick(t, true, true) else BossTick(t, bossSpawned, false)
  }

  /** The number of bosses spawned over a run of updates. */
  function BossesSpawned(gameTime: real, bossSpawned: bool, dts: seq<real>): nat
    decreases |dts|
  {
    if dts == [] then 0
    else
      var r := BossStep(gameTime, bossSpawned, dts[0]);
      (if r.spawnsBoss then 1 else 0) + BossesSpawned(r.gameTime, r.bossSpawned, dts[1..])
  }

  /** With non-negative frame times, the boss spawns once if the clock reaches 180 s during
      the run and the latch was not set, and never otherwise. The latch is never cleared. */
  lemma {:induction false} BossSpawnsExactlyOnce(gameTime: real, bossSpawned: bool, dts: seq<real>)
    requires AllNonNegative(dts)
    requires bossSpawned || gameTime < BossTime
    ensures BossesSpawned(gameTime, bossSpawned, dts) ==
      if !bossSpawned && gameTime + Total(dts) >= BossTime then 1 else 0
    decreases |dts|
  {
    if dts != [] {
      var r := BossStep(gameTime, bossSpawned, dts[0]);
      AllNonNegativeTail(dts);
      BossSpawnsExactlyOnce(r.gameTime, r.bossSpawned, dts[1..]);
      TotalNonNegative(dts[1..]);
    }
  }

  datatype CatchUp = CatchUp(timer: real, spawns: nat)

  /** The loop `while (spawnTimer >= interval && enemies.length < 60) { spawnTimer -= interval;
      spawnEnemy() }` from a timer and an enemy count, as the timer left and the number of
      spawns. It ends because of the cap whatever the interval. */
  function CatchUpSpawns(timer: real, interval: real, count: nat): CatchUp
    decreases MaxEnemies - count
  {
    if timer >= interval && count < MaxEnemies then
      var r := CatchUpSpawns(timer - interval, interval, count + 1);
      CatchUp(r.timer, r.spawns + 1)
    else CatchUp(timer, 0)
  }

  /** Each spawn takes exactly one interval off the timer; the loop never takes the count
      past 60 and spawns nothing at the cap; it stops with less than an interval left or
      with the cap reached; and a timer that started non-negative stays so. */
  lemma {:induction false} CatchUpBounds(timer: real, interval: real, count: nat)
    ensures var r := CatchUpSpawns(timer, interval, count);
      && r.timer == timer - (r.spawns as real) * interval
      && (count < MaxEnemies ==> count + r.spawns <= MaxEnemies)
      && (count >= MaxEnemies ==> r.spawns == 0)
      && (r.timer < interval || count + r.spawns >= MaxEnemies)
      && (timer >= 0.0 ==> r.timer >= 0.0)
    decreases MaxEnemies - count
  {
    if timer >= interval && count < MaxEnemies {
      var r := CatchUpSpawns(timer - interval, interval, count + 1);
      CatchUpBounds(timer - interval, interval, count + 1);
      assert ((r.spawns + 1) as real) * interval == (r.spawns as real) * interval + interval;
    }
  }

  /** The regular enemies of one update: spawn `i` takes draw `start + 2i` for its type and
      `start + 2i + 1` for its angle. */
  function Spawns(m: MathFns, w: WaveConfig, player: Vec, draws: nat -> real, start: nat, n: nat): (r: seq<Enemies.EnemyState>)
    ensures |r| == n
    ensures forall i :: 0 <= i < n ==>
      r[i] == Enemies.Spawned(SpawnKind(w, draws(start + 2 * i)), SpawnPosition(m, player, draws(start + 2 * i + 1)))
  {
    seq(n, i requires 0 <= i < n => Enemies.Spawned(SpawnKind(w, draws(start + 2 * i)), SpawnPosition(m, player, draws(start + 2 * i + 1))))
  }

  /** One spawn more: the next two draws make it. */
  lemma SpawnsAppend(m: MathFns, w: WaveConfig, player: Vec, draws: nat -> real, start: nat, n: nat)
    ensures Spawns(m, w, player, draws, start, n + 1) == Spawns(m, w, player, draws, start, n)
      + [Enemies.Spawned(SpawnKind(w, draws(start + 2 * n)), SpawnPosition(m, player, draws(start + 2 * n + 1)))]
  {
  }

  /** Regular spawns are never bosses and start at full health with their kind's stats. */
  lemma SpawnsAreRegular(m: MathFns, w: WaveConfig, player: Vec, draws: nat -> real, start: nat, n: nat, i: nat)
    requires i < n
    ensures var e := Spawns(m, w, player, draws, start, n)[i];
      && e.kind != Enemies.Boss && e.stats == Enemies.KindStats(e.kind) && e.stats.hp == e.stats.maxHp && !e.isDead
  {
  }

  /** The clock, timer and latch of `WaveManager` after one `update` with `count` enemies
      alive, and what it spawns: the boss or not, and how many regular enemies. */
  datatype WaveTick = WaveTick(gameTime: real, spawnTimer: real, bossSpawned: bool, spawnsBoss: bool, regular: nat)

  function WaveStep(gameTime: real, spawnTimer: real, bossSpawned: bool, count: nat, dt: real): WaveTick
  {
    var b := BossStep(gameTime, bossSpawned, dt);
    var c := RegularSpawns(b.gameTime, spawnTimer, count + (if b.spawnsBoss then 1 else 0), dt);
    WaveTick(b.gameTime, c.timer, b.bossSpawned, b.spawnsBoss, c.spawns)
  }

  /** The regular spawns after the clock reached `gameTime`: none, with the timer left
      alone, once `count` enemies reach the cap; otherwise the timer gains `dt` and the
      catch-up loop runs at the current wave's interval. */
  function RegularSpawns(gameTime: real, spawnTimer: real, count: nat, dt: real): CatchUp
  {
    if count >= MaxEnemies then CatchUp(spawnTimer, 0)
    else CatchUpSpawns(spawnTimer + dt, 1.0 / CurrentWave(gameTime).spawnRate, count)
  }

  /** One update: the clock grows by exactly `dt`; the boss latch follows `BossStep`; at the
      cap (counting a boss just spawned) the spawn timer does not move and nothing else
      spawns; below it the timer gains `dt` and loses one interval of the current wave per
      spawn, regular spawns stop at 60 enemies, and the update ends with less than an interval
      on the timer or at the cap. */
  lemma WaveStepRules(gameTime: real, spawnTimer: real, bossSpawned: bool, count: nat, dt: real)
    ensures var r := WaveStep(gameTime, spawnTimer, bossSpawned, count, dt);
      var b := BossStep(gameTime, bossSpawned, dt);
      var n := count + (if r.spawnsBoss then 1 else 0);
      var interval := 1.0 / CurrentWave(r.gameTime).spawnRate;
      && r.gameTime == gameTime + dt
      && r.bossSpawned == b.bossSpawned && r.spawnsBoss == b.spawnsBoss
      && (n >= MaxEnemies ==> r.regular == 0 && r.spawnTimer == spawnTimer)
      && (n < MaxEnemies ==>
            && n + r.regular <= MaxEnemies
            && r.spawnTimer == spawnTimer + dt - (r.regular as real) * interval
            && (r.spawnTimer < interval || n + r.regular == MaxEnemies))
      && interval > 0.0
  {
    var b := BossStep(gameTime, bossSpawned, dt);
    var n := count + (if b.spawnsBoss then 1 else 0);
    CurrentWaveWindows(b.gameTime);
    CatchUpBounds(spawnTimer + dt, 1.0 / CurrentWave(b.gameTime).spawnRate, n);
  }

  /** The boss ignores the cap: with 60 enemies alive, the update that crosses 180 s still
      adds the boss, making 61, and spawns nothing else. */
  lemma BossBypassesCap(gameTime: real, spawnTimer: real, dt: real)
    requires gameTime + dt >= BossTime
    ensures var r := WaveStep(gameTime, spawnTimer, false, MaxEnemies, dt);
      && r.spawnsBoss && MaxEnemies + 1 == 61 && r.regular == 0
  {
  }

  /** JavaScript's `Math.trunc`, used by its `%` on numbers. */
  function Trunc(x: real): int
  {
    if x >= 0.0 then x.Floor else -((-x).Floor)
  }

  /** `getFormattedTime`: `${Math.floor(t / 60)}:${Math.floor(t % 60).toString().padStart(2, '0')}`,
      where `t % 60` is JavaScript's remainder, which keeps the sign of `t`. */
  function FormatTime(t: real): string
  {
    var minutes := (t / 60.0).Floor;
    var seconds := (t - 60.0 * (Trunc(t / 60.0) as real)).Floor;
    IntToString(minutes) + ":" + PadStart2(IntToString(seconds))
  }

  lemma FloorIsUnique(t: real, k: int)
    requires (k as real) <= t < (k as real) + 1.0
    ensures t.Floor == k
  {
  }

  /** Whole minutes and the remaining seconds of a non-negative clock. */
  lemma MinutesAndSeconds(t: real)
    requires t >= 0.0
    ensures var m := (t / 60.0).Floor;
      var sec := (t - 60.0 * (m as real)).Floor;
      && m >= 0 && 0 <= sec < 60 && m * 60 + sec == t.Floor && Trunc(t / 60.0) == m
  {
    var q := t / 60.0;
    var m := q.Floor;
    assert 0 <= m;
    assert (m as real) <= q < (m as real) + 1.0;
    assert 60.0 * (m as real) <= t < 60.0 * (m as real) + 60.0;
    var rem := t - 60.0 * (m as real);
    var sec := rem.Floor;
    assert 0 <= sec < 60;
    assert ((m * 60 + sec) as real) == 60.0 * (m as real) + (sec as real);
    FloorIsUnique(t, m * 60 + sec);
  }

  /** For a non-negative clock the text is the whole minutes, a colon, and the seconds
      left over, the two numbers making up the elapsed whole seconds. */
  lemma FormatTimeShape(t: real)
    requires t >= 0.0
    ensures var m := (t / 60.0).Floor;
      var sec := (t - 60.0 * (m as real)).Floor;
      && m >= 0 && 0 <= sec < 60
      && m * 60 + sec == t.Floor
      && FormatTime(t) == NatToString(m) + ":" + PadStart2(NatToString(sec))
  {
    MinutesAndSeconds(t);
  }

  /** The text `m:ss` of whole minutes `m` and seconds `sec` below 60, as `FormatTimeShape`
      describes it: the seconds field is always exactly two digits, and both fields read
      back as the minutes and the seconds. */
  lemma ClockTextReadsBack(m: nat, sec: nat)
    requires sec < 60
    ensures var text := NatToString(m) + ":" + PadStart2(NatToString(sec));
      var k := |NatToString(m)|;
      && |text| == k + 3 && text[k] == ':'
      && AllDigits(text[..k]) && AllDigits(text[k + 1..])
      && ParseDigits(text[..k]) == m
      && ParseDigits(text[k + 1..]) == sec
  {
    ParseNatToString(m);
    PadTwoDigits(sec);
    FieldsSplit(NatToString(m), PadStart2(NatToString(sec)));
  }

  /** The two fields of `a:b` are found again on either side of the colon. */
  lemma FieldsSplit(a: string, b: string)
    ensures var text := a + ":" + b;
      |text| == |a| + |b| + 1 && text[|a|] == ':' && text[..|a|] == a && text[|a| + 1..] == b
  {
    var text := a + ":" + b;
    assert text[..|a|] == a;
    assert text[|a| + 1..] == b;
  }
}
