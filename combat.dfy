/** What happens between projectiles, enemies and the player in one tick
    (src/entities/Projectile.ts, the damage half of src/entities/Enemy.ts and
    the update passes of dist/core/Game.js), on the values of the objects'
    fields: the projectile's range and pierce budgets and its scan over the
    enemy list, hits and the deaths and XP drops they cause, and the enemy pass
    that attacks the player. `Simulation` proves the objects' methods against
    these functions. */
module Combat {
  import opened Vectors
  import opened Entities
  import opened Weapons
  import opened Enemies
  import opened Pickups
  import opened Progression
  import opened Collections

  const ProjectileRadius: real := 4.0

  // ---------------------------------------------------------------------------------------
  // The scan of `Projectile.update` over `game.enemies`
  // ---------------------------------------------------------------------------------------

  /** The indices from `i` on that the scan would damage with an unlimited budget: those
      colliding and not yet in the hit set, in increasing order. */
  function Candidates(hit: set<nat>, collides: seq<bool>, i: nat): seq<nat>
    requires i <= |collides|
    decreases |collides| - i
  {
    if i == |collides| then []
    else (if collides[i] && i !in hit then [i] else []) + Candidates(hit, collides, i + 1)
  }

  predicate Increasing(s: seq<nat>)
  {
    forall a, b :: 0 <= a < b < |s| ==> s[a] < s[b]
  }

  /** An index is a candidate exactly when it is at or after `i`, collides and is not in the set. */
  lemma {:induction false} CandidateMember(hit: set<nat>, collides: seq<bool>, i: nat, x: nat)
    requires i <= |collides|
    ensures x in Candidates(hit, collides, i) <==> i <= x < |collides| && collides[x] && x !in hit
    decreases |collides| - i
  {
    if i < |collides| {
      CandidateMember(hit, collides, i + 1, x);
    }
  }

  lemma {:induction false} CandidatesIncreasing(hit: set<nat>, collides: seq<bool>, i: nat)
    requires i <= |collides|
    ensures Increasing(Candidates(hit, collides, i))
    decreases |collides| - i
  {
    if i < |collides| {
      var rest := Candidates(hit, collides, i + 1);
      CandidatesIncreasing(hit, collides, i + 1);
      forall b | 0 <= b < |rest| ensures rest[b] > i {
        CandidateMember(hit, collides, i + 1, rest[b]);
      }
    }
  }

  /** Adding an index below `i` to the hit set does not change the candidates from `i` on. */
  lemma {:induction false} CandidatesIgnoreEarlier(hit: set<nat>, collides: seq<bool>, i: nat, j: nat)
    requires j < i <= |collides|
    ensures Candidates(hit + {j}, collides, i) == Candidates(hit, collides, i)
    decreases |collides| - i
  {
    if i < |collides| {
      CandidatesIgnoreEarlier(hit, collides, i + 1, j);
    }
  }

  datatype Scan = Scan(hits: seq<nat>, stopped: bool)

  /** The `for` loop: skip indices in the hit set, damage colliding ones and add them to the
      set, and stop (killing the projectile) once the set holds more than `pierce` indices. */
  function ScanFrom(hit: set<nat>, collides: seq<bool>, pierce: nat, i: nat): Scan
    requires i <= |collides|
    decreases |collides| - i
  {
    if i == |collides| then Scan([], false)
    else if i in hit || !collides[i] then ScanFrom(hit, collides, pierce, i + 1)
    else if |hit + {i}| > pierce then Scan([i], true)
    else
      var r := ScanFrom(hit + {i}, collides, pierce, i + 1);
      Scan([i] + r.hits, r.stopped)
  }

  /** The scan only names colliding indices from `i` on that were not in the set. */
  lemma {:induction false} ScanWithin(hit: set<nat>, collides: seq<bool>, pierce: nat, i: nat)
    requires i <= |collides|
    ensures forall k :: 0 <= k < |ScanFrom(hit, collides, pierce, i).hits| ==>
      i <= ScanFrom(hit, collides, pierce, i).hits[k] < |collides|
    decreases |collides| - i
  {
    if i < |collides| {
      if i in hit || !collides[i] {
        ScanWithin(hit, collides, pierce, i + 1);
      } else if |hit + {i}| <= pierce {
        ScanWithin(hit + {i}, collides, pierce, i + 1);
      }
    }
  }

  /** The scan seen from inside the loop at index `i`: the indices `done` already damaged,
      followed by what the rest of the loop damages. */
  function Resume(done: seq<nat>, hit: set<nat>, collides: seq<bool>, pierce: nat, i: nat): Scan
    requires i <= |collides|
  {
    var r := ScanFrom(hit, collides, pierce, i);
    Scan(done + r.hits, r.stopped)
  }

  /** Before the first turn, the loop still has the whole scan ahead. */
  lemma ResumeStart(hit: set<nat>, collides: seq<bool>, pierce: nat)
    ensures Resume([], hit, collides, pierce, 0) == ScanFrom(hit, collides, pierce, 0)
  {
    assert [] + ScanFrom(hit, collides, pierce, 0).hits == ScanFrom(hit, collides, pierce, 0).hits;
  }

  /** Past the last index, the loop has damaged `done` and not stopped. */
  lemma ResumeEnd(done: seq<nat>, hit: set<nat>, collides: seq<bool>, pierce: nat)
    ensures Resume(done, hit, collides, pierce, |collides|) == Scan(done, false)
  {
    assert done + [] == done;
  }

  /** One turn of the loop: a skipped index leaves the rest to the next turn; a damaged one
      joins `done` and the set, and either stops the loop or leaves the rest to the next turn. */
  lemma ResumeTurn(done: seq<nat>, hit: set<nat>, collides: seq<bool>, pierce: nat, i: nat)
    requires i < |collides|
    ensures i in hit || !collides[i] ==> Resume(done, hit, collides, pierce, i) == Resume(done, hit, collides, pierce, i + 1)
    ensures i !in hit && collides[i] && |hit + {i}| > pierce ==> Resume(done, hit, collides, pierce, i) == Scan(done + [i], true)
    ensures i !in hit && collides[i] && |hit + {i}| <= pierce ==>
      Resume(done, hit, collides, pierce, i) == Resume(done + [i], hit + {i}, collides, pierce, i + 1)
  {
    if i !in hit && collides[i] && |hit + {i}| <= pierce {
      var r := ScanFrom(hit + {i}, collides, pierce, i + 1);
      assert done + ([i] + r.hits) == (done + [i]) + r.hits;
    }
  }

  /** The number of further hits a projectile whose set holds `used` indices can make. */
  function Budget(pierce: nat, used: nat): nat
    requires used <= pierce
  {
    pierce + 1 - used
  }

  /** What a scan with budget `b` over the candidates `c` comes to: the first `b` of them and
      a stop, or all of them when there are fewer. */
  function Expected(c: seq<nat>, b: nat): Scan
  {
    if |c| >= b then Scan(c[..b], true) else Scan(c, false)
  }

  /** The scan damages the candidates in order until the budget of `pierce + 1` hits in all
      is used up, and it stops exactly when the budget is reached. */
  lemma {:induction false} ScanTakesBudget(hit: set<nat>, collides: seq<bool>, pierce: nat, i: nat)
    requires i <= |collides| && |hit| <= pierce
    ensures ScanFrom(hit, collides, pierce, i) == Expected(Candidates(hit, collides, i), Budget(pierce, |hit|))
    decreases |collides| - i
  {
    if i < |collides| {
      if i in hit || !collides[i] {
        ScanTakesBudget(hit, collides, pierce, i + 1);
      } else {
        CandidateStep(hit, collides, pierce, i);
      }
    }
  }

  /** One candidate step of ScanTakesBudget. */
  lemma {:induction false} CandidateStep(hit: set<nat>, collides: seq<bool>, pierce: nat, i: nat)
    requires i < |collides| && |hit| <= pierce && i !in hit && collides[i]
    ensures ScanFrom(hit, collides, pierce, i) == Expected(Candidates(hit, collides, i), Budget(pierce, |hit|))
    decreases |collides| - i, 0
  {
    var hit' := hit + {i};
    assert |hit'| == |hit| + 1;
    var c := Candidates(hit, collides, i);
    var c' := Candidates(hit, collides, i + 1);
    assert c == [i] + c';
    var b := Budget(pierce, |hit|);
    if |hit'| <= pierce {
      ScanTakesBudget(hit', collides, pierce, i + 1);
      CandidatesIgnoreEarlier(hit, collides, i + 1, i);
      var r := ScanFrom(hit', collides, pierce, i + 1);
      assert r == Expected(c', b - 1);
      if |c| >= b {
        assert c[..b] == [i] + c'[..b - 1];
      }
    } else {
      assert b == 1;
      assert c[..1] == [i];
    }
  }

  /** The set of indices a hit list names. */
  function Elements(s: seq<nat>): set<nat>
    decreases |s|
  {
    if s == [] then {} else {s[0]} + Elements(s[1..])
  }

  lemma {:induction false} ElementsMember(s: seq<nat>, x: nat)
    ensures x in Elements(s) <==> x in s
    decreases |s|
  {
    if s != [] {
      ElementsMember(s[1..], x);
      assert s == [s[0]] + s[1..];
    }
  }

  /** Indices new to the set, each once, grow the set by their number. */
  lemma {:induction false} FreshIndicesGrowSet(hit: set<nat>, s: seq<nat>)
    requires Increasing(s) && forall k :: 0 <= k < |s| ==> s[k] !in hit
    ensures |hit + Elements(s)| == |hit| + |s|
    decreases |s|
  {
    if s != [] {
      var rest := s[1..];
      forall a, b | 0 <= a < b < |rest| ensures rest[a] < rest[b] {
        assert rest[a] == s[a + 1] && rest[b] == s[b + 1];
      }
      var hit' := hit + {s[0]};
      forall k | 0 <= k < |rest| ensures rest[k] !in hit' {
        assert rest[k] == s[k + 1] && s[0] < s[k + 1];
      }
      FreshIndicesGrowSet(hit', rest);
      assert |hit'| == |hit| + 1;
      assert hit + Elements(s) == hit' + Elements(rest);
    }
  }

  // ---------------------------------------------------------------------------------------
  // Projectiles
  // ---------------------------------------------------------------------------------------

  /** The fields of one projectile object. */
  datatype ProjectileState = ProjectileState(
    position: Vec,
    direction: Vec,
    speed: real,
    damage: real,
    maxRange: real,
    pierce: nat,
    distanceTraveled: real,
    hitEnemies: set<nat>,
    isDead: bool)

  /** `new Projectile(x, y, angle, speed, damage, range, pierce)` as the weapons call it. */
  function Launched(m: MathFns, origin: Vec, angle: real, s: WeaponStats): (p: ProjectileState)
    ensures p.position == origin && p.direction == FromAngle(m, angle, 1.0)
    ensures p.speed == s.projectileSpeed && p.damage == s.damage && p.maxRange == s.range && p.pierce == s.pierce
    ensures p.distanceTraveled == 0.0 && p.hitEnemies == {} && !p.isDead
  {
    ProjectileState(origin, FromAngle(m, angle, 1.0), s.projectileSpeed, s.damage, s.range, s.pierce, 0.0, {}, false)
  }

  /** The angle from `from` towards `to`: `Math.atan2(dy, dx)`. */
  function AimAngle(m: MathFns, from: Vec, to: Vec): real
  {
    m.atan2(to.y - from.y, to.x - from.x)
  }

  /** The projectiles of one `fire`, aimed at `aim` from `origin`; the SMG's spread uses the
      draws `draws(start)`, `draws(start + 1)`, ... */
  function Volley(m: MathFns, k: WeaponKind, s: WeaponStats, origin: Vec, aim: real, draws: nat -> real, start: nat)
    : (r: seq<ProjectileState>)
    requires StatsValid(k, s)
    ensures |r| == s.projectileCount
    ensures forall i :: 0 <= i < |r| ==> r[i] == Launched(m, origin, ShotAngle(k, s, aim, i, draws(start + i)), s)
  {
    seq(s.projectileCount, i requires 0 <= i < s.projectileCount => Launched(m, origin, ShotAngle(k, s, aim, i, draws(start + i)), s))
  }

  /** Every projectile of a volley starts at the owner with the weapon's speed, damage, range
      and pierce, and flies within half the spread of the aim. */
  lemma VolleyRules(m: MathFns, k: WeaponKind, s: WeaponStats, origin: Vec, aim: real, draws: nat -> real, start: nat, i: nat)
    requires StatsValid(k, s) && i < s.projectileCount && 0.0 <= draws(start + i) < 1.0
    ensures var p := Volley(m, k, s, origin, aim, draws, start)[i];
      && p.position == origin && p.speed == s.projectileSpeed && p.damage == s.damage
      && p.maxRange == s.range && p.pierce == s.pierce && p.distanceTraveled == 0.0 && p.hitEnemies == {}
      && exists a :: aim - s.spread / 2.0 <= a <= aim + s.spread / 2.0 && p.direction == FromAngle(m, a, 1.0)
  {
    var a := ShotAngle(k, s, aim, i, draws(start + i));
    ShotAngleInCone(k, s, aim, i, draws(start + i));
    assert Volley(m, k, s, origin, aim, draws, start)[i].direction == FromAngle(m, a, 1.0);
  }

  /** Whether the projectile at `at` touches each enemy. */
  function HitFlags(at: Vec, es: seq<EnemyState>): (r: seq<bool>)
    ensures |r| == |es|
    ensures forall j :: 0 <= j < |es| ==> (r[j] <==> Collides(at, ProjectileRadius, es[j].position, KindRadius(es[j].kind)))
  {
    seq(|es|, j requires 0 <= j < |es| => Collides(at, ProjectileRadius, es[j].position, KindRadius(es[j].kind)))
  }

  /** The outcome of one `Projectile.update`: the new fields and the enemy indices damaged, in order. */
  datatype ProjectileTick = ProjectileTick(next: ProjectileState, hits: seq<nat>)

  /** Where a projectile is after moving for `dt`. */
  function Destination(p: ProjectileState, dt: real): Vec
  {
    Sum(p.position, Scale(p.direction, p.speed * dt))
  }

  /** `Projectile.update` once the collision of the moved projectile with each enemy is
      known: move, add the distance, die past the range, otherwise scan. */
  function Fly(m: MathFns, p: ProjectileState, collides: seq<bool>, dt: real): ProjectileTick
  {
    var movement := Scale(p.direction, p.speed * dt);
    var travelled := p.distanceTraveled + Magnitude(m, movement);
    var moved := p.(position := Sum(p.position, movement), distanceTraveled := travelled);
    if travelled > p.maxRange then ProjectileTick(moved.(isDead := true), [])
    else
      var sc := ScanFrom(p.hitEnemies, collides, p.pierce, 0);
      ProjectileTick(moved.(hitEnemies := p.hitEnemies + Elements(sc.hits), isDead := p.isDead || sc.stopped), sc.hits)
  }

  /** `Projectile.update` against the enemy list `es`. */
  function ProjectileStep(m: MathFns, p: ProjectileState, es: seq<EnemyState>, dt: real): ProjectileTick
  {
    Fly(m, p, HitFlags(Destination(p, dt), es), dt)
  }

  /** What ProjectileStep hits: the enemies it touches after moving that it has not hit
      before, in list order, as many as the pierce budget allows. */
  lemma ProjectileHits(m: MathFns, p: ProjectileState, es: seq<EnemyState>, dt: real)
    requires |p.hitEnemies| <= p.pierce
    ensures var t := ProjectileStep(m, p, es, dt);
      var e := Expected(Candidates(p.hitEnemies, HitFlags(t.next.position, es), 0), Budget(p.pierce, |p.hitEnemies|));
      && t.next.position == Sum(p.position, Scale(p.direction, p.speed * dt))
      && (t.next.distanceTraveled > p.maxRange ==> t.hits == [] && t.next.isDead && t.next.hitEnemies == p.hitEnemies)
      && (t.next.distanceTraveled <= p.maxRange ==>
            t.hits == e.hits && (t.next.isDead <==> p.isDead || e.stopped)
            && t.next.hitEnemies == p.hitEnemies + Elements(t.hits))
  {
    var t := ProjectileStep(m, p, es, dt);
    if t.next.distanceTraveled <= p.maxRange {
      ScanTakesBudget(p.hitEnemies, HitFlags(t.next.position, es), p.pierce, 0);
    }
  }

  /** The hits a scan comes to are increasing indices new to the set, the set grows by their
      number, and it then exceeds `pierce` exactly when the scan stopped. */
  lemma ExpectedHitsFresh(hit: set<nat>, flags: seq<bool>, pierce: nat)
    requires |hit| <= pierce
    ensures var e := Expected(Candidates(hit, flags, 0), Budget(pierce, |hit|));
      && Increasing(e.hits)
      && (forall k :: 0 <= k < |e.hits| ==> e.hits[k] < |flags| && flags[e.hits[k]] && e.hits[k] !in hit)
      && |hit + Elements(e.hits)| == |hit| + |e.hits| <= pierce + 1
      && (e.stopped <==> |hit + Elements(e.hits)| > pierce)
  {
    var c := Candidates(hit, flags, 0);
    var b := Budget(pierce, |hit|);
    var e := Expected(c, b);
    CandidatesIncreasing(hit, flags, 0);
    forall k | 0 <= k < |c| ensures c[k] < |flags| && flags[c[k]] && c[k] !in hit {
      CandidateMember(hit, flags, 0, c[k]);
    }
    assert forall k :: 0 <= k < |e.hits| ==> e.hits[k] == c[k];
    FreshIndicesGrowSet(hit, e.hits);
  }

  /** The budgets of a projectile: the distance travelled never shrinks; past its range it
      dies without touching any enemy; an index already in its set is never hit again, each
      index at most once per update, and the set grows by exactly the hits; all told it hits
      at most `pierce + 1` times and dies on the hit that exceeds `pierce`, so with pierce 0 on
      its first. */
  lemma ProjectileBudgets(m: MathFns, p: ProjectileState, es: seq<EnemyState>, dt: real)
    requires m.Valid() && |p.hitEnemies| <= p.pierce
    ensures var t := ProjectileStep(m, p, es, dt);
      && t.next.distanceTraveled >= p.distanceTraveled
      && (t.next.distanceTraveled > p.maxRange ==> t.hits == [] && t.next.isDead)
      && Increasing(t.hits)
      && (forall k :: 0 <= k < |t.hits| ==> t.hits[k] < |es| && t.hits[k] !in p.hitEnemies)
      && t.next.hitEnemies == p.hitEnemies + Elements(t.hits)
      && |t.next.hitEnemies| == |p.hitEnemies| + |t.hits| <= p.pierce + 1
      && (!p.isDead ==> (t.next.isDead <==> t.next.distanceTraveled > p.maxRange || |t.next.hitEnemies| > p.pierce))
      && (p.pierce == 0 && t.hits != [] ==> t.next.isDead)
  {
    var t := ProjectileStep(m, p, es, dt);
    var movement := Scale(p.direction, p.speed * dt);
    var travelled := p.distanceTraveled + Magnitude(m, movement);
    LengthSquaredSign(movement);
    assert travelled >= p.distanceTraveled;
    assert t == Fly(m, p, HitFlags(Destination(p, dt), es), dt);
    assert t.next.distanceTraveled == travelled;
    ProjectileHits(m, p, es, dt);
    if t.next.distanceTraveled > p.maxRange {
      assert Elements(t.hits) == {};
    } else {
      ExpectedHitsFresh(p.hitEnemies, HitFlags(t.next.position, es), p.pierce);
    }
  }

  /** The hit set holds positions in the enemy list, not enemies. Once the enemy at index 0
      has been hit and then removed, the enemy that moves up into index 0 is skipped by this
      projectile even if it touches it. */
  lemma HitSetFollowsIndices(m: MathFns, p: ProjectileState, e: EnemyState, dt: real)
    requires 0 in p.hitEnemies && |p.hitEnemies| <= p.pierce
    requires HitFlags(ProjectileStep(m, p, [e], dt).next.position, [e])[0]
    ensures ProjectileStep(m, p, [e], dt).hits == []
  {
    var t := ProjectileStep(m, p, [e], dt);
    ProjectileHits(m, p, [e], dt);
    var flags := HitFlags(t.next.position, [e]);
    var c := Candidates(p.hitEnemies, flags, 0);
    assert Candidates(p.hitEnemies, flags, 1) == [];
    assert c == [];
  }

  // ---------------------------------------------------------------------------------------
  // Hits on enemies, deaths and drops
  // ---------------------------------------------------------------------------------------

  /** One `takeDamage(amount)` call on the enemy at index `target` of `game.enemies`. */
  datatype Hit = Hit(target: nat, amount: real)

  predicate HitsWithin(hs: seq<Hit>, n: nat)
  {
    forall k :: 0 <= k < |hs| ==> hs[k].target < n
  }

  /** The `takeDamage(damage)` calls of one projectile update. */
  function HitsOf(targets: seq<nat>, amount: real): (hs: seq<Hit>)
    ensures |hs| == |targets| && forall k :: 0 <= k < |hs| ==> hs[k] == Hit(targets[k], amount)
  {
    seq(|targets|, k requires 0 <= k < |targets| => Hit(targets[k], amount))
  }

  function ApplyHits(es: seq<EnemyState>, hs: seq<Hit>): (r: seq<EnemyState>)
    requires HitsWithin(hs, |es|)
    ensures |r| == |es|
    decreases |hs|
  {
    if hs == [] then es
    else ApplyHits(es[hs[0].target := Damaged(es[hs[0].target], hs[0].amount)], hs[1..])
  }

  /** The index of the enemy each `die` call is made for, in order: once for every hit that
      leaves its hp at or below 0. */
  function Deaths(es: seq<EnemyState>, hs: seq<Hit>): (r: seq<nat>)
    requires HitsWithin(hs, |es|)
    ensures |r| <= |hs| && forall k :: 0 <= k < |r| ==> r[k] < |es|
    decreases |hs|
  {
    if hs == [] then []
    else
      var h := hs[0];
      var e := Damaged(es[h.target], h.amount);
      HitsWithinTail(hs, |es|);
      (if DiesAt(e.stats.hp) then [h.target] else []) + Deaths(es[h.target := e], hs[1..])
  }

  /** The XP pickup `dropXP` pushes for each death: at the enemy, worth its `xpValue`. */
  function Drops(es: seq<EnemyState>, deaths: seq<nat>): (r: seq<PickupState>)
    requires forall k :: 0 <= k < |deaths| ==> deaths[k] < |es|
    ensures |r| == |deaths|
    ensures forall k :: 0 <= k < |deaths| ==> r[k] == Dropped(es[deaths[k]].position, es[deaths[k]].stats.xpValue)
  {
    seq(|deaths|, k requires 0 <= k < |deaths| => Dropped(es[deaths[k]].position, es[deaths[k]].stats.xpValue))
  }

  lemma HitsWithinTail(hs: seq<Hit>, n: nat)
    requires hs != [] && HitsWithin(hs, n)
    ensures HitsWithin(hs[1..], n)
  {
    forall k | 0 <= k < |hs[1..]| ensures hs[1..][k].target < n { assert hs[1..][k] == hs[k + 1]; }
  }

  /** The total damage the hits deal to enemy `j`. */
  function DamageTo(hs: seq<Hit>, j: nat): real
    decreases |hs|
  {
    if hs == [] then 0.0 else (if hs[0].target == j then hs[0].amount else 0.0) + DamageTo(hs[1..], j)
  }

  /** Hits only lower hp, by the total damage dealt to each enemy, restart the flash of every
      enemy hit and mark dead the ones a death was recorded for; kinds, positions and the XP
      carried are left alone. */
  lemma {:induction false} ApplyHitsRules(es: seq<EnemyState>, hs: seq<Hit>, j: nat)
    requires HitsWithin(hs, |es|) && j < |es|
    ensures var r := ApplyHits(es, hs)[j];
      && r.stats.hp == es[j].stats.hp - DamageTo(hs, j)
      && r.kind == es[j].kind && r.position == es[j].position && r.stats.xpValue == es[j].stats.xpValue
      && r.stats == es[j].stats.(hp := r.stats.hp)
      && (r.isDead <==> es[j].isDead || j in Deaths(es, hs))
      && (r.damageFlashTimer == es[j].damageFlashTimer || r.damageFlashTimer == 0.1)
    decreases |hs|
  {
    if hs != [] {
      var h := hs[0];
      var e := Damaged(es[h.target], h.amount);
      var es' := es[h.target := e];
      HitsWithinTail(hs, |es|);
      ApplyHitsRules(es', hs[1..], j);
    }
  }

  /** Hits compose: the hits of one projectile and then those of the next are the hits of both. */
  lemma {:induction false} HitsCompose(es: seq<EnemyState>, h1: seq<Hit>, h2: seq<Hit>)
    requires HitsWithin(h1, |es|) && HitsWithin(h2, |es|)
    ensures HitsWithin(h1 + h2, |es|)
    ensures ApplyHits(es, h1 + h2) == ApplyHits(ApplyHits(es, h1), h2)
    ensures Deaths(es, h1 + h2) == Deaths(es, h1) + Deaths(ApplyHits(es, h1), h2)
    decreases |h1|
  {
    if h1 != [] {
      var h := h1[0];
      var es' := es[h.target := Damaged(es[h.target], h.amount)];
      HitsWithinTail(h1, |es|);
      assert (h1 + h2)[1..] == h1[1..] + h2;
      HitsCompose(es', h1[1..], h2);
    } else {
      assert h1 + h2 == h2;
    }
  }

  /** Hits leave what drops are made of alone, so the drops of later deaths can be read off
      the enemies as they were before any hit. */
  lemma DropsAfterHits(es: seq<EnemyState>, hs: seq<Hit>, deaths: seq<nat>)
    requires HitsWithin(hs, |es|) && forall k :: 0 <= k < |deaths| ==> deaths[k] < |es|
    ensures Drops(ApplyHits(es, hs), deaths) == Drops(es, deaths)
  {
    forall k | 0 <= k < |deaths| ensures Drops(ApplyHits(es, hs), deaths)[k] == Drops(es, deaths)[k] {
      ApplyHitsRules(es, hs, deaths[k]);
    }
  }

  /** `takeDamage` has no `isDead` guard: a hit on an enemy already at or below 0 hp, still
      in the list, records a second death, so a second kill and a second XP drop. */
  lemma DeadEnemyDiesTwice(es: seq<EnemyState>, j: nat, amount: real)
    requires j < |es| && DiesAt(es[j].stats.hp) && es[j].isDead && amount >= 0.0
    ensures Deaths(es, [Hit(j, amount)]) == [j]
    ensures |Drops(es, Deaths(es, [Hit(j, amount)]))| == 1
  {
    var hs := [Hit(j, amount)];
    assert hs[1..] == [];
  }

  /** Every index a projectile update damages is in the enemy list. */
  lemma HitsInList(m: MathFns, p: ProjectileState, es: seq<EnemyState>, dt: real)
    ensures forall k :: 0 <= k < |ProjectileStep(m, p, es, dt).hits| ==> ProjectileStep(m, p, es, dt).hits[k] < |es|
  {
    var t := ProjectileStep(m, p, es, dt);
    if t.next.distanceTraveled <= p.maxRange {
      ScanWithin(p.hitEnemies, HitFlags(t.next.position, es), p.pierce, 0);
    }
  }

  /** What a run of `takeDamage` calls changes: the enemies, the pickups (`dropXP` pushes
      one per death), the player's kills and the number of draws taken (the new pickup's
      bobbing phase takes one). */
  datatype Battle = Battle(enemies: seq<EnemyState>, pickups: seq<PickupState>, kills: int, draws: nat)

  /** One `takeDamage(amount)` on the enemy at index `h.target`: its hp drops by the amount
      and its flash restarts; when that leaves it at or below 0 hp it dies, counts a kill and
      drops an XP pickup at the enemy, worth its XP, taking one draw. */
  function AfterHit(b: Battle, h: Hit): (r: Battle)
    requires h.target < |b.enemies|
    ensures |r.enemies| == |b.enemies|
  {
    var e := Damaged(b.enemies[h.target], h.amount);
    if DiesAt(e.stats.hp) then
      Battle(b.enemies[h.target := e], b.pickups + [Dropped(b.enemies[h.target].position, b.enemies[h.target].stats.xpValue)],
        b.kills + 1, b.draws + 1)
    else b.(enemies := b.enemies[h.target := e])
  }

  /** The battle after the hits `hs`, one after the other. */
  function AfterHits(b: Battle, hs: seq<Hit>): (r: Battle)
    requires HitsWithin(hs, |b.enemies|)
    ensures |r.enemies| == |b.enemies|
    decreases |hs|
  {
    if hs == [] then b
    else
      HitsWithinTail(hs, |b.enemies|);
      AfterHits(AfterHit(b, hs[0]), hs[1..])
  }

  /** The same hits taken together: the enemies after all of them, one death per hit that
      leaves its enemy at or below 0 hp, and one drop, kill and draw per death. */
  function HitsOutcome(b: Battle, hs: seq<Hit>): (r: Battle)
    requires HitsWithin(hs, |b.enemies|)
  {
    var d := Deaths(b.enemies, hs);
    Battle(ApplyHits(b.enemies, hs), b.pickups + Drops(b.enemies, d), b.kills + |d|, b.draws + |d|)
  }

  /** No hit, no change. */
  lemma AfterNoHits(b: Battle)
    ensures AfterHits(b, []) == b
  {
  }

  /** A single hit is `AfterHit`. */
  lemma AfterOneHit(b: Battle, j: nat, amount: real)
    requires j < |b.enemies|
    ensures AfterHits(b, [Hit(j, amount)]) == AfterHit(b, Hit(j, amount))
  {
    assert [Hit(j, amount)][1..] == [];
  }

  /** Hits compose: the hits `h1` and then the hits `h2` are the hits `h1 + h2`. */
  lemma {:induction false} AfterHitsCompose(b: Battle, h1: seq<Hit>, h2: seq<Hit>)
    requires HitsWithin(h1, |b.enemies|) && HitsWithin(h2, |b.enemies|)
    ensures HitsWithin(h1 + h2, |b.enemies|)
    ensures AfterHits(AfterHits(b, h1), h2) == AfterHits(b, h1 + h2)
    decreases |h1|
  {
    if h1 == [] {
      assert h1 + h2 == h2;
    } else {
      HitsWithinTail(h1, |b.enemies|);
      assert (h1 + h2)[0] == h1[0] && (h1 + h2)[1..] == h1[1..] + h2;
      AfterHitsCompose(AfterHit(b, h1[0]), h1[1..], h2);
    }
  }

  /** Taken together, hits compose the same way. */
  lemma OutcomeCompose(b: Battle, h1: seq<Hit>, h2: seq<Hit>)
    requires HitsWithin(h1, |b.enemies|) && HitsWithin(h2, |b.enemies|)
    ensures HitsWithin(h1 + h2, |b.enemies|) && |HitsOutcome(b, h1).enemies| == |b.enemies|
    ensures HitsOutcome(HitsOutcome(b, h1), h2) == HitsOutcome(b, h1 + h2)
  {
    var es := b.enemies;
    HitsCompose(es, h1, h2);
    var es1 := ApplyHits(es, h1);
    var d1, d2 := Deaths(es, h1), Deaths(es1, h2);
    DropsAfterHits(es, h1, d2);
    DropsAppend(es, d1, d2);
  }

  /** Hits one after the other come to the hits taken together. */
  lemma {:induction false} AfterHitsIsOutcome(b: Battle, hs: seq<Hit>)
    requires HitsWithin(hs, |b.enemies|)
    ensures AfterHits(b, hs) == HitsOutcome(b, hs)
    decreases |hs|
  {
    if hs == [] {
      assert b.pickups + [] == b.pickups;
    } else {
      var h := hs[0];
      HitsWithinTail(hs, |b.enemies|);
      var b1 := AfterHit(b, h);
      AfterHitsIsOutcome(b1, hs[1..]);
      SingleHit(b.enemies, h.target, h.amount);
      if !DiesAt(Damaged(b.enemies[h.target], h.amount).stats.hp) {
        assert b.pickups + [] == b.pickups;
      }
      assert b1 == HitsOutcome(b, [h]);
      OutcomeCompose(b, [h], hs[1..]);
      assert [h] + hs[1..] == hs;
    }
  }

  /** Hits leave every enemy where it is and what it is. */
  lemma AfterHitsBodies(b: Battle, hs: seq<Hit>, j: nat)
    requires HitsWithin(hs, |b.enemies|) && j < |b.enemies|
    ensures AfterHits(b, hs).enemies[j].position == b.enemies[j].position
    ensures AfterHits(b, hs).enemies[j].kind == b.enemies[j].kind
  {
    AfterHitsIsOutcome(b, hs);
    ApplyHitsRules(b.enemies, hs, j);
  }

  // ---------------------------------------------------------------------------------------
  // The projectile pass of `Game.update`
  // ---------------------------------------------------------------------------------------

  /** The enemies as the collision test sees them: same count, positions and kinds. */
  predicate SameBodies(es: seq<EnemyState>, fs: seq<EnemyState>)
  {
    |es| == |fs| && forall j :: 0 <= j < |es| ==> es[j].position == fs[j].position && es[j].kind == fs[j].kind
  }

  lemma HitsKeepBodies(es: seq<EnemyState>, hs: seq<Hit>)
    requires HitsWithin(hs, |es|)
    ensures SameBodies(es, ApplyHits(es, hs))
  {
    forall j | 0 <= j < |es| ensures es[j].position == ApplyHits(es, hs)[j].position && es[j].kind == ApplyHits(es, hs)[j].kind {
      ApplyHitsRules(es, hs, j);
    }
  }

  /** A projectile update depends on the enemies only through their bodies, so the damage
      dealt by the projectiles updated before it makes no difference to it. */
  lemma StepSeesBodiesOnly(m: MathFns, p: ProjectileState, es: seq<EnemyState>, fs: seq<EnemyState>, dt: real)
    requires SameBodies(es, fs)
    ensures ProjectileStep(m, p, es, dt) == ProjectileStep(m, p, fs, dt)
  {
    var at := Destination(p, dt);
    forall j | 0 <= j < |es| ensures HitFlags(at, es)[j] == HitFlags(at, fs)[j] {
    }
    assert HitFlags(at, es) == HitFlags(at, fs);
  }

  datatype ProjectilePass = ProjectilePass(projectiles: seq<ProjectileState>, enemies: seq<EnemyState>, deaths: seq<nat>)

  /** The loop of `Game.update` over the projectiles, last first: each one updates against the
      enemies as the earlier updates left them. `projectiles` are the projectiles' new fields
      (index for index), `enemies` the enemies' and `deaths` the `die` calls in order. */
  function ProjectilesStep(m: MathFns, ps: seq<ProjectileState>, es: seq<EnemyState>, dt: real): (r: ProjectilePass)
    ensures |r.projectiles| == |ps| && |r.enemies| == |es|
    ensures forall k :: 0 <= k < |r.deaths| ==> r.deaths[k] < |es|
    decreases |ps|
  {
    if ps == [] then ProjectilePass([], es, [])
    else
      var n := |ps| - 1;
      var t := ProjectileStep(m, ps[n], es, dt);
      HitsInList(m, ps[n], es, dt);
      var hs := HitsOf(t.hits, ps[n].damage);
      var rest := ProjectilesStep(m, ps[..n], ApplyHits(es, hs), dt);
      ProjectilePass(rest.projectiles + [t.next], rest.enemies, Deaths(es, hs) + rest.deaths)
  }

  /** The `takeDamage` calls of the whole pass, last projectile first, each projectile's
      computed against the enemies as they were at the start of the pass. */
  function PassHits(m: MathFns, ps: seq<ProjectileState>, es: seq<EnemyState>, dt: real): (hs: seq<Hit>)
    ensures HitsWithin(hs, |es|)
    decreases |ps|
  {
    if ps == [] then []
    else
      var n := |ps| - 1;
      HitsInList(m, ps[n], es, dt);
      HitsOf(ProjectileStep(m, ps[n], es, dt).hits, ps[n].damage) + PassHits(m, ps[..n], es, dt)
  }

  lemma {:induction false} PassHitsSeeBodiesOnly(m: MathFns, ps: seq<ProjectileState>, es: seq<EnemyState>, fs: seq<EnemyState>, dt: real)
    requires SameBodies(es, fs)
    ensures PassHits(m, ps, es, dt) == PassHits(m, ps, fs, dt)
    decreases |ps|
  {
    if ps != [] {
      var n := |ps| - 1;
      StepSeesBodiesOnly(m, ps[n], es, fs, dt);
      PassHitsSeeBodiesOnly(m, ps[..n], es, fs, dt);
    }
  }

  /** The sequential pass is the batch one: every projectile moves and scans as if alone
      against the enemies at the start of the pass, all hits are then applied, last
      projectile first, and the deaths are those of that run of hits. */
  lemma {:induction false} ProjectilePassIsBatch(m: MathFns, ps: seq<ProjectileState>, es: seq<EnemyState>, dt: real)
    ensures var r := ProjectilesStep(m, ps, es, dt);
      && (forall k :: 0 <= k < |ps| ==> r.projectiles[k] == ProjectileStep(m, ps[k], es, dt).next)
      && r.enemies == ApplyHits(es, PassHits(m, ps, es, dt))
      && r.deaths == Deaths(es, PassHits(m, ps, es, dt))
    decreases |ps|
  {
    if ps != [] {
      var n := |ps| - 1;
      var t := ProjectileStep(m, ps[n], es, dt);
      HitsInList(m, ps[n], es, dt);
      var hs := HitsOf(t.hits, ps[n].damage);
      var es1 := ApplyHits(es, hs);
      HitsKeepBodies(es, hs);
      ProjectilePassIsBatch(m, ps[..n], es1, dt);
      PassHitsSeeBodiesOnly(m, ps[..n], es, es1, dt);
      forall k | 0 <= k < n ensures ProjectileStep(m, ps[..n][k], es1, dt) == ProjectileStep(m, ps[k], es, dt) {
        StepSeesBodiesOnly(m, ps[k], es, es1, dt);
      }
      HitsCompose(es, hs, PassHits(m, ps[..n], es, dt));
    }
  }

  /** Updating from the back of the list, the front projectile's hits come last. */
  lemma {:induction false} PassHitsFront(m: MathFns, ps: seq<ProjectileState>, es: seq<EnemyState>, dt: real)
    requires |ps| > 0
    ensures PassHits(m, ps, es, dt) == PassHits(m, ps[1..], es, dt) + HitsOf(ProjectileStep(m, ps[0], es, dt).hits, ps[0].damage)
    decreases |ps|
  {
    var n := |ps| - 1;
    if n > 0 {
      var front, rest := ps[..n], ps[1..];
      PassHitsUnfold(m, ps, es, dt);
      PassHitsUnfold(m, rest, es, dt);
      PassHitsFront(m, front, es, dt);
      assert front[0] == ps[0];
      assert rest[n - 1] == ps[n] && rest[..n - 1] == front[1..];
    } else {
      assert ps[1..] == [];
    }
  }

  lemma PassHitsUnfold(m: MathFns, ps: seq<ProjectileState>, es: seq<EnemyState>, dt: real)
    requires |ps| > 0
    ensures PassHits(m, ps, es, dt)
      == HitsOf(ProjectileStep(m, ps[|ps| - 1], es, dt).hits, ps[|ps| - 1].damage) + PassHits(m, ps[..|ps| - 1], es, dt)
  {
  }

  /** One step of the projectile loop, which runs from the back: projectile `i` meets the
      enemies as the projectiles after it left them, which have the same bodies, so it hits
      what it would hit alone; its hits, deaths and drops follow those of the later ones. */
  lemma PassStep(m: MathFns, ps: seq<ProjectileState>, es: seq<EnemyState>, dt: real, i: nat)
    requires i < |ps|
    ensures var h := PassHits(m, ps[i + 1..], es, dt);
      var cur := ApplyHits(es, h);
      var hs := HitsOf(ProjectileStep(m, ps[i], es, dt).hits, ps[i].damage);
      && HitsWithin(hs, |es|) && HitsWithin(hs, |cur|)
      && ProjectileStep(m, ps[i], cur, dt) == ProjectileStep(m, ps[i], es, dt)
      && PassHits(m, ps[i..], es, dt) == h + hs
      && ApplyHits(es, h + hs) == ApplyHits(cur, hs)
      && Deaths(es, h + hs) == Deaths(es, h) + Deaths(cur, hs)
      && Drops(es, Deaths(es, h + hs)) == Drops(es, Deaths(es, h)) + Drops(cur, Deaths(cur, hs))
  {
    var h := PassHits(m, ps[i + 1..], es, dt);
    var cur := ApplyHits(es, h);
    var hs := HitsOf(ProjectileStep(m, ps[i], es, dt).hits, ps[i].damage);
    HitsInList(m, ps[i], es, dt);
    PassHitsFront(m, ps[i..], es, dt);
    assert ps[i..][1..] == ps[i + 1..] && ps[i..][0] == ps[i];
    HitsKeepBodies(es, h);
    StepSeesBodiesOnly(m, ps[i], es, cur, dt);
    HitsCompose(es, h, hs);
    DropsAfterHits(es, h, Deaths(cur, hs));
    DropsAppend(es, Deaths(es, h), Deaths(cur, hs));
  }

  /** One turn of the projectile loop on the battle: projectile `i` meets the enemies as the
      projectiles after it left them, ends where the sequential pass puts it, and its hits
      extend the battle to the one after projectiles `i` and later. */
  lemma ProjectileTurn(m: MathFns, ps: seq<ProjectileState>, es: seq<EnemyState>, dt: real, i: nat, b: Battle)
    requires i < |ps| && b.enemies == es
    ensures var t := ProjectileStep(m, ps[i], AfterHits(b, PassHits(m, ps[i + 1..], es, dt)).enemies, dt);
      && t.next == ProjectilesStep(m, ps, es, dt).projectiles[i]
      && HitsWithin(HitsOf(t.hits, ps[i].damage), |es|)
      && AfterHits(AfterHits(b, PassHits(m, ps[i + 1..], es, dt)), HitsOf(t.hits, ps[i].damage))
         == AfterHits(b, PassHits(m, ps[i..], es, dt))
  {
    var h := PassHits(m, ps[i + 1..], es, dt);
    PassStep(m, ps, es, dt, i);
    AfterHitsIsOutcome(b, h);
    ProjectilePassIsBatch(m, ps, es, dt);
    AfterHitsCompose(b, h, HitsOf(ProjectileStep(m, ps[i], es, dt).hits, ps[i].damage));
  }

  /** Over the whole pass no enemy gains hp, and the ones that die are exactly the ones whose
      hp the pass's hits take to 0 or below at some hit. */
  lemma ProjectilePassDamage(m: MathFns, ps: seq<ProjectileState>, es: seq<EnemyState>, dt: real, j: nat)
    requires j < |es| && forall k :: 0 <= k < |ps| ==> ps[k].damage >= 0.0
    ensures var r := ProjectilesStep(m, ps, es, dt);
      && r.enemies[j].stats.hp == es[j].stats.hp - DamageTo(PassHits(m, ps, es, dt), j)
      && r.enemies[j].position == es[j].position && r.enemies[j].kind == es[j].kind
      && (r.enemies[j].isDead <==> es[j].isDead || j in r.deaths)
  {
    ProjectilePassIsBatch(m, ps, es, dt);
    ApplyHitsRules(es, PassHits(m, ps, es, dt), j);
  }

  // ---------------------------------------------------------------------------------------
  // The enemy pass of `Game.update`
  // ---------------------------------------------------------------------------------------

  datatype EnemyPass = EnemyPass(enemies: seq<EnemyState>, player: PlayerState)

  /** The loop of `Game.update` over the enemies, last first: each moves towards the player
      and an attack is a `takeDamage` of its damage on the player as the earlier attacks left
      it. */
  function EnemiesStep(m: MathFns, es: seq<EnemyState>, p: PlayerState, dt: real): (r: EnemyPass)
    ensures |r.enemies| == |es|
    decreases |es|
  {
    if es == [] then EnemyPass([], p)
    else
      var n := |es| - 1;
      var t := EnemyStep(m, es[n], p.position, PlayerRadius, dt);
      var p1 := if t.attacks then Hurt(p, es[n].stats.damage) else p;
      var rest := EnemiesStep(m, es[..n], p1, dt);
      EnemyPass(rest.enemies + [t.next], rest.player)
  }

  /** The damage of the attacking enemies, last first. */
  function Attacks(m: MathFns, es: seq<EnemyState>, at: Vec, dt: real): seq<real>
    decreases |es|
  {
    if es == [] then []
    else
      var n := |es| - 1;
      (if EnemyStep(m, es[n], at, PlayerRadius, dt).attacks then [es[n].stats.damage] else []) + Attacks(m, es[..n], at, dt)
  }

  lemma {:induction false} HurtAllAppend(p: PlayerState, a: seq<real>, b: seq<real>)
    ensures HurtAll(p, a + b) == HurtAll(HurtAll(p, a), b)
    decreases |a|
  {
    if a != [] {
      assert (a + b)[1..] == a[1..] + b;
      HurtAllAppend(Hurt(p, a[0]), a[1..], b);
    } else {
      assert a + b == b;
    }
  }

  /** Every enemy updates as if alone, towards where the player stood at the start of the
      pass (a hit does not move the player), and the pass changes no enemy's `isDead`. */
  lemma {:induction false} EnemyPassMovesEach(m: MathFns, es: seq<EnemyState>, p: PlayerState, dt: real)
    ensures var r := EnemiesStep(m, es, p, dt);
      && (forall k :: 0 <= k < |es| ==> r.enemies[k] == EnemyStep(m, es[k], p.position, PlayerRadius, dt).next)
      && (forall k :: 0 <= k < |es| ==> r.enemies[k].isDead == es[k].isDead)
    decreases |es|
  {
    if es != [] {
      var n := |es| - 1;
      var t := EnemyStep(m, es[n], p.position, PlayerRadius, dt);
      var p1 := if t.attacks then Hurt(p, es[n].stats.damage) else p;
      HurtRules(p, es[n].stats.damage);
      assert p1.position == p.position;
      EnemyPassMovesEach(m, es[..n], p1, dt);
      forall k | 0 <= k < |es| ensures EnemiesStep(m, es, p, dt).enemies[k].isDead == es[k].isDead {
        EnemyStepRules(m, es[k], p.position, PlayerRadius, dt);
      }
    }
  }

  /** The player takes the attacks one `takeDamage` after the other, from the back of the
      list, and stays valid and where it was. */
  lemma {:induction false} EnemyPassHurtsPlayer(m: MathFns, es: seq<EnemyState>, p: PlayerState, dt: real)
    requires PlayerValid(p)
    ensures var r := EnemiesStep(m, es, p, dt);
      && r.player == HurtAll(p, Attacks(m, es, p.position, dt))
      && PlayerValid(r.player) && r.player.position == p.position
    decreases |es|
  {
    if es != [] {
      var n := |es| - 1;
      var t := EnemyStep(m, es[n], p.position, PlayerRadius, dt);
      var p1 := if t.attacks then Hurt(p, es[n].stats.damage) else p;
      var hit := if t.attacks then [es[n].stats.damage] else [];
      assert HurtAll(p, hit) == p1 by {
        if t.attacks {
          assert hit[1..] == [];
        }
      }
      HurtAllKeepsBounds(p, hit);
      EnemyPassHurtsPlayer(m, es[..n], p1, dt);
      HurtAllAppend(p, hit, Attacks(m, es[..n], p.position, dt));
    }
  }

  // ---------------------------------------------------------------------------------------
  // The pickup pass of `Game.update` and `Player.collectPickups`
  // ---------------------------------------------------------------------------------------

  function PickupsStep(ps: seq<PickupState>, dt: real): (r: seq<PickupState>)
    ensures |r| == |ps| && forall k :: 0 <= k < |ps| ==> r[k] == PickupStep(ps[k], dt)
  {
    seq(|ps|, k requires 0 <= k < |ps| => PickupStep(ps[k], dt))
  }

  /** Which pickups `collectPickups` takes: those strictly within `pickupRange` of the player. */
  function InReach(ps: seq<PickupState>, at: Vec, range: real): (r: seq<bool>)
    ensures |r| == |ps|
    ensures forall k :: 0 <= k < |ps| ==> (r[k] <==> DistanceSquared(at, ps[k].position) < range * range)
  {
    seq(|ps|, k requires 0 <= k < |ps| => DistanceSquared(at, ps[k].position) < range * range)
  }

  /** The effects of the taken pickups in the order they are collected, last first. */
  function Collected(ps: seq<PickupState>, taken: seq<bool>): seq<Effect>
    requires |taken| == |ps|
    decreases |ps|
  {
    if ps == [] then []
    else
      var n := |ps| - 1;
      (if taken[n] then [CollectEffect(ps[n].kind, ps[n].value)] else []) + Collected(ps[..n], taken[..n])
  }

  /** Pickups carry no negative heal, so collecting cannot lower hp below 0. */
  lemma {:induction false} CollectedHarmless(ps: seq<PickupState>, taken: seq<bool>)
    requires |taken| == |ps| && forall k :: 0 <= k < |ps| ==> ps[k].value >= 0
    ensures HarmlessEffects(Collected(ps, taken))
    ensures |Collected(ps, taken)| <= |ps|
    decreases |ps|
  {
    if ps != [] {
      var n := |ps| - 1;
      CollectedHarmless(ps[..n], taken[..n]);
    }
  }

  /** Collecting from the back of the list, the front pickup is the last one collected. */
  lemma {:induction false} CollectedFront(ps: seq<PickupState>, taken: seq<bool>)
    requires |taken| == |ps| && |ps| > 0
    ensures Collected(ps, taken) ==
      Collected(ps[1..], taken[1..]) + (if taken[0] then [CollectEffect(ps[0].kind, ps[0].value)] else [])
    decreases |ps|
  {
    var n := |ps| - 1;
    if n > 0 {
      CollectedFront(ps[..n], taken[..n]);
      assert ps[..n][1..] == ps[1..][..n - 1] && taken[..n][1..] == taken[1..][..n - 1];
      assert ps[..n][0] == ps[0] && taken[..n][0] == taken[0];
      assert ps[1..][n - 1] == ps[n] && taken[1..][n - 1] == taken[n];
    } else {
      assert ps[1..] == [] && ps[..0] == [];
    }
  }

  /** One turn of the `collectPickups` loop: pickup `i` is collected after every later one. */
  lemma CollectedStep(ps: seq<PickupState>, taken: seq<bool>, i: nat)
    requires |taken| == |ps| && i < |ps|
    ensures Collected(ps[i..], taken[i..]) ==
      Collected(ps[i + 1..], taken[i + 1..]) + (if taken[i] then [CollectEffect(ps[i].kind, ps[i].value)] else [])
  {
    CollectedFront(ps[i..], taken[i..]);
    assert ps[i..][1..] == ps[i + 1..] && taken[i..][1..] == taken[i + 1..] && ps[i..][0] == ps[i];
  }

  /** The same turn on the player: collecting pickup `i` applies its effect to the player
      as the later pickups left it, and skipping it leaves the player as it was. */
  lemma CollectTurn(p: PlayerState, ps: seq<PickupState>, taken: seq<bool>, i: nat)
    requires |taken| == |ps| && i < |ps| && p.xpToNextLevel >= InitialThreshold
    ensures var before := ApplyAll(p, Collected(ps[i + 1..], taken[i + 1..]));
      ApplyAll(p, Collected(ps[i..], taken[i..])) ==
        if taken[i] then Apply(before, CollectEffect(ps[i].kind, ps[i].value)) else before
  {
    var rest := Collected(ps[i + 1..], taken[i + 1..]);
    CollectedStep(ps, taken, i);
    if taken[i] {
      ApplyAllAppend(p, rest, CollectEffect(ps[i].kind, ps[i].value));
    } else {
      assert rest + [] == rest;
    }
  }

  /** Updating from the back of the list, the front enemy is the last to attack. */
  lemma {:induction false} AttacksFront(m: MathFns, es: seq<EnemyState>, at: Vec, dt: real)
    requires |es| > 0
    ensures Attacks(m, es, at, dt) ==
      Attacks(m, es[1..], at, dt) + (if EnemyStep(m, es[0], at, PlayerRadius, dt).attacks then [es[0].stats.damage] else [])
    decreases |es|
  {
    var n := |es| - 1;
    if n > 0 {
      AttacksFront(m, es[..n], at, dt);
      assert es[..n][1..] == es[1..][..n - 1];
      assert es[..n][0] == es[0];
      assert es[1..][n - 1] == es[n];
    } else {
      assert es[1..] == [] && es[..0] == [];
    }
  }

  /** One hit on enemy `j`: only that enemy changes, and a death is recorded exactly when
      the hit leaves it at or below 0 hp. */
  lemma SingleHit(es: seq<EnemyState>, j: nat, amount: real)
    requires j < |es|
    ensures ApplyHits(es, [Hit(j, amount)]) == es[j := Damaged(es[j], amount)]
    ensures Deaths(es, [Hit(j, amount)]) == if DiesAt(Damaged(es[j], amount).stats.hp) then [j] else []
  {
    assert [Hit(j, amount)][1..] == [];
  }

  lemma HitsOfAppend(hits: seq<nat>, d: real, j: nat)
    ensures HitsOf(hits + [j], d) == HitsOf(hits, d) + [Hit(j, d)]
  {
  }

  lemma DropsAppend(es: seq<EnemyState>, a: seq<nat>, b: seq<nat>)
    requires (forall k :: 0 <= k < |a| ==> a[k] < |es|) && (forall k :: 0 <= k < |b| ==> b[k] < |es|)
    ensures forall k :: 0 <= k < |a + b| ==> (a + b)[k] < |es|
    ensures Drops(es, a + b) == Drops(es, a) + Drops(es, b)
  {
  }

  /** One more damaged index at the end of a projectile's hits: that enemy takes the hit
      where the earlier hits left it, and a death (with its drop) is added exactly when
      the hit leaves it at or below 0 hp. */
  lemma HitStep(es: seq<EnemyState>, hits: seq<nat>, d: real, j: nat)
    requires j < |es| && forall k :: 0 <= k < |hits| ==> hits[k] < |es|
    ensures HitsWithin(HitsOf(hits, d), |es|) && HitsWithin(HitsOf(hits + [j], d), |es|)
    ensures var cur := ApplyHits(es, HitsOf(hits, d));
      ApplyHits(es, HitsOf(hits + [j], d)) == cur[j := Damaged(cur[j], d)]
    ensures var cur := ApplyHits(es, HitsOf(hits, d));
      Deaths(es, HitsOf(hits + [j], d)) == Deaths(es, HitsOf(hits, d)) + (if DiesAt(Damaged(cur[j], d).stats.hp) then [j] else [])
  {
    var h := HitsOf(hits, d);
    HitsOfAppend(hits, d, j);
    var one := [Hit(j, d)];
    assert HitsWithin(one, |es|);
    HitsCompose(es, h, one);
    SingleHit(ApplyHits(es, h), j, d);
  }

  /** The drops after one more hit: one more XP pickup, at the enemy and worth its XP, exactly
      when the hit kills. */
  lemma DropStep(es: seq<EnemyState>, hits: seq<nat>, d: real, j: nat)
    requires j < |es| && forall k :: 0 <= k < |hits| ==> hits[k] < |es|
    ensures HitsWithin(HitsOf(hits, d), |es|) && HitsWithin(HitsOf(hits + [j], d), |es|)
    ensures var cur := ApplyHits(es, HitsOf(hits, d));
      Drops(es, Deaths(es, HitsOf(hits + [j], d)))
      == Drops(es, Deaths(es, HitsOf(hits, d))) + (if DiesAt(Damaged(cur[j], d).stats.hp) then [Dropped(cur[j].position, cur[j].stats.xpValue)] else [])
  {
    HitStep(es, hits, d, j);
    var h := HitsOf(hits, d);
    var cur := ApplyHits(es, h);
    var ds := Deaths(es, h);
    var dies := DiesAt(Damaged(cur[j], d).stats.hp);
    var extra := if dies then [j] else [];
    assert Deaths(es, HitsOf(hits + [j], d)) == ds + extra;
    DropsAppend(es, ds, extra);
    ApplyHitsRules(es, h, j);
    assert cur[j].position == es[j].position && cur[j].stats.xpValue == es[j].stats.xpValue;
    if dies {
      assert Drops(es, extra) == [Dropped(es[j].position, es[j].stats.xpValue)];
    } else {
      assert Drops(es, extra) == [];
    }
  }

  lemma ElementsAppend(s: seq<nat>, x: nat)
    ensures Elements(s + [x]) == Elements(s) + {x}
  {
    forall y ensures y in Elements(s + [x]) <==> y in Elements(s) + {x} {
      ElementsMember(s + [x], y);
      ElementsMember(s, y);
    }
  }

  // ---------------------------------------------------------------------------------------
  // The weapon loop of `Player.update`
  // ---------------------------------------------------------------------------------------

  /** What one `fire` adds to `game.projectiles`: nothing when there is no enemy, otherwise a
      volley aimed at the nearest one. */
  function Fired(m: MathFns, k: WeaponKind, s: WeaponStats, origin: Vec, targets: seq<Vec>, draws: nat -> real, start: nat)
    : (r: seq<ProjectileState>)
    requires StatsValid(k, s)
    ensures |r| == if |targets| == 0 then 0 else s.projectileCount
  {
    if |targets| == 0 then [] else Volley(m, k, s, origin, AimAngle(m, origin, targets[Nearest(origin, targets)]), draws, start)
  }

  /** How many `Math.random()` draws one `fire` takes: one per SMG bullet, none for the Shotgun. */
  function DrawsTaken(k: WeaponKind, s: WeaponStats, targets: seq<Vec>): nat
  {
    if |targets| == 0 || k == Shotgun then 0 else s.projectileCount
  }

  predicate ArmsValid(ws: seq<WeaponState>)
  {
    forall k :: 0 <= k < |ws| ==> StatsValid(ws[k].kind, ws[k].stats)
  }

  datatype Volleys = Volleys(projectiles: seq<ProjectileState>, draws: nat)

  /** The projectiles the weapons `ws` add in one update of their owner at `origin`, first
      weapon first, and the draws they take; the draws start at `start`. */
  function Salvo(m: MathFns, ws: seq<WeaponState>, dt: real, origin: Vec, targets: seq<Vec>, draws: nat -> real, start: nat)
    : Volleys
    requires ArmsValid(ws)
    decreases |ws|
  {
    if ws == [] then Volleys([], 0)
    else
      var n := |ws| - 1;
      var rest := Salvo(m, ws[..n], dt, origin, targets, draws, start);
      var w := ws[n];
      StatsValidKeepsDivisorsPositive(w.kind, w.stats);
      if FireTimerStep(w.fireTimer, dt, w.stats.fireRate).fired then
        Volleys(rest.projectiles + Fired(m, w.kind, w.stats, origin, targets, draws, start + rest.draws),
                rest.draws + DrawsTaken(w.kind, w.stats, targets))
      else rest
  }

  /** What one weapon adds in its update: a volley from `origin` if its timer fires, with
      the draws it takes, and nothing otherwise. */
  function Contribution(m: MathFns, w: WeaponState, dt: real, origin: Vec, targets: seq<Vec>, draws: nat -> real, start: nat): Volleys
    requires StatsValid(w.kind, w.stats)
  {
    StatsValidKeepsDivisorsPositive(w.kind, w.stats);
    if FireTimerStep(w.fireTimer, dt, w.stats.fireRate).fired then
      Volleys(Fired(m, w.kind, w.stats, origin, targets, draws, start), DrawsTaken(w.kind, w.stats, targets))
    else Volleys([], 0)
  }

  /** Updating one more weapon adds its volley, if its timer fires, after those of the
      weapons before it, with the draws that follow theirs. */
  lemma SalvoStep(m: MathFns, ws: seq<WeaponState>, dt: real, origin: Vec, targets: seq<Vec>, draws: nat -> real, start: nat, i: nat)
    requires ArmsValid(ws) && i < |ws|
    ensures ArmsValid(ws[..i]) && ArmsValid(ws[..i + 1])
    ensures StatsValid(ws[i].kind, ws[i].stats) && ws[i].stats.fireRate > 0.0
    ensures var rest := Salvo(m, ws[..i], dt, origin, targets, draws, start);
      var shots := Contribution(m, ws[i], dt, origin, targets, draws, start + rest.draws);
      var next := Salvo(m, ws[..i + 1], dt, origin, targets, draws, start);
      && next.projectiles == rest.projectiles + shots.projectiles
      && next.draws == rest.draws + shots.draws
  {
    assert ws[..i + 1][..i] == ws[..i] && ws[..i + 1][i] == ws[i];
    StatsValidKeepsDivisorsPositive(ws[i].kind, ws[i].stats);
  }

  /** The weapons after their updates: each fire timer follows `FireTimerStep`. */
  function WeaponTimers(ws: seq<WeaponState>, dt: real): (r: seq<WeaponState>)
    requires ArmsValid(ws)
    ensures |r| == |ws|
  {
    seq(|ws|, k requires 0 <= k < |ws| =>
      StatsValidKeepsDivisorsPositive(ws[k].kind, ws[k].stats);
      ws[k].(fireTimer := FireTimerStep(ws[k].fireTimer, dt, ws[k].stats.fireRate).timer))
  }

  /** With no enemy in the list no weapon shoots or draws, whatever its timer says. */
  lemma {:induction false} SalvoNeedsTargets(m: MathFns, ws: seq<WeaponState>, dt: real, origin: Vec, draws: nat -> real, start: nat)
    requires ArmsValid(ws)
    ensures Salvo(m, ws, dt, origin, [], draws, start) == Volleys([], 0)
    decreases |ws|
  {
    if ws != [] {
      var n := |ws| - 1;
      assert ArmsValid(ws[..n]);
      SalvoNeedsTargets(m, ws[..n], dt, origin, draws, start);
    }
  }

  /** A projectile as `fire` creates it: at the owner, alive, nothing travelled or hit. */
  predicate FreshShot(p: ProjectileState, origin: Vec)
  {
    p.position == origin && p.distanceTraveled == 0.0 && p.hitEnemies == {} && !p.isDead
  }

  /** The projectile carries the damage and pierce of one of the weapons. */
  ghost predicate ShotOf(p: ProjectileState, ws: seq<WeaponState>)
  {
    exists j :: 0 <= j < |ws| && p.damage == ws[j].stats.damage && p.pierce == ws[j].stats.pierce
  }

  /** Every projectile of a salvo starts at the owner, alive, with nothing travelled and
      nothing hit, and carries the stats of one of the weapons. */
  lemma {:induction false} SalvoStartsAtOwner(m: MathFns, ws: seq<WeaponState>, dt: real, origin: Vec, targets: seq<Vec>, draws: nat -> real, start: nat)
    requires ArmsValid(ws)
    ensures forall p <- Salvo(m, ws, dt, origin, targets, draws, start).projectiles :: FreshShot(p, origin)
    ensures forall p <- Salvo(m, ws, dt, origin, targets, draws, start).projectiles :: ShotOf(p, ws)
    decreases |ws|
  {
    if ws != [] {
      var n := |ws| - 1;
      assert ArmsValid(ws[..n]);
      SalvoStartsAtOwner(m, ws[..n], dt, origin, targets, draws, start);
      var rest := Salvo(m, ws[..n], dt, origin, targets, draws, start).projectiles;
      var r := Salvo(m, ws, dt, origin, targets, draws, start).projectiles;
      forall p <- r
        ensures FreshShot(p, origin) && ShotOf(p, ws)
      {
        if p in rest {
          assert ShotOf(p, ws[..n]);
          var j :| 0 <= j < n && p.damage == ws[..n][j].stats.damage && p.pierce == ws[..n][j].stats.pierce;
          assert ws[..n][j] == ws[j];
        } else {
          assert p.damage == ws[n].stats.damage && p.pierce == ws[n].stats.pierce;
        }
      }
    }
  }
}
