/** The level-up offers of `generateUpgradeOptions` (src/systems/UIManager.ts):
    one "Level n+1" offer per owned weapon below level 5, an offer of each
    weapon kind the player does not own, and the three stat offers; the three
    offers shown are the first three of a shuffle of that pool. The manager
    object with the modal latches is `Simulation.UIManager`. */
module Upgrades {
  import opened Weapons
  import opened Text
  import opened Collections
  import Progression

  /** What clicking an offer does: `apply` of the source's option record. A weapon upgrade
      names the weapon by its position in the player's list. */
  datatype Action =
    | UpgradeWeapon(index: nat)
    | AddWeapon(kind: WeaponKind)
    | MoreMoveSpeed
    | MoreMaxHp
    | MoreArmor

  datatype Offer = Offer(name: string, description: string, action: Action)

  /** What the pool needs to know about an owned weapon. */
  datatype Owned = Owned(kind: WeaponKind, level: int)

  const MaxWeaponLevel: int := 5

  /** `${weapon.name} Level ${weapon.level + 1}` with the weapon's upgrade description. */
  function LevelOffer(i: nat, w: Owned): Offer
  {
    Offer(Name(w.kind) + " Level " + IntToString(w.level + 1), Description(w.kind, w.level), UpgradeWeapon(i))
  }

  /** What the loop over the first `n` owned weapons has pushed. */
  function WeaponOffers(ws: seq<Owned>, n: nat): seq<Offer>
    requires n <= |ws|
    decreases n
  {
    if n == 0 then []
    else WeaponOffers(ws, n - 1) + (if ws[n - 1].level < MaxWeaponLevel then [LevelOffer(n - 1, ws[n - 1])] else [])
  }

  /** `weapons.some(w => w.name === ...)`; weapon names are distinct per kind. */
  predicate Owns(ws: seq<Owned>, k: WeaponKind)
  {
    exists i :: 0 <= i < |ws| && ws[i].kind == k
  }

  function NewWeaponOffer(k: WeaponKind): Offer
  {
    match k
    case SMG => Offer("SMG", "High fire rate, moderate damage", AddWeapon(SMG))
    case Shotgun => Offer("Shotgun", "Cone burst, high damage", AddWeapon(Shotgun))
  }

  function StatOffers(): seq<Offer>
  {
    [ Offer("+10% Move Speed", "Move faster", MoreMoveSpeed),
      Offer("+20 Max HP", "Increase maximum health", MoreMaxHp),
      Offer("+1 Armor", "Reduce damage taken", MoreArmor) ]
  }

  /** The list `generateUpgradeOptions` builds before shuffling. */
  function Pool(ws: seq<Owned>): seq<Offer>
  {
    WeaponOffers(ws, |ws|)
    + (if !Owns(ws, SMG) then [NewWeaponOffer(SMG)] else [])
    + (if !Owns(ws, Shotgun) then [NewWeaponOffer(Shotgun)] else [])
    + StatOffers()
  }

  function Actions(os: seq<Offer>): (r: seq<Action>)
    ensures |r| == |os| && forall i :: 0 <= i < |os| ==> r[i] == os[i].action
  {
    seq(|os|, i requires 0 <= i < |os| => os[i].action)
  }

  /** The weapon loop pushes only upgrade offers, each for a weapon below level 5 and
      with the text of that weapon's next level. */
  lemma {:induction false} WeaponOffersSound(ws: seq<Owned>, n: nat)
    requires n <= |ws|
    ensures forall o :: o in WeaponOffers(ws, n) ==>
      o.action.UpgradeWeapon? && o.action.index < n && ws[o.action.index].level < MaxWeaponLevel
      && o == LevelOffer(o.action.index, ws[o.action.index])
    decreases n
  {
    if n > 0 {
      WeaponOffersSound(ws, n - 1);
      var prev := WeaponOffers(ws, n - 1);
      var last := if ws[n - 1].level < MaxWeaponLevel then [LevelOffer(n - 1, ws[n - 1])] else [];
      assert WeaponOffers(ws, n) == prev + last;
      forall o | o in WeaponOffers(ws, n)
        ensures o.action.UpgradeWeapon? && o.action.index < n && ws[o.action.index].level < MaxWeaponLevel
        ensures o == LevelOffer(o.action.index, ws[o.action.index])
      {
        if o !in prev {
          assert o in last;
        }
      }
    }
  }

  /** Every weapon below level 5 gets its offer. */
  lemma {:induction false} WeaponOffersComplete(ws: seq<Owned>, n: nat, i: nat)
    requires i < n <= |ws| && ws[i].level < MaxWeaponLevel
    ensures LevelOffer(i, ws[i]) in WeaponOffers(ws, n)
    decreases n
  {
    if i < n - 1 {
      WeaponOffersComplete(ws, n - 1, i);
    }
  }

  /** The offers follow the weapon order, so no weapon gets two. */
  lemma {:induction false} WeaponOffersOrdered(ws: seq<Owned>, n: nat)
    requires n <= |ws|
    ensures forall j :: 0 <= j < |WeaponOffers(ws, n)| ==>
      WeaponOffers(ws, n)[j].action.UpgradeWeapon? && WeaponOffers(ws, n)[j].action.index < n
    ensures forall j, k :: 0 <= j < k < |WeaponOffers(ws, n)| ==>
      WeaponOffers(ws, n)[j].action.index < WeaponOffers(ws, n)[k].action.index
    decreases n
  {
    if n > 0 {
      WeaponOffersOrdered(ws, n - 1);
      var prev := WeaponOffers(ws, n - 1);
      var last := if ws[n - 1].level < MaxWeaponLevel then [LevelOffer(n - 1, ws[n - 1])] else [];
      var all := WeaponOffers(ws, n);
      assert all == prev + last;
      forall j | 0 <= j < |all| ensures all[j].action.UpgradeWeapon? && all[j].action.index < n {
        if j < |prev| {
          assert all[j] == prev[j];
        }
      }
      forall j, k | 0 <= j < k < |all| ensures all[j].action.index < all[k].action.index {
        assert all[j] == prev[j];
        if k < |prev| {
          assert all[k] == prev[k];
        }
      }
    }
  }

  /** Every owned weapon below level 5 has its "Level n+1" offer in the pool, no other
      weapon has one, and each upgrade offer names its weapon's next level and description. */
  lemma PoolUpgradeOffers(ws: seq<Owned>)
    ensures forall i :: 0 <= i < |ws| ==> (LevelOffer(i, ws[i]) in Pool(ws) <==> ws[i].level < MaxWeaponLevel)
    ensures forall o :: o in Pool(ws) && o.action.UpgradeWeapon? ==>
      o.action.index < |ws| && ws[o.action.index].level < MaxWeaponLevel
      && o == LevelOffer(o.action.index, ws[o.action.index])
  {
    var w := WeaponOffers(ws, |ws|);
    WeaponOffersSound(ws, |ws|);
    var rest := Pool(ws)[|w|..];
    assert Pool(ws) == w + rest;
    assert forall o :: o in rest ==> !o.action.UpgradeWeapon?;
    forall i | 0 <= i < |ws| && ws[i].level < MaxWeaponLevel ensures LevelOffer(i, ws[i]) in Pool(ws) {
      WeaponOffersComplete(ws, |ws|, i);
    }
  }

  /** A new SMG or Shotgun is offered exactly when the player owns no weapon of that kind. */
  lemma PoolNewWeaponOffers(ws: seq<Owned>, k: WeaponKind)
    ensures NewWeaponOffer(k) in Pool(ws) <==> !Owns(ws, k)
  {
    var w := WeaponOffers(ws, |ws|);
    WeaponOffersSound(ws, |ws|);
    assert NewWeaponOffer(k) !in w;
  }

  /** The three stat offers are always there, so the pool never has fewer than three. */
  lemma PoolHasStatOffers(ws: seq<Owned>)
    ensures forall o :: o in StatOffers() ==> o in Pool(ws)
    ensures |Pool(ws)| >= 3
  {
  }

  /** No two offers of the pool do the same thing. */
  lemma PoolDistinct(ws: seq<Owned>)
    ensures Distinct(Actions(Pool(ws)))
    ensures Distinct(Pool(ws))
  {
    WeaponOffersOrdered(ws, |ws|);
    var w := WeaponOffers(ws, |ws|);
    var p := Pool(ws);
    var a := Actions(p);
    var rest := (if !Owns(ws, SMG) then [AddWeapon(SMG)] else []) + (if !Owns(ws, Shotgun) then [AddWeapon(Shotgun)] else [])
      + [MoreMoveSpeed, MoreMaxHp, MoreArmor];
    assert a == Actions(w) + rest;
    assert Distinct(rest);
    forall i, j | 0 <= i < j < |a| ensures a[i] != a[j] {
      if j < |w| {
        assert a[i] == w[i].action && a[j] == w[j].action;
      } else if i >= |w| {
        assert a[i] == rest[i - |w|] && a[j] == rest[j - |w|];
      } else {
        assert a[i] == w[i].action && a[j] == rest[j - |w|];
      }
    }
    forall i, j | 0 <= i < j < |p| ensures p[i] != p[j] {
      assert a[i] != a[j];
    }
  }

  /** `options.sort(() => Math.random() - 0.5).slice(0, 3)`: the first three of some
      rearrangement of the pool. Which rearrangement is left open. */
  ghost predicate IsDraw(options: seq<Offer>, pool: seq<Offer>)
  {
    exists shuffled: seq<Offer> :: multiset(shuffled) == multiset(pool) && |shuffled| >= 3 && options == shuffled[..3]
  }

  /** Every draw shows three different offers of the pool. */
  lemma DrawIsThreeDistinctOffers(ws: seq<Owned>, options: seq<Offer>)
    requires IsDraw(options, Pool(ws))
    ensures |options| == 3 && Distinct(options)
    ensures forall o :: o in options ==> o in Pool(ws)
  {
    var pool := Pool(ws);
    var shuffled :| multiset(shuffled) == multiset(pool) && |shuffled| >= 3 && options == shuffled[..3];
    PoolDistinct(ws);
    PermutationKeepsDistinct(pool, shuffled);
    forall o | o in options ensures o in pool {
      assert o in multiset(shuffled);
    }
  }

  /** A shuffle only rearranges what it is given. */
  ghost predicate Permutes(shuffle: seq<Offer> -> seq<Offer>)
  {
    forall s :: multiset(shuffle(s)) == multiset(s)
  }

  /** `shuffled.slice(0, 3)` of the list `shuffle` makes of the pool. */
  function Draw(shuffle: seq<Offer> -> seq<Offer>, pool: seq<Offer>): (r: seq<Offer>)
    ensures |r| <= 3
    ensures r <= shuffle(pool)
  {
    var s := shuffle(pool);
    if |s| >= 3 then s[..3] else s
  }

  /** With a shuffle that only rearranges, `Draw` is a draw: the first three of a
      rearrangement of the pool. */
  lemma DrawIsADraw(shuffle: seq<Offer> -> seq<Offer>, pool: seq<Offer>)
    requires Permutes(shuffle) && |pool| >= 3
    ensures IsDraw(Draw(shuffle, pool), pool)
  {
    var s := shuffle(pool);
    assert multiset(s) == multiset(pool);
    assert |s| == |multiset(s)| == |multiset(pool)| == |pool|;
  }

  /** Every level-up screen shows three different offers, all from the pool. */
  lemma DrawShowsThreeOffers(shuffle: seq<Offer> -> seq<Offer>, ws: seq<Owned>)
    requires Permutes(shuffle)
    ensures var r := Draw(shuffle, Pool(ws));
      |r| == 3 && Distinct(r) && forall o :: o in r ==> o in Pool(ws)
  {
    PoolHasStatOffers(ws);
    DrawIsADraw(shuffle, Pool(ws));
    DrawIsThreeDistinctOffers(ws, Draw(shuffle, Pool(ws)));
  }

  /** The effect of a stat offer on the player's stats; weapon offers leave them alone. */
  function ApplyStats(a: Action, s: Progression.PlayerStats): (r: Progression.PlayerStats)
    ensures a.MoreMaxHp? ==> r.maxHp == s.maxHp + 20.0 && r.hp == s.hp + 20.0
    ensures !a.MoreMaxHp? ==> r.maxHp == s.maxHp && r.hp == s.hp
    ensures r.armor == if a.MoreArmor? then s.armor + 1.0 else s.armor
    ensures r.moveSpeed == if a.MoreMoveSpeed? then s.moveSpeed * 1.1 else s.moveSpeed
    ensures r.pickupRange == s.pickupRange && r.dashCooldown == s.dashCooldown && r.dashCharges == s.dashCharges
  {
    match a
    case MoreMoveSpeed => s.(moveSpeed := s.moveSpeed * 1.1)
    case MoreMaxHp => s.(maxHp := s.maxHp + 20.0, hp := s.hp + 20.0)
    case MoreArmor => s.(armor := s.armor + 1.0)
    case _ => s
  }

  /** No offer breaks `0 <= hp <= maxHp`; '+20 Max HP' keeps the missing health as it was. */
  lemma ApplyStatsKeepsHealthBounds(a: Action, s: Progression.PlayerStats)
    requires 0.0 <= s.hp <= s.maxHp
    ensures 0.0 <= ApplyStats(a, s).hp <= ApplyStats(a, s).maxHp
    ensures ApplyStats(a, s).maxHp - ApplyStats(a, s).hp == s.maxHp - s.hp
  {
  }
}
