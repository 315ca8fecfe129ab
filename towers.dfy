/**
 * src/towers.ts: the TowerManager, i.e. tower placement, cooldown-gated
 * target acquisition and projectile resolution.
 *
 * Enemies are values here: TowerManager.update receives the enemy list and
 * returns it with the damage of this tick applied, and the caller stores it
 * back (in the source the same Enemy objects are shared and mutated).  The
 * clock (Date.now()) is the parameter `now`; the window size used for the
 * projectile bounds is (viewWidth, viewHeight); the projectile velocity,
 * computed with atan2/cos/sin in the source, is supplied by `aim`.
 * Distances are compared squared, which orders them as Math.sqrt does.
 */
module Towers {
  import opened Wrappers
  import Utils
  import Enemies

  type Enemy = Enemies.Enemy

  datatype TowerType = Basic | Sniper | Splash

  datatype TowerStats = TowerStats(range: real, damage: real, attackSpeed: int, cost: nat)

  /** towerTypes (the drawing colour is left out). */
  function Stats(kind: TowerType): TowerStats
  {
    match kind
    case Basic => TowerStats(150.0, 10.0, 1000, 100)
    case Sniper => TowerStats(300.0, 50.0, 2000, 200)
    case Splash => TowerStats(100.0, 15.0, 1500, 150)
  }

  /** getTowerCost: 100 for basic, 200 for sniper, 150 for splash. */
  function GetTowerCost(kind: TowerType): (c: nat)
    ensures c == Stats(kind).cost && c > 0
    ensures kind == Basic ==> c == 100
    ensures kind == Sniper ==> c == 200
    ensures kind == Splash ==> c == 150
  {
    Stats(kind).cost
  }

  datatype Tower = Tower(
    id: string, x: real, y: real, range: real, damage: real, attackSpeed: int,
    lastAttackTime: int, cost: nat, kind: TowerType, level: nat, attackCooldown: int)

  /** The cooldown every tower is built with, whatever its attackSpeed. */
  const AttackCooldown: int := 1000

  /** The tower placeTower and addRemoteTower build: table stats, level 1, never fired. */
  function MakeTower(id: string, x: real, y: real, kind: TowerType): (t: Tower)
    ensures t.id == id && t.x == x && t.y == y && t.kind == kind
    ensures t.range == Stats(kind).range && t.damage == Stats(kind).damage
    ensures t.attackSpeed == Stats(kind).attackSpeed && t.cost == Stats(kind).cost
    ensures t.lastAttackTime == 0 && t.level == 1 && t.attackCooldown == AttackCooldown
  {
    var s := Stats(kind);
    Tower(id, x, y, s.range, s.damage, s.attackSpeed, 0, s.cost, kind, 1, AttackCooldown)
  }

  /** What placeTower returns and what tower_placement carries. */
  datatype PlacedTower = PlacedTower(id: string, x: real, y: real, kind: TowerType)

  datatype Projectile = Projectile(x: real, y: real, vx: real, vy: real, damage: real, kind: TowerType, targetId: string)

  datatype Velocity = Velocity(vx: real, vy: real)

  // ------------------------------------------------------------ target search

  function Dist2(t: Tower, e: Enemy): real
  {
    (e.x - t.x) * (e.x - t.x) + (e.y - t.y) * (e.y - t.y)
  }

  /** distance <= tower.range, on squares. */
  predicate InRange(t: Tower, e: Enemy)
  {
    Dist2(t, e) <= t.range * t.range
  }

  /**
   * The enemy findTarget settles on, as an index: scanning in list order, a
   * candidate replaces the current one only when in range and strictly closer.
   */
  function Nearest(t: Tower, es: seq<Enemy>): (r: Option<nat>)
    ensures r.Some? ==> r.value < |es|
  {
    if es == [] then None
    else
      var r := Nearest(t, es[..|es| - 1]);
      var k := |es| - 1;
      if InRange(t, es[k]) && (r.None? || Dist2(t, es[k]) < Dist2(t, es[r.value])) then Some(k) else r
  }

  /**
   * No target exactly when no enemy is in range; otherwise the target is in
   * range, no in-range enemy is closer, and every earlier in-range enemy is
   * strictly farther (first among ties).
   */
  lemma {:induction false} NearestSpec(t: Tower, es: seq<Enemy>)
    ensures Nearest(t, es).None? <==> forall i :: 0 <= i < |es| ==> !InRange(t, es[i])
    ensures Nearest(t, es).Some? ==>
              var j := Nearest(t, es).value;
              && InRange(t, es[j])
              && (forall i :: 0 <= i < |es| && InRange(t, es[i]) ==> Dist2(t, es[j]) <= Dist2(t, es[i]))
              && (forall i :: 0 <= i < j && InRange(t, es[i]) ==> Dist2(t, es[j]) < Dist2(t, es[i]))
  {
    if es != [] {
      var init := es[..|es| - 1];
      NearestSpec(t, init);
      assert forall i :: 0 <= i < |init| ==> init[i] == es[i];
    }
  }

  /** findTarget: the loop with the running closest enemy and distance. */
  method FindTarget(t: Tower, es: seq<Enemy>) returns (target: Option<nat>)
    ensures target == Nearest(t, es)
  {
    target := None;
    var closest := 0.0;
    var i := 0;
    while i < |es|
      invariant 0 <= i <= |es|
      invariant target == Nearest(t, es[..i])
      invariant target.Some? ==> target.value < i && closest == Dist2(t, es[target.value])
    {
      assert es[..i + 1][..i] == es[..i];
      var d := Dist2(t, es[i]);
      if InRange(t, es[i]) && (target.None? || d < closest) {
        target := Some(i);
        closest := d;
      }
      i := i + 1;
    }
    assert es[..|es|] == es;
  }

  // ------------------------------------------------------------ firing

  function Shot(t: Tower, target: Enemy, v: Velocity): Projectile
  {
    Projectile(t.x, t.y, v.vx, v.vy, t.damage, t.kind, target.id)
  }

  predicate CooledDown(t: Tower, now: int)
  {
    now - t.lastAttackTime >= t.attackCooldown
  }

  /** One tower's turn: its (possibly updated) self and the projectiles it adds. */
  function FireOne(t: Tower, es: seq<Enemy>, now: int, aim: (Tower, Enemy) -> Velocity): (Tower, seq<Projectile>)
  {
    if CooledDown(t, now) then
      match Nearest(t, es)
      case Some(j) => (t.(lastAttackTime := now), [Shot(t, es[j], aim(t, es[j]))])
      case None => (t, [])
    else (t, [])
  }

  /**
   * A tower fires exactly when its cooldown has elapsed and some enemy is in
   * range: then it adds one projectile at its own position, aimed by id at its
   * nearest target with its own damage, and records `now`; otherwise it and
   * the projectile list are unchanged.
   */
  lemma FireOneSpec(t: Tower, es: seq<Enemy>, now: int, aim: (Tower, Enemy) -> Velocity)
    ensures var (t', shots) := FireOne(t, es, now, aim);
            if CooledDown(t, now) && exists i :: 0 <= i < |es| && InRange(t, es[i]) then
              Nearest(t, es).Some? &&
              var j := Nearest(t, es).value;
              && t' == t.(lastAttackTime := now)
              && |shots| == 1 && shots[0].targetId == es[j].id && shots[0].damage == t.damage
              && shots[0].x == t.x && shots[0].y == t.y && InRange(t, es[j])
            else
              t' == t && shots == []
  {
    NearestSpec(t, es);
  }

  function FiredTowers(ts: seq<Tower>, es: seq<Enemy>, now: int, aim: (Tower, Enemy) -> Velocity): (r: seq<Tower>)
    ensures |r| == |ts|
  {
    seq(|ts|, i requires 0 <= i < |ts| => FireOne(ts[i], es, now, aim).0)
  }

  function NewShots(ts: seq<Tower>, es: seq<Enemy>, now: int, aim: (Tower, Enemy) -> Velocity): seq<Projectile>
  {
    if ts == [] then []
    else NewShots(ts[..|ts| - 1], es, now, aim) + FireOne(ts[|ts| - 1], es, now, aim).1
  }

  /** At most one new projectile per tower per tick. */
  lemma {:induction false} NewShotsBound(ts: seq<Tower>, es: seq<Enemy>, now: int, aim: (Tower, Enemy) -> Velocity)
    ensures |NewShots(ts, es, now, aim)| <= |ts|
  {
    if ts != [] {
      NewShotsBound(ts[..|ts| - 1], es, now, aim);
    }
  }

  // ------------------------------------------------------------ projectiles

  function Moved(p: Projectile): Projectile
  {
    p.(x := p.x + p.vx, y := p.y + p.vy)
  }

  /** The hit test of enemies.find: the enemy's id is the target id and it is within 20 on both axes. */
  predicate Hits(p: Projectile, e: Enemy)
  {
    e.id == p.targetId && Utils.Abs(e.x - p.x) < 20.0 && Utils.Abs(e.y - p.y) < 20.0
  }

  /** enemies.find(...): the first enemy the projectile hits. */
  function HitIndex(p: Projectile, es: seq<Enemy>): (r: Option<nat>)
    ensures r.Some? ==> r.value < |es| && Hits(p, es[r.value]) && forall i :: 0 <= i < r.value ==> !Hits(p, es[i])
    ensures r.None? ==> forall i :: 0 <= i < |es| ==> !Hits(p, es[i])
  {
    if es == [] then None
    else if Hits(p, es[0]) then Some(0)
    else
      match HitIndex(p, es[1..])
      case Some(j) => Some(j + 1)
      case None => None
  }

  predicate OutOfBounds(p: Projectile, viewWidth: real, viewHeight: real)
  {
    p.x < 0.0 || p.x > viewWidth || p.y < 0.0 || p.y > viewHeight
  }

  /** Two enemy lists that agree on every id and position (what the hit test reads). */
  predicate SameKeys(a: seq<Enemy>, b: seq<Enemy>)
  {
    |a| == |b| && forall i :: 0 <= i < |a| ==> a[i].id == b[i].id && a[i].x == b[i].x && a[i].y == b[i].y
  }

  lemma {:induction false} HitIndexSameKeys(p: Projectile, a: seq<Enemy>, b: seq<Enemy>)
    requires SameKeys(a, b)
    ensures HitIndex(p, a) == HitIndex(p, b)
  {
    if a != [] {
      HitIndexSameKeys(p, a[1..], b[1..]);
    }
  }

  /** A projectile's hit: only the hit enemy loses health, by the projectile's damage (no clamping). */
  function ApplyHit(p: Projectile, es: seq<Enemy>): (r: seq<Enemy>)
    ensures SameKeys(es, r)
    ensures match HitIndex(Moved(p), es)
            case Some(j) => r == es[j := es[j].(health := es[j].health - p.damage)]
            case None => r == es
  {
    match HitIndex(Moved(p), es)
    case Some(j) => es[j := es[j].(health := es[j].health - p.damage)]
    case None => es
  }

  /** Damage of a whole projectile list, processed back to front as the loop does. */
  function Damaged(ps: seq<Projectile>, es: seq<Enemy>): (r: seq<Enemy>)
    ensures SameKeys(es, r)
  {
    if ps == [] then es else ApplyHit(ps[0], Damaged(ps[1..], es))
  }

  /** Kept after moving: it hit nothing and is still inside the window. */
  predicate Stays(p: Projectile, es: seq<Enemy>, viewWidth: real, viewHeight: real)
  {
    HitIndex(Moved(p), es).None? && !OutOfBounds(Moved(p), viewWidth, viewHeight)
  }

  /** The projectiles left after one tick, moved, in their original order. */
  function Remaining(ps: seq<Projectile>, es: seq<Enemy>, viewWidth: real, viewHeight: real): seq<Projectile>
  {
    if ps == [] then []
    else (if Stays(ps[0], es, viewWidth, viewHeight) then [Moved(ps[0])] else []) + Remaining(ps[1..], es, viewWidth, viewHeight)
  }

  /**
   * A projectile survives exactly when, after moving, it hit nothing and is
   * inside the window; every survivor is such a moved projectile.
   */
  lemma {:induction false} RemainingSpec(ps: seq<Projectile>, es: seq<Enemy>, viewWidth: real, viewHeight: real)
    ensures |Remaining(ps, es, viewWidth, viewHeight)| <= |ps|
    ensures forall q :: q in Remaining(ps, es, viewWidth, viewHeight) ==>
              !OutOfBounds(q, viewWidth, viewHeight) && HitIndex(q, es).None?
    ensures forall i :: 0 <= i < |ps| && Stays(ps[i], es, viewWidth, viewHeight) ==>
              Moved(ps[i]) in Remaining(ps, es, viewWidth, viewHeight)
    ensures forall q :: q in Remaining(ps, es, viewWidth, viewHeight) ==>
              exists i :: 0 <= i < |ps| && Stays(ps[i], es, viewWidth, viewHeight) && q == Moved(ps[i])
  {
    if ps != [] {
      RemainingSpec(ps[1..], es, viewWidth, viewHeight);
      forall q | q in Remaining(ps, es, viewWidth, viewHeight)
        ensures exists i :: 0 <= i < |ps| && Stays(ps[i], es, viewWidth, viewHeight) && q == Moved(ps[i])
      {
        if q in Remaining(ps[1..], es, viewWidth, viewHeight) {
          var j :| 0 <= j < |ps[1..]| && Stays(ps[1..][j], es, viewWidth, viewHeight) && q == Moved(ps[1..][j]);
          assert ps[j + 1] == ps[1..][j];
        }
      }
      forall i | 0 <= i < |ps| && Stays(ps[i], es, viewWidth, viewHeight)
        ensures Moved(ps[i]) in Remaining(ps, es, viewWidth, viewHeight)
      {
        if i > 0 {
          assert ps[1..][i - 1] == ps[i];
        }
      }
    }
  }

  /**
   * Projectiles with non-negative damage never raise an enemy's health, and
   * an enemy nobody targets keeps its health.
   */
  lemma {:induction false} DamagedSpec(ps: seq<Projectile>, es: seq<Enemy>)
    requires forall p :: p in ps ==> p.damage >= 0.0
    ensures forall i :: 0 <= i < |es| ==> Damaged(ps, es)[i].health <= es[i].health
    ensures forall i :: 0 <= i < |es| && (forall p :: p in ps ==> p.targetId != es[i].id) ==>
              Damaged(ps, es)[i] == es[i]
  {
    if ps != [] {
      assert forall p :: p in ps[1..] ==> p in ps;
      DamagedSpec(ps[1..], es);
    }
  }

  /** Projectile damage is not clamped: a hit on a weakened enemy can leave its health below zero. */
  lemma OverkillGoesNegative()
    ensures var e := Enemies.NewEnemy(Enemies.Basic, 100.0, 100.0, "e1", "").(health := 5.0);
            var p := Projectile(100.0, 100.0, 0.0, 0.0, 50.0, Sniper, "e1");
            ApplyHit(p, [e])[0].health == -45.0
  {
  }

  // ------------------------------------------------------------ placement

  /** Within 40 units on both axes of an existing tower. */
  predicate Near(t: Tower, x: real, y: real)
  {
    Utils.Abs(t.x - x) < 40.0 && Utils.Abs(t.y - y) < 40.0
  }

  /** !towers.some(tower => near): no existing tower within 40 on both axes. */
  function NoTowerNear(ts: seq<Tower>, x: real, y: real): (ok: bool)
    ensures ok <==> forall i :: 0 <= i < |ts| ==> !Near(ts[i], x, y)
  {
    if ts == [] then true
    else !Near(ts[0], x, y) && NoTowerNear(ts[1..], x, y)
  }

  /** Unfolding NewShots by one tower, as the firing loop needs. */
  lemma FireStep(ts: seq<Tower>, i: nat, es: seq<Enemy>, now: int, aim: (Tower, Enemy) -> Velocity)
    requires i < |ts|
    ensures NewShots(ts[..i + 1], es, now, aim) == NewShots(ts[..i], es, now, aim) + FireOne(ts[i], es, now, aim).1
  {
    assert ts[..i + 1][..i] == ts[..i];
  }

  /** Unfolding Remaining and Damaged by one projectile, as the backward loop needs. */
  lemma ProjectileStep(all: seq<Projectile>, k: nat, es0: seq<Enemy>, es: seq<Enemy>, viewWidth: real, viewHeight: real)
    requires k < |all| && es == Damaged(all[k + 1..], es0)
    ensures Remaining(all[k..], es0, viewWidth, viewHeight) ==
              (if Stays(all[k], es, viewWidth, viewHeight) then [Moved(all[k])] else [])
              + Remaining(all[k + 1..], es0, viewWidth, viewHeight)
    ensures Damaged(all[k..], es0) == ApplyHit(all[k], es)
    ensures all[..k + 1] == all[..k] + [all[k]]
  {
    assert all[k..][0] == all[k] && all[k..][1..] == all[k + 1..];
    HitIndexSameKeys(Moved(all[k]), es, es0);
  }

  /** The list the backward loop holds at step k, split around position k. */
  lemma SpliceAt(all: seq<Projectile>, k: nat, rest: seq<Projectile>, ps: seq<Projectile>)
    requires k < |all| && ps == all[..k + 1] + rest
    ensures k < |ps| && ps[k] == all[k]
    ensures ps[..k] == all[..k] && ps[k + 1..] == rest
  {
    assert all[..k + 1] == all[..k] + [all[k]];
    assert ps[..k] == all[..k];
    assert ps[k + 1..] == rest;
  }

  /** One pass of the backward loop keeps its invariant: the list and the
      enemies it leaves are those of the specification at position k. */
  lemma ResolveStep(all: seq<Projectile>, k: nat, es0: seq<Enemy>, es: seq<Enemy>, viewWidth: real, viewHeight: real,
                    ps: seq<Projectile>, ps': seq<Projectile>, es': seq<Enemy>)
    requires k < |all| && ps == all[..k + 1] + Remaining(all[k + 1..], es0, viewWidth, viewHeight)
    requires es == Damaged(all[k + 1..], es0)
    requires k < |ps| && es' == ApplyHit(ps[k], es)
    requires ps' == ps[..k] + (if Stays(ps[k], es, viewWidth, viewHeight) then [Moved(ps[k])] else []) + ps[k + 1..]
    ensures ps' == all[..k] + Remaining(all[k..], es0, viewWidth, viewHeight)
    ensures es' == Damaged(all[k..], es0)
  {
    SpliceAt(all, k, Remaining(all[k + 1..], es0, viewWidth, viewHeight), ps);
    ProjectileStep(all, k, es0, es, viewWidth, viewHeight);
  }

  class TowerManager {
    var towers: seq<Tower>
    var projectiles: seq<Projectile>
    var selectedTowerType: Option<TowerType>
    var isPlacingTower: bool

    /** Placement mode is on exactly when a tower type is selected. */
    ghost predicate Valid()
      reads this
    {
      isPlacingTower <==> selectedTowerType.Some?
    }

    constructor ()
      ensures Valid()
      ensures towers == [] && projectiles == [] && selectedTowerType == None && !isPlacingTower
    {
      towers := [];
      projectiles := [];
      selectedTowerType := None;
      isPlacingTower := false;
    }

    /**
     * update(enemies): every tower in order gets its turn (FireOne), then the
     * projectile list (old ones first, then this tick's) is processed back to
     * front: move, hit or leave the window, else stay.  Returns the enemies with
     * this tick's damage applied.
     */
    method Update(es0: seq<Enemy>, now: int, aim: (Tower, Enemy) -> Velocity, viewWidth: real, viewHeight: real)
      returns (es: seq<Enemy>)
      requires Valid()
      modifies this`towers, this`projectiles
      ensures Valid()
      ensures towers == FiredTowers(old(towers), es0, now, aim)
      ensures var all := old(projectiles) + NewShots(old(towers), es0, now, aim);
              && projectiles == Remaining(all, es0, viewWidth, viewHeight)
              && es == Damaged(all, es0)
    {
      FireTowers(es0, now, aim);
      es := ResolveProjectiles(es0, viewWidth, viewHeight);
    }

    /** The first loop of update: each tower, in order, takes its FireOne turn. */
    method FireTowers(es: seq<Enemy>, now: int, aim: (Tower, Enemy) -> Velocity)
      requires Valid()
      modifies this`towers, this`projectiles
      ensures Valid()
      ensures towers == FiredTowers(old(towers), es, now, aim)
      ensures projectiles == old(projectiles) + NewShots(old(towers), es, now, aim)
    {
      ghost var ts0 := towers;
      var i := 0;
      while i < |towers|
        invariant 0 <= i <= |towers| == |ts0|
        invariant forall j :: 0 <= j < i ==> towers[j] == FireOne(ts0[j], es, now, aim).0
        invariant forall j :: i <= j < |ts0| ==> towers[j] == ts0[j]
        invariant projectiles == old(projectiles) + NewShots(ts0[..i], es, now, aim)
      {
        FireStep(ts0, i, es, now, aim);
        TowerTurn(i, es, now, aim);
        i := i + 1;
      }
      assert ts0[..|ts0|] == ts0;
    }

    /**
     * One pass of the firing loop: tower i, once cooled down and with a
     * target found, adds a projectile at the target and records `now`.
     */
    method TowerTurn(i: nat, es: seq<Enemy>, now: int, aim: (Tower, Enemy) -> Velocity)
      requires i < |towers|
      modifies this`towers, this`projectiles
      ensures towers == old(towers)[i := FireOne(old(towers[i]), es, now, aim).0]
      ensures projectiles == old(projectiles) + FireOne(old(towers[i]), es, now, aim).1
    {
      var t := towers[i];
      if now - t.lastAttackTime >= t.attackCooldown {
        var target := FindTarget(t, es);
        if target.Some? {
          var e := es[target.value];
          projectiles := projectiles + [Shot(t, e, aim(t, e))];
          towers := towers[i := t.(lastAttackTime := now)];
        }
      }
    }

    /**
     * The second loop of update: back to front, each projectile moves, then is
     * spliced out on a hit (damaging the hit enemy) or outside the window.
     */
    method ResolveProjectiles(es0: seq<Enemy>, viewWidth: real, viewHeight: real) returns (es: seq<Enemy>)
      modifies this`projectiles
      ensures projectiles == Remaining(old(projectiles), es0, viewWidth, viewHeight)
      ensures es == Damaged(old(projectiles), es0)
    {
      ghost var all := projectiles;
      es := es0;
      var k := |projectiles|;
      while k > 0
        invariant 0 <= k <= |all|
        invariant projectiles == all[..k] + Remaining(all[k..], es0, viewWidth, viewHeight)
        invariant es == Damaged(all[k..], es0)
      {
        k := k - 1;
        ghost var before, esBefore := projectiles, es;
        SpliceAt(all, k, Remaining(all[k + 1..], es0, viewWidth, viewHeight), projectiles);
        es := ResolveAt(k, es, viewWidth, viewHeight);
        ResolveStep(all, k, es0, esBefore, viewWidth, viewHeight, before, projectiles, es);
      }
      assert all[0..] == all;
    }

    /**
     * One pass of the backward loop: projectile k moves; on a hit the enemy
     * loses the projectile's damage and the projectile is spliced out; outside
     * the window it is spliced out; otherwise it stays, moved, in place.
     */
    method ResolveAt(k: nat, es: seq<Enemy>, viewWidth: real, viewHeight: real) returns (es': seq<Enemy>)
      requires k < |projectiles|
      modifies this`projectiles
      ensures es' == ApplyHit(old(projectiles[k]), es)
      ensures projectiles ==
                old(projectiles[..k])
                + (if Stays(old(projectiles[k]), es, viewWidth, viewHeight) then [Moved(old(projectiles[k]))] else [])
                + old(projectiles[k + 1..])
    {
      var p := Moved(projectiles[k]);
      var hit := HitIndex(p, es);
      es' := es;
      if hit.Some? {
        var j := hit.value;
        es' := es[j := es[j].(health := es[j].health - p.damage)];
        projectiles := projectiles[..k] + projectiles[k + 1..];
      } else if p.x < 0.0 || p.x > viewWidth || p.y < 0.0 || p.y > viewHeight {
        projectiles := projectiles[..k] + projectiles[k + 1..];
      } else {
        assert projectiles[k := p] == projectiles[..k] + [p] + projectiles[k + 1..];
        projectiles := projectiles[k := p];
      }
    }

    /** isPlacing: placement mode is on exactly when a type is selected. */
    function IsPlacing(): (b: bool)
      reads this
      requires Valid()
      ensures b <==> GetSelectedTowerType().Some?
    {
      isPlacingTower
    }

    function GetSelectedTowerType(): Option<TowerType>
      reads this
    {
      selectedTowerType
    }

    /** startTowerPlacement: select the type and enter placement mode. */
    method StartTowerPlacement(kind: TowerType)
      modifies this`selectedTowerType, this`isPlacingTower
      ensures Valid() && selectedTowerType == Some(kind) && isPlacingTower
    {
      selectedTowerType := Some(kind);
      isPlacingTower := true;
    }

    /** isValidPlacement: no existing tower within 40 units on both axes. */
    function IsValidPlacement(x: real, y: real): (ok: bool)
      reads this
      ensures ok <==> forall i :: 0 <= i < |towers| ==> !Near(towers[i], x, y)
    {
      NoTowerNear(towers, x, y)
    }

    /**
     * placeTower(x, y): null, changing nothing, without a selected type or
     * next to a tower; otherwise one tower of the selected type is appended
     * (id `randomId`) and placement mode ends.
     */
    method PlaceTower(x: real, y: real, randomId: string) returns (placed: Option<PlacedTower>)
      requires Valid()
      modifies this`towers, this`selectedTowerType, this`isPlacingTower
      ensures Valid()
      ensures old(selectedTowerType).None? || !old(IsValidPlacement(x, y)) ==>
                placed == None && unchanged(this)
      ensures old(selectedTowerType).Some? && old(IsValidPlacement(x, y)) ==>
                var kind := old(selectedTowerType).value;
                && placed == Some(PlacedTower(randomId, x, y, kind))
                && towers == old(towers) + [MakeTower(randomId, x, y, kind)]
                && selectedTowerType == None && !isPlacingTower
    {
      if selectedTowerType.None? {
        return None;
      }
      if IsValidPlacement(x, y) {
        var kind := selectedTowerType.value;
        towers := towers + [MakeTower(randomId, x, y, kind)];
        isPlacingTower := false;
        selectedTowerType := None;
        return Some(PlacedTower(randomId, x, y, kind));
      }
      return None;
    }

    /** addRemoteTower: append the peer's tower with its type's stats, without any check. */
    method AddRemoteTower(pt: PlacedTower)
      requires Valid()
      modifies this`towers
      ensures Valid() && towers == old(towers) + [MakeTower(pt.id, pt.x, pt.y, pt.kind)]
    {
      towers := towers + [MakeTower(pt.id, pt.x, pt.y, pt.kind)];
    }
  }
}
