/**
 * src/enemies.ts: enemy kinds and their stats, the three round configurations,
 * the enemy path, the Enemy record and the EnemyManager round scheduler.
 *
 * Timers, randomness and the network reference are replaced by explicit inputs
 * and outputs: the spawn timer's firing is the method SpawnTick, the random
 * enemy id and kind index are parameters, and what the manager would hand to
 * the network (a round_start notice, an enemy snapshot) is returned to the
 * caller, which forwards it to the NetworkManager.
 */
module Enemies {
  import opened Wrappers
  import Utils

  /** GAME_WIDTH and GAME_HEIGHT of src/main.ts, the world the path is scaled to. */
  const GameWidth: real := 1920.0
  const GameHeight: real := 1080.0

  datatype EnemyType = Basic | Fast | Tank

  datatype EnemyConfig = EnemyConfig(health: real, speed: real, damage: real, size: real)

  /** ENEMY_CONFIGS (the drawing colour is left out). */
  function Config(kind: EnemyType): (c: EnemyConfig)
    ensures c.health > 0.0 && c.speed > 0.0
  {
    match kind
    case Basic => EnemyConfig(100.0, 0.5, 10.0, 20.0)
    case Fast => EnemyConfig(75.0, 1.0, 5.0, 15.0)
    case Tank => EnemyConfig(250.0, 0.25, 20.0, 30.0)
  }

  datatype RoundConfig = RoundConfig(enemyCount: nat, enemyTypes: seq<EnemyType>, spawnInterval: nat)

  /** ROUND_CONFIGS. */
  const Rounds: seq<RoundConfig> := [
    RoundConfig(5, [Basic], 2000),
    RoundConfig(8, [Basic, Fast], 1800),
    RoundConfig(12, [Basic, Fast, Tank], 1500)
  ]

  // ---------------------------------------------------------------- the path

  datatype Point = Point(x: real, y: real)

  /** PATH_POINTS, in normalized coordinates. */
  const PathPoints: seq<Point> := [
    Point(0.0, 0.5), Point(0.3, 0.5), Point(0.3, 0.2),
    Point(0.7, 0.2), Point(0.7, 0.8), Point(1.2, 0.8)
  ]

  /** Waypoint k scaled to world size. */
  function Waypoint(k: nat): Point
    requires k < |PathPoints|
  {
    Point(PathPoints[k].x * GameWidth, PathPoints[k].y * GameHeight)
  }

  /**
   * getPositionAlongPath: progress is clamped to [0, 1]; 1 gives the last
   * waypoint; otherwise the point is interpolated on segment floor(5 p) by the
   * fractional part of 5 p.
   */
  function PositionAlongPath(progress: real): (pos: Point)
    ensures progress <= 0.0 ==> pos == Waypoint(0)
    ensures progress >= 1.0 ==> pos == Waypoint(5)
  {
    var p := Utils.Max(0.0, Utils.Min(1.0, progress));
    if p >= 1.0 then
      Waypoint(5)
    else
      var scaled := p * 5.0;
      var seg := scaled.Floor;
      var t := scaled - seg as real;
      var a := PathPoints[seg];
      var b := PathPoints[seg + 1];
      Point((a.x + (b.x - a.x) * t) * GameWidth, (a.y + (b.y - a.y) * t) * GameHeight)
  }

  /** Progress k/5 lands exactly on waypoint k. */
  lemma PathAtWaypoint(k: nat)
    requires k < |PathPoints|
    ensures PositionAlongPath(k as real / 5.0) == Waypoint(k)
  {
    var p := k as real / 5.0;
    if k < 5 {
      assert p * 5.0 == k as real;
      assert (p * 5.0).Floor == k;
    }
  }

  /**
   * Inside the path, the position is Waypoint(k) + t * (Waypoint(k+1) - Waypoint(k))
   * on segment k = floor(5 p), with 0 <= t < 1: each coordinate lies between
   * the two ends of the segment the progress falls in.
   */
  lemma PathOnSegment(progress: real)
    requires 0.0 <= progress < 1.0
    ensures var k := (progress * 5.0).Floor;
            0 <= k < 5 &&
            Utils.Min(Waypoint(k).x, Waypoint(k + 1).x) <= PositionAlongPath(progress).x
              <= Utils.Max(Waypoint(k).x, Waypoint(k + 1).x) &&
            Utils.Min(Waypoint(k).y, Waypoint(k + 1).y) <= PositionAlongPath(progress).y
              <= Utils.Max(Waypoint(k).y, Waypoint(k + 1).y)
  {
    var k := (progress * 5.0).Floor;
    var t := progress * 5.0 - k as real;
    var a, b := PathPoints[k], PathPoints[k + 1];
    var pos := PositionAlongPath(progress);
    assert pos.x == Utils.Lerp(a.x, b.x, t) * GameWidth;
    assert pos.y == Utils.Lerp(a.y, b.y, t) * GameHeight;
    Utils.LerpBetween(a.x, b.x, t);
    Utils.LerpBetween(a.y, b.y, t);
  }

  /** The point segment k's interpolation gives for progress p. */
  function SegmentPoint(k: nat, p: real): Point
    requires k < 5
  {
    var t := p * 5.0 - k as real;
    var a, b := PathPoints[k], PathPoints[k + 1];
    Point((a.x + (b.x - a.x) * t) * GameWidth, (a.y + (b.y - a.y) * t) * GameHeight)
  }

  /** Inside segment k (its far end excluded) the path follows segment k's interpolation. */
  lemma OnSegmentInterior(k: nat, p: real)
    requires k < 5 && k as real / 5.0 <= p && p * 5.0 < (k + 1) as real
    ensures PositionAlongPath(p) == SegmentPoint(k, p)
  {
    assert 0.0 <= p < 1.0;
    assert Utils.Max(0.0, Utils.Min(1.0, p)) == p;
    assert (p * 5.0).Floor == k;
  }

  /** Across the whole closed segment k, including its far end, the path
      follows segment k's interpolation. */
  lemma OnSegment(k: nat, p: real)
    requires k < 5 && k as real / 5.0 <= p <= (k + 1) as real / 5.0
    ensures PositionAlongPath(p) == SegmentPoint(k, p)
  {
    if p * 5.0 < (k + 1) as real {
      OnSegmentInterior(k, p);
    } else {
      assert p == (k + 1) as real / 5.0;
      PathAtWaypoint(k + 1);
      assert p * 5.0 - k as real == 1.0;
    }
  }

  /** Moving the interpolation factor scales the coordinate change by the segment's extent. */
  lemma LerpDiff(a: real, d: real, tp: real, tq: real, scale: real)
    ensures (a + d * tq) * scale - (a + d * tp) * scale == d * ((tq - tp) * scale)
  {
  }

  /** A factor of size at most `bound` scales a non-negative amount to at most `bound` times it. */
  lemma ScaledBound(d: real, bound: real, c: real)
    requires Utils.Abs(d) <= bound && c >= 0.0
    ensures Utils.Abs(d * c) <= bound * c
  {
    if d >= 0.0 {
      assert (bound - d) * c >= 0.0;
    } else {
      assert (bound + d) * c >= 0.0;
    }
  }

  /** No segment spans more than half the world's width or 0.6 of its height. */
  lemma SegmentExtent(k: nat)
    requires k < 5
    ensures Utils.Abs(PathPoints[k + 1].x - PathPoints[k].x) <= 0.5
    ensures Utils.Abs(PathPoints[k + 1].y - PathPoints[k].y) <= 0.6
  {
  }

  /** One coordinate of a segment: a segment extent of at most `bound` moves
      the coordinate at most 5 * bound * scale per unit of progress. */
  lemma CoordLipschitz(a: real, d: real, bound: real, scale: real, k: real, p: real, q: real)
    requires Utils.Abs(d) <= bound && scale > 0.0 && p <= q
    ensures Utils.Abs((a + d * (q * 5.0 - k)) * scale - (a + d * (p * 5.0 - k)) * scale)
              <= 5.0 * bound * scale * (q - p)
  {
    var tp, tq := p * 5.0 - k, q * 5.0 - k;
    LerpDiff(a, d, tp, tq, scale);
    var c := (tq - tp) * scale;
    assert c == 5.0 * ((q - p) * scale);
    assert (q - p) * scale >= 0.0;
    ScaledBound(d, bound, c);
  }

  /** Inside one segment the position moves at most 2.5 world widths and
      3 world heights per unit of progress (the steepest segments). */
  lemma SegmentLipschitz(k: nat, p: real, q: real)
    requires k < 5 && k as real / 5.0 <= p <= q <= (k + 1) as real / 5.0
    ensures Utils.Abs(PositionAlongPath(q).x - PositionAlongPath(p).x) <= 2.5 * GameWidth * (q - p)
    ensures Utils.Abs(PositionAlongPath(q).y - PositionAlongPath(p).y) <= 3.0 * GameHeight * (q - p)
  {
    OnSegment(k, p);
    OnSegment(k, q);
    SegmentPointLipschitz(k, p, q);
  }

  /** The same bound for segment k's interpolation itself. */
  lemma SegmentPointLipschitz(k: nat, p: real, q: real)
    requires k < 5 && p <= q
    ensures Utils.Abs(SegmentPoint(k, q).x - SegmentPoint(k, p).x) <= 2.5 * GameWidth * (q - p)
    ensures Utils.Abs(SegmentPoint(k, q).y - SegmentPoint(k, p).y) <= 3.0 * GameHeight * (q - p)
  {
    var a, b := PathPoints[k], PathPoints[k + 1];
    SegmentExtent(k);
    CoordLipschitz(a.x, b.x - a.x, 0.5, GameWidth, k as real, p, q);
    CoordLipschitz(a.y, b.y - a.y, 0.6, GameHeight, k as real, p, q);
  }

  /**
   * The path position is continuous in the progress: between any two
   * progress values in [0, 1] it moves at most 2.5 world widths and 3 world
   * heights per unit of progress.
   */
  lemma {:induction false} PathLipschitz(p: real, q: real)
    requires 0.0 <= p <= q <= 1.0
    ensures Utils.Abs(PositionAlongPath(q).x - PositionAlongPath(p).x) <= 2.5 * GameWidth * (q - p)
    ensures Utils.Abs(PositionAlongPath(q).y - PositionAlongPath(p).y) <= 3.0 * GameHeight * (q - p)
    decreases 5 - (p * 5.0).Floor
  {
    if p < 1.0 {
      var k := (p * 5.0).Floor;
      var m := (k + 1) as real / 5.0;
      if q <= m {
        SegmentLipschitz(k, p, q);
      } else {
        SegmentLipschitz(k, p, m);
        assert (m * 5.0).Floor == k + 1;
        PathLipschitz(m, q);
      }
    }
  }

  // ---------------------------------------------------------------- enemies

  /** An Enemy (its colour and the unused nearbyEnemies list are left out). */
  datatype Enemy = Enemy(
    id: string, kind: EnemyType, x: real, y: real,
    health: real, maxHealth: real, speed: real, damage: real, size: real,
    pathProgress: real)

  /**
   * new Enemy(type, x, y, config, id): an empty or missing id is replaced by
   * `randomId` (the source draws it from Math.random); full health, progress 0.
   */
  function NewEnemy(kind: EnemyType, x: real, y: real, id: string, randomId: string): (e: Enemy)
    ensures e.id == (if id != "" then id else randomId)
    ensures e.kind == kind && e.x == x && e.y == y && e.pathProgress == 0.0
    ensures e.health == e.maxHealth == Config(kind).health && e.speed == Config(kind).speed
  {
    var c := Config(kind);
    Enemy(if id != "" then id else randomId, kind, x, y, c.health, c.health, c.speed, c.damage, c.size, 0.0)
  }

  /** takeDamage: health becomes max(0, health - amount); nothing else changes. */
  function TakeDamage(e: Enemy, amount: real): (r: Enemy)
    ensures r.health >= 0.0
    ensures amount >= 0.0 && e.health >= 0.0 ==> r.health <= e.health
    ensures e.health < 0.0 && amount >= 0.0 ==> r.health == 0.0
    ensures e.health - amount >= 0.0 ==> r.health == e.health - amount
    ensures e.health - amount < 0.0 ==> r.health == 0.0
    ensures r == e.(health := r.health)
  {
    e.(health := Utils.Max(0.0, e.health - amount))
  }

  /** The payload of toNetworkData(). */
  datatype EnemyData = EnemyData(id: string, kind: EnemyType, x: real, y: real, health: real, pathProgress: real)

  function ToNetworkData(e: Enemy): (d: EnemyData)
    ensures d.id == e.id && d.kind == e.kind && d.x == e.x && d.y == e.y
    ensures d.health == e.health && d.pathProgress == e.pathProgress
  {
    EnemyData(e.id, e.kind, e.x, e.y, e.health, e.pathProgress)
  }

  /** enemies.map(enemy => enemy.toNetworkData()). */
  function Snapshot(es: seq<Enemy>): (s: seq<EnemyData>)
    ensures |s| == |es| && forall i :: 0 <= i < |es| ==> s[i] == ToNetworkData(es[i])
  {
    seq(|es|, i requires 0 <= i < |es| => ToNetworkData(es[i]))
  }

  // ------------------------------------------------ one tick of enemy motion

  /** pathProgress += speed / 1000, then (x, y) is recomputed from the path. */
  function Advance(e: Enemy): (r: Enemy)
    ensures r.pathProgress == e.pathProgress + e.speed / 1000.0
    ensures Point(r.x, r.y) == PositionAlongPath(r.pathProgress)
    ensures r == e.(x := r.x, y := r.y, pathProgress := r.pathProgress)
  {
    var p := e.pathProgress + e.speed / 1000.0;
    var pos := PositionAlongPath(p);
    e.(pathProgress := p, x := pos.x, y := pos.y)
  }

  /** Kept by the update filter: alive, and still short of the path end after moving. */
  predicate Survives(e: Enemy)
  {
    e.health > 0.0 && Advance(e).pathProgress < 1.0
  }

  /** Removed at the path end, costing a life. */
  predicate Escapes(e: Enemy)
  {
    e.health > 0.0 && Advance(e).pathProgress >= 1.0
  }

  /** The enemies the update filter keeps, advanced, in list order. */
  function Survivors(es: seq<Enemy>): seq<Enemy>
  {
    if es == [] then []
    else
      var last := es[|es| - 1];
      Survivors(es[..|es| - 1]) + (if Survives(last) then [Advance(last)] else [])
  }

  /** How many enemies reach the path end in one update. */
  function EscapeCount(es: seq<Enemy>): nat
  {
    if es == [] then 0
    else EscapeCount(es[..|es| - 1]) + (if Escapes(es[|es| - 1]) then 1 else 0)
  }

  /** How many dead enemies (health <= 0) one update drops. */
  function DeadCount(es: seq<Enemy>): nat
  {
    if es == [] then 0
    else DeadCount(es[..|es| - 1]) + (if es[|es| - 1].health <= 0.0 then 1 else 0)
  }

  /**
   * Every enemy is either dropped dead, escapes, or survives; survivors are
   * alive, short of the path end, and are the advanced form of some input enemy.
   */
  lemma {:induction false} SurvivorsSpec(es: seq<Enemy>)
    ensures |Survivors(es)| + EscapeCount(es) + DeadCount(es) == |es|
    ensures forall e :: e in Survivors(es) ==> e.health > 0.0 && e.pathProgress < 1.0
    ensures forall e :: e in Survivors(es) ==> exists i :: 0 <= i < |es| && Survives(es[i]) && e == Advance(es[i])
    ensures forall i :: 0 <= i < |es| && Survives(es[i]) ==> Advance(es[i]) in Survivors(es)
  {
    if es != [] {
      var init := es[..|es| - 1];
      var last := es[|es| - 1];
      SurvivorsSpec(init);
      assert Survivors(es) == Survivors(init) + (if Survives(last) then [Advance(last)] else []);
      forall e | e in Survivors(es)
        ensures exists i :: 0 <= i < |es| && Survives(es[i]) && e == Advance(es[i])
      {
        if e in Survivors(init) {
          var i :| 0 <= i < |init| && Survives(init[i]) && e == Advance(init[i]);
          assert es[i] == init[i];
        } else {
          assert Survives(es[|es| - 1]) && e == Advance(es[|es| - 1]);
        }
      }
      forall i | 0 <= i < |es| && Survives(es[i])
        ensures Advance(es[i]) in Survivors(es)
      {
        if i < |es| - 1 {
          assert es[i] == init[i];
        }
      }
    }
  }

  /** When every enemy escapes, every one of them costs a life. */
  lemma {:induction false} AllEscape(es: seq<Enemy>)
    requires forall e :: e in es ==> Escapes(e)
    ensures EscapeCount(es) == |es| && Survivors(es) == []
  {
    if es != [] {
      assert forall e :: e in es[..|es| - 1] ==> e in es;
      AllEscape(es[..|es| - 1]);
    }
  }

  /** Dead enemies leave the list without costing a life. */
  lemma {:induction false} AllDead(es: seq<Enemy>)
    requires forall e :: e in es ==> e.health <= 0.0
    ensures EscapeCount(es) == 0 && Survivors(es) == []
  {
    if es != [] {
      assert forall e :: e in es[..|es| - 1] ==> e in es;
      AllDead(es[..|es| - 1]);
    }
  }

  /**
   * lives-- on each escape, and the round is stopped once lives <= 0: since
   * lives only falls, that happens in an update exactly when someone escaped
   * and the final count is <= 0.
   */
  predicate GameOverReached(lives: int, es: seq<Enemy>)
  {
    EscapeCount(es) > 0 && lives - EscapeCount(es) <= 0
  }

  // ------------------------------------------------------------ the rounds

  /** endRound + prepareNextRound: the round index advances, wrapping past the last config. */
  function NextRound(round: nat): (r: nat)
    requires round < |Rounds|
    ensures r < |Rounds|
    ensures round + 1 < |Rounds| ==> r == round + 1
    ensures round + 1 == |Rounds| ==> r == 0
  {
    if round + 1 >= |Rounds| then 0 else round + 1
  }

  /** Three round ends bring the index back where it started. */
  lemma RoundsCycle(round: nat)
    requires round < |Rounds|
    ensures NextRound(NextRound(NextRound(round))) == round
  {
  }

  /** The round-end condition checked after each update. */
  predicate RoundOver(active: bool, spawned: nat, round: nat, es: seq<Enemy>)
    requires round < |Rounds|
  {
    active && spawned >= Rounds[round].enemyCount && |es| == 0
  }

  // ---------------------------------------------------- guest reconciliation

  /** new Map(enemies.map(e => [e.id, e])).get(id): the LAST enemy with that id wins. */
  function FindById(es: seq<Enemy>, id: string): (r: Option<Enemy>)
    ensures r.Some? ==> r.value in es && r.value.id == id
    ensures r.None? ==> forall e :: e in es ==> e.id != id
  {
    if es == [] then None
    else if es[|es| - 1].id == id then Some(es[|es| - 1])
    else
      var r := FindById(es[..|es| - 1], id);
      assert forall e :: e in es ==> e in es[..|es| - 1] || e == es[|es| - 1];
      r
  }

  /** No two enemies share an id. */
  predicate DistinctIds(es: seq<Enemy>)
  {
    forall i, j :: 0 <= i < j < |es| ==> es[i].id != es[j].id
  }

  predicate DistinctDataIds(snap: seq<EnemyData>)
  {
    forall i, j :: 0 <= i < j < |snap| ==> snap[i].id != snap[j].id
  }

  /** With distinct ids, the lookup finds exactly the enemy at that position. */
  lemma {:induction false} FindByIdAt(es: seq<Enemy>, i: nat)
    requires DistinctIds(es) && i < |es|
    ensures FindById(es, es[i].id) == Some(es[i])
  {
    if i < |es| - 1 {
      var init := es[..|es| - 1];
      assert init[i] == es[i];
      assert DistinctIds(init);
      FindByIdAt(init, i);
    }
  }

  /** One entry of the sync: update the known enemy in place, or build a fresh one. */
  function SyncOne(es: seq<Enemy>, d: EnemyData, randomId: string): Enemy
  {
    match FindById(es, d.id)
    case Some(e) => e.(x := d.x, y := d.y, health := d.health, pathProgress := d.pathProgress)
    case None => NewEnemy(d.kind, d.x, d.y, d.id, randomId).(health := d.health, pathProgress := d.pathProgress)
  }

  /**
   * syncEnemies: the new list follows the snapshot, entry by entry; known ids
   * keep their own kind and stats and take position, health and progress from
   * the snapshot; unknown ids are built afresh; ids absent from the snapshot
   * are dropped.  randomIds[i] is the id Math.random would give entry i if its
   * id were empty.
   */
  function Reconcile(es: seq<Enemy>, snap: seq<EnemyData>, randomIds: seq<string>): (r: seq<Enemy>)
    requires |randomIds| == |snap|
    ensures |r| == |snap|
    ensures forall i :: 0 <= i < |snap| && snap[i].id != "" ==> r[i].id == snap[i].id
    ensures forall i :: 0 <= i < |snap| ==>
              r[i].x == snap[i].x && r[i].y == snap[i].y &&
              r[i].health == snap[i].health && r[i].pathProgress == snap[i].pathProgress
    ensures forall i :: 0 <= i < |snap| ==>
              match FindById(es, snap[i].id)
              case Some(e) => r[i].kind == e.kind && r[i].maxHealth == e.maxHealth && r[i].speed == e.speed
              case None => r[i].kind == snap[i].kind && r[i].maxHealth == Config(snap[i].kind).health
                             && r[i].speed == Config(snap[i].kind).speed
    ensures forall e :: e in es && (forall i :: 0 <= i < |snap| ==> snap[i].id != e.id) ==>
              forall i :: 0 <= i < |r| && snap[i].id != "" ==> r[i].id != e.id
  {
    seq(|snap|, i requires 0 <= i < |snap| => SyncOne(es, snap[i], randomIds[i]))
  }

  /**
   * Applying the same snapshot twice equals applying it once (for a snapshot
   * with distinct, non-empty ids, as the host's toNetworkData list has).
   */
  lemma ReconcileIdempotent(es: seq<Enemy>, snap: seq<EnemyData>, randomIds: seq<string>)
    requires |randomIds| == |snap|
    requires DistinctDataIds(snap) && forall i :: 0 <= i < |snap| ==> snap[i].id != ""
    ensures Reconcile(Reconcile(es, snap, randomIds), snap, randomIds) == Reconcile(es, snap, randomIds)
  {
    var once := Reconcile(es, snap, randomIds);
    var twice := Reconcile(once, snap, randomIds);
    assert DistinctIds(once);
    forall i | 0 <= i < |snap|
      ensures twice[i] == once[i]
    {
      FindByIdAt(once, i);
      assert once[i].id == snap[i].id;
    }
  }

  /**
   * Syncing the list's own toNetworkData() snapshot leaves it as it was
   * (ids distinct and non-empty).
   */
  lemma ReconcileOwnSnapshot(es: seq<Enemy>, randomIds: seq<string>)
    requires |randomIds| == |es|
    requires DistinctIds(es) && forall i :: 0 <= i < |es| ==> es[i].id != ""
    ensures Reconcile(es, Snapshot(es), randomIds) == es
  {
    var r := Reconcile(es, Snapshot(es), randomIds);
    forall i | 0 <= i < |es|
      ensures r[i] == es[i]
    {
      FindByIdAt(es, i);
    }
  }

  /** Unfolding the filter's specification by one enemy, as its loop needs. */
  lemma FilterStep(all: seq<Enemy>, i: nat, lives0: int)
    requires i < |all|
    ensures Survivors(all[..i + 1]) == Survivors(all[..i]) + (if Survives(all[i]) then [Advance(all[i])] else [])
    ensures EscapeCount(all[..i + 1]) == EscapeCount(all[..i]) + (if Escapes(all[i]) then 1 else 0)
    ensures GameOverReached(lives0, all[..i + 1]) <==>
              GameOverReached(lives0, all[..i]) || (Escapes(all[i]) && lives0 - EscapeCount(all[..i + 1]) <= 0)
  {
    assert all[..i + 1][..i] == all[..i];
  }

  // ------------------------------------------------------- the round scheduler

  /**
   * EnemyManager.  `spawnTimerActive` stands for spawnTimer !== null;
   * `hasNetwork` for a non-null network reference.
   */
  class EnemyManager {
    var currentRound: nat
    var enemies: seq<Enemy>
    var spawnTimerActive: bool
    var enemiesSpawned: nat
    var lives: int
    var isRoundActive: bool
    var isHost: bool
    var hasNetwork: bool

    /**
     * The round index stays inside ROUND_CONFIGS, a running timer implies an
     * active round, and an active round never spawns past its enemyCount.
     */
    ghost predicate Valid()
      reads this
    {
      && currentRound < |Rounds|
      && (spawnTimerActive ==> isRoundActive)
      && (isRoundActive ==> enemiesSpawned <= Rounds[currentRound].enemyCount)
    }

    constructor ()
      ensures Valid()
      ensures currentRound == 0 && enemies == [] && !spawnTimerActive && enemiesSpawned == 0
      ensures lives == 100 && !isRoundActive && !isHost && !hasNetwork
    {
      currentRound := 0;
      enemies := [];
      spawnTimerActive := false;
      enemiesSpawned := 0;
      lives := 100;
      isRoundActive := false;
      isHost := false;
      hasNetwork := false;
    }

    method SetNetwork(network: bool, host: bool)
      requires Valid()
      modifies this`hasNetwork, this`isHost
      ensures Valid() && hasNetwork == network && isHost == host
    {
      hasNetwork := network;
      isHost := host;
    }

    /**
     * startRound: a no-op while a round is active; otherwise the round becomes
     * active with no enemies spawned yet and the spawn timer running.
     * `notify` says whether sendRoundStart is called (host with a network).
     */
    method StartRound() returns (notify: bool)
      requires Valid()
      modifies this
      ensures Valid()
      ensures old(isRoundActive) ==> !notify && unchanged(this)
      ensures !old(isRoundActive) ==>
                && isRoundActive && enemiesSpawned == 0 && spawnTimerActive
                && notify == (isHost && hasNetwork)
                && currentRound == old(currentRound) && enemies == old(enemies) && lives == old(lives)
                && isHost == old(isHost) && hasNetwork == old(hasNetwork)
    {
      if isRoundActive {
        return false;
      }
      isRoundActive := true;
      enemiesSpawned := 0;
      notify := isHost && hasNetwork;
      spawnTimerActive := true;
    }

    /**
     * One firing of the spawn timer.  While enemiesSpawned < enemyCount it
     * appends one enemy of kind enemyTypes[typeIndex] at the first waypoint,
     * with id `randomId`, and counts it; otherwise it cancels the timer.  With
     * no timer running nothing fires.
     */
    method SpawnTick(typeIndex: nat, randomId: string)
      requires Valid()
      requires typeIndex < |Rounds[currentRound].enemyTypes|
      modifies this
      ensures Valid()
      ensures currentRound == old(currentRound) && lives == old(lives) && isRoundActive == old(isRoundActive)
      ensures isHost == old(isHost) && hasNetwork == old(hasNetwork)
      ensures !old(spawnTimerActive) ==> unchanged(this)
      ensures old(spawnTimerActive) && old(enemiesSpawned) < Rounds[currentRound].enemyCount ==>
                && enemies == old(enemies) + [NewEnemy(Rounds[currentRound].enemyTypes[typeIndex],
                                                       Waypoint(0).x, Waypoint(0).y, "", randomId)]
                && enemiesSpawned == old(enemiesSpawned) + 1 && spawnTimerActive
      ensures old(spawnTimerActive) && old(enemiesSpawned) >= Rounds[currentRound].enemyCount ==>
                enemies == old(enemies) && enemiesSpawned == old(enemiesSpawned) && !spawnTimerActive
    {
      if !spawnTimerActive {
        return;
      }
      var config := Rounds[currentRound];
      if enemiesSpawned < config.enemyCount {
        var kind := config.enemyTypes[typeIndex];
        var start := Waypoint(0);
        enemies := enemies + [NewEnemy(kind, start.x, start.y, "", randomId)];
        enemiesSpawned := enemiesSpawned + 1;
      } else {
        spawnTimerActive := false;
      }
    }

    /**
     * The state update() leaves when it starts from the list `before` and
     * this manager's old lives, round and flags: the survivors, the lives
     * their escapes leave, the round and timer stopped by game over, and a
     * finished round ended and advanced.  Spawn count and network flags stay.
     */
    twostate predicate Advanced(before: seq<Enemy>)
      reads this
    {
      && enemies == Survivors(before)
      && lives == old(lives) - EscapeCount(before)
      && enemiesSpawned == old(enemiesSpawned) && isHost == old(isHost) && hasNetwork == old(hasNetwork)
      && old(currentRound) < |Rounds|
      && var active := old(isRoundActive) && !GameOverReached(old(lives), before);
         var timer := old(spawnTimerActive) && !GameOverReached(old(lives), before);
         if RoundOver(active, enemiesSpawned, old(currentRound), enemies) then
           !isRoundActive && !spawnTimerActive && currentRound == NextRound(old(currentRound))
         else
           isRoundActive == active && spawnTimerActive == timer && currentRound == old(currentRound)
    }

    /**
     * update(): the filter drops dead enemies, advances the others, removes
     * those reaching the path end at a cost of one life each (stopping the
     * round and its timer once lives <= 0), then ends the round when it is
     * over.  The result is the snapshot sent to the guest (host with a
     * network), or None.
     */
    method Update() returns (sync: Option<seq<EnemyData>>)
      requires Valid()
      modifies this
      ensures Valid()
      ensures Advanced(old(enemies))
      ensures sync == if isHost && hasNetwork then Some(Snapshot(enemies)) else None
    {
      FilterEnemies();
      if isRoundActive && enemiesSpawned >= Rounds[currentRound].enemyCount && |enemies| == 0 {
        spawnTimerActive := false;
        currentRound := NextRound(currentRound);
        isRoundActive := false;
      }
      if isHost && hasNetwork {
        sync := Some(Snapshot(enemies));
      } else {
        sync := None;
      }
    }

    /**
     * The filter of update(): dead enemies are dropped, the others advance;
     * each one reaching the path end is dropped and costs a life, and the
     * round and its timer stop once lives <= 0.
     */
    method FilterEnemies()
      requires Valid()
      modifies this`enemies, this`lives, this`isRoundActive, this`spawnTimerActive
      ensures Valid()
      ensures enemies == Survivors(old(enemies))
      ensures lives == old(lives) - EscapeCount(old(enemies))
      ensures isRoundActive == (old(isRoundActive) && !GameOverReached(old(lives), old(enemies)))
      ensures spawnTimerActive == (old(spawnTimerActive) && !GameOverReached(old(lives), old(enemies)))
    {
      var all := enemies;
      var kept: seq<Enemy> := [];
      var i := 0;
      while i < |all|
        invariant 0 <= i <= |all|
        invariant kept == Survivors(all[..i])
        invariant lives == old(lives) - EscapeCount(all[..i])
        invariant isRoundActive == (old(isRoundActive) && !GameOverReached(old(lives), all[..i]))
        invariant spawnTimerActive == (old(spawnTimerActive) && !GameOverReached(old(lives), all[..i]))
      {
        FilterStep(all, i, old(lives));
        var e := all[i];
        if e.health <= 0.0 {
          // dead: dropped, lives untouched
        } else {
          var moved := Advance(e);
          if moved.pathProgress >= 1.0 {
            lives := lives - 1;
            if lives <= 0 {
              spawnTimerActive := false;
              isRoundActive := false;
            }
          } else {
            kept := kept + [moved];
          }
        }
        i := i + 1;
      }
      assert all[..|all|] == all;
      enemies := kept;
    }

    /** resetRound: round 0, no enemies, no timer, nothing spawned, no active round. */
    method ResetRound()
      requires Valid()
      modifies this
      ensures Valid()
      ensures currentRound == 0 && enemies == [] && !spawnTimerActive && enemiesSpawned == 0 && !isRoundActive
      ensures lives == old(lives) && isHost == old(isHost) && hasNetwork == old(hasNetwork)
    {
      currentRound := 0;
      enemies := [];
      spawnTimerActive := false;
      enemiesSpawned := 0;
      isRoundActive := false;
    }

    /** resetLives: lives back to 100, nothing else touched. */
    method ResetLives()
      requires Valid()
      modifies this`lives
      ensures Valid() && lives == 100
    {
      lives := 100;
    }

    /** syncEnemies: the guest's replica update rule (see Reconcile). */
    method SyncEnemies(snap: seq<EnemyData>, randomIds: seq<string>)
      requires Valid()
      requires |randomIds| == |snap|
      modifies this`enemies
      ensures Valid() && enemies == Reconcile(old(enemies), snap, randomIds)
    {
      enemies := Reconcile(enemies, snap, randomIds);
    }

    /** getCurrentRound: the 1-based round number shown to the player. */
    function GetCurrentRound(): (n: nat)
      reads this
      requires Valid()
      ensures 1 <= n <= |Rounds| && n == currentRound + 1
    {
      currentRound + 1
    }

    /** getRoundConfig. */
    function GetRoundConfig(): (c: RoundConfig)
      reads this
      requires Valid()
      ensures c in Rounds && c == Rounds[GetCurrentRound() - 1]
    {
      Rounds[currentRound]
    }
  }
}
