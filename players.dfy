// The remote-player proxy of src/players.ts: a target position received
// from the network, a displayed position that eases toward it, and a latch
// recording that a real (non-origin) position has arrived.

module Players {
  import opened Wrappers
  import Utils

  datatype PlayerStats = PlayerStats(health: real, maxHealth: real, shield: real, maxShield: real)

  /** A partial stats record: None marks a field the update does not supply. */
  datatype StatsUpdate = StatsUpdate(
    health: Option<real>, maxHealth: Option<real>, shield: Option<real>, maxShield: Option<real>)

  const InitialStats: PlayerStats := PlayerStats(100.0, 100.0, 50.0, 50.0)

  /** The object spread `{ ...stats, ...update }`. */
  function MergeStats(s: PlayerStats, u: StatsUpdate): (r: PlayerStats)
    ensures u.health.Some? ==> r.health == u.health.value
    ensures u.health.None? ==> r.health == s.health
    ensures u.maxHealth.Some? ==> r.maxHealth == u.maxHealth.value
    ensures u.maxHealth.None? ==> r.maxHealth == s.maxHealth
    ensures u.shield.Some? ==> r.shield == u.shield.value
    ensures u.shield.None? ==> r.shield == s.shield
    ensures u.maxShield.Some? ==> r.maxShield == u.maxShield.value
    ensures u.maxShield.None? ==> r.maxShield == s.maxShield
  {
    PlayerStats(
      if u.health.Some? then u.health.value else s.health,
      if u.maxHealth.Some? then u.maxHealth.value else s.maxHealth,
      if u.shield.Some? then u.shield.value else s.shield,
      if u.maxShield.Some? then u.maxShield.value else s.maxShield)
  }

  /** An empty update changes nothing, and applying an update twice is
      applying it once. */
  lemma MergeStatsLaws(s: PlayerStats, u: StatsUpdate)
    ensures MergeStats(s, StatsUpdate(None, None, None, None)) == s
    ensures MergeStats(MergeStats(s, u), u) == MergeStats(s, u)
  {
  }

  /** The player-side validity check: at least one coordinate is non-zero. */
  predicate AwayFromOrigin(x: real, y: real)
  {
    x != 0.0 || y != 0.0
  }

  /** One easing step moving `cur` the fraction `factor` of the way to `target`. */
  function Smooth(cur: real, target: real, factor: real): (r: real)
    ensures target - r == (1.0 - factor) * (target - cur)
    ensures cur == target ==> r == cur
  {
    cur + (target - cur) * factor
  }

  /** With a factor in [0,1] a step lands between the current point and the
      target, so it never overshoots and never moves away. */
  lemma SmoothApproaches(cur: real, target: real, factor: real)
    requires 0.0 <= factor <= 1.0
    ensures Utils.Min(cur, target) <= Smooth(cur, target, factor) <= Utils.Max(cur, target)
    ensures Utils.Abs(target - Smooth(cur, target, factor)) <= Utils.Abs(target - cur)
  {
    Utils.LerpBetween(cur, target, factor);
    assert Smooth(cur, target, factor) == Utils.Lerp(cur, target, factor);
  }

  function Pow(b: real, n: nat): real
  {
    if n == 0 then 1.0 else b * Pow(b, n - 1)
  }

  /** The displayed coordinate after `n` easing steps toward a fixed target. */
  function SmoothSteps(cur: real, target: real, factor: real, n: nat): real
  {
    if n == 0 then cur else Smooth(SmoothSteps(cur, target, factor, n - 1), target, factor)
  }

  /** After `n` steps the remaining distance is (1 - factor)^n of the first. */
  lemma {:induction false} SmoothStepsGap(cur: real, target: real, factor: real, n: nat)
    ensures target - SmoothSteps(cur, target, factor, n) == Pow(1.0 - factor, n) * (target - cur)
  {
    if n > 0 {
      var prev := SmoothSteps(cur, target, factor, n - 1);
      var p, q := Pow(1.0 - factor, n - 1), Pow(1.0 - factor, n);
      SmoothStepsGap(cur, target, factor, n - 1);
      assert q == (1.0 - factor) * p;
      assert SmoothSteps(cur, target, factor, n) == Smooth(prev, target, factor);
      GapStep(prev, target, factor, p, target - cur, q);
    }
  }

  /** A step from a point whose gap is p * d leaves a gap of q * d, where
      q = (1 - factor) * p. */
  lemma GapStep(prev: real, target: real, factor: real, p: real, d: real, q: real)
    requires target - prev == p * d && q == (1.0 - factor) * p
    ensures target - Smooth(prev, target, factor) == q * d
  {
    assert (1.0 - factor) * (p * d) == ((1.0 - factor) * p) * d;
  }

  class Player {
    var hasValidPosition: bool
    var stats: PlayerStats
    const id: string
    var x: real
    var y: real
    var targetX: real
    var targetY: real
    var name: string
    var shipType: string
    var angle: real

    constructor (id0: string)
      ensures id == id0 && stats == InitialStats && !hasValidPosition
      ensures x == 0.0 && y == 0.0 && targetX == 0.0 && targetY == 0.0 && angle == 0.0
      ensures name == "" && shipType == "ship1"
    {
      id := id0;
      hasValidPosition := false;
      stats := InitialStats;
      x := 0.0;
      y := 0.0;
      targetX := 0.0;
      targetY := 0.0;
      name := "";
      shipType := "ship1";
      angle := 0.0;
    }

    /** A new target; the latch closes on the first position off the origin
        and never reopens. */
    method UpdatePosition(nx: real, ny: real, nangle: real)
      modifies this`targetX, this`targetY, this`angle, this`hasValidPosition
      ensures targetX == nx && targetY == ny && angle == nangle
      ensures hasValidPosition == (old(hasValidPosition) || AwayFromOrigin(nx, ny))
    {
      targetX := nx;
      targetY := ny;
      angle := nangle;
      if !hasValidPosition && (nx != 0.0 || ny != 0.0) {
        hasValidPosition := true;
      }
    }

    /** Ease one fifth of the way toward the target, once a position is valid. */
    method Update()
      modifies this`x, this`y
      ensures hasValidPosition ==> x == Smooth(old(x), targetX, 0.2) && y == Smooth(old(y), targetY, 0.2)
      ensures !hasValidPosition ==> x == old(x) && y == old(y)
    {
      if hasValidPosition {
        x := x + (targetX - x) * 0.2;
        y := y + (targetY - y) * 0.2;
      }
    }

    method UpdateShipType(s: string)
      modifies this`shipType
      ensures shipType == s
    {
      shipType := s;
    }

    method UpdateStats(u: StatsUpdate)
      modifies this`stats
      ensures stats == MergeStats(old(stats), u)
    {
      stats := MergeStats(stats, u);
    }

    function GetStats(): PlayerStats
      reads this
    {
      stats
    }
  }
}
