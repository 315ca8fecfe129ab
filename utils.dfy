/**
 * src/utils.ts: the numeric helpers `clamp` and `lerp`, and the memo cache
 * behind `loadBackground`.  JavaScript numbers are modelled as reals.
 */
module Utils {

  function Max(a: real, b: real): real { if a >= b then a else b }

  function Min(a: real, b: real): real { if a <= b then a else b }

  function Abs(a: real): real { if a >= 0.0 then a else -a }

  /** clamp(value, min, max) = Math.min(Math.max(value, min), max). */
  function Clamp(value: real, lo: real, hi: real): (r: real)
    ensures lo <= hi ==> lo <= r <= hi
    ensures lo <= value <= hi ==> r == value
    ensures hi < lo ==> r == hi
  {
    Min(Max(value, lo), hi)
  }

  /** Clamping twice is clamping once. */
  lemma ClampIdempotent(value: real, lo: real, hi: real)
    ensures Clamp(Clamp(value, lo, hi), lo, hi) == Clamp(value, lo, hi)
  {
  }

  /** lerp(start, end, t) = start * (1 - t) + end * t. */
  function Lerp(start: real, end: real, t: real): (r: real)
    ensures t == 0.0 ==> r == start
    ensures t == 1.0 ==> r == end
    ensures r == start + (end - start) * t
  {
    start * (1.0 - t) + end * t
  }

  /** Lerp with a factor in [0, 1] stays between its two end points. */
  lemma LerpBetween(start: real, end: real, t: real)
    requires 0.0 <= t <= 1.0
    ensures Min(start, end) <= Lerp(start, end, t) <= Max(start, end)
  {
    var r := Lerp(start, end, t);
    var d := end - start;
    var dt := d * t;
    assert r == start + dt;
    if d >= 0.0 {
      MulBounds(d, t);
      assert 0.0 <= dt <= d;
    } else {
      MulBounds(-d, t);
      assert -d * t == -dt;
      assert d <= dt <= 0.0;
    }
  }

  lemma MulBounds(d: real, t: real)
    requires 0.0 <= d && 0.0 <= t <= 1.0
    ensures 0.0 <= d * t <= d
  {
    assert d * t <= d * 1.0;
  }

  /** Stands for the Promise<HTMLImageElement> that one started image load yields. */
  type LoadHandle = nat

  /**
   * The module-level `backgroundCache` dictionary.  `started` records, in order,
   * the names for which a load was actually started.
   */
  class BackgroundCache {
    var cache: map<string, LoadHandle>
    ghost var started: seq<string>

    ghost predicate Valid()
      reads this
    {
      && (forall i, j :: 0 <= i < j < |started| ==> started[i] != started[j])
      && (forall n :: n in cache <==> n in started)
    }

    constructor ()
      ensures Valid() && cache == map[] && started == []
    {
      cache := map[];
      started := [];
    }

    /**
     * loadBackground(name): a name already requested gets its stored entry back;
     * otherwise `newLoad` (the newly started load) is stored and returned.
     */
    method LoadBackground(name: string, newLoad: LoadHandle) returns (p: LoadHandle)
      requires Valid()
      modifies this
      ensures Valid()
      ensures name in old(cache) ==> p == old(cache)[name] && cache == old(cache) && started == old(started)
      ensures name !in old(cache) ==>
                p == newLoad && cache == old(cache)[name := newLoad] && started == old(started) + [name]
    {
      if name in cache {
        p := cache[name];
        return;
      }
      cache := cache[name := newLoad];
      started := started + [name];
      p := cache[name];
    }
  }
}
