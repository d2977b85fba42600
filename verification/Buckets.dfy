/** Context buckets: the ladder of upper bounds, the schedules built for them and shared
    between them, and the choice of one at launch (decode/schedule.py). */
module Buckets {
  import opened Wrappers
  import opened Arithmetic
  import opened Machine
  import opened Schedule
  import opened Splits

  // ---- powers of two ----

  function Pow2(k: nat): (p: nat)
    ensures p >= 1
  {
    if k == 0 then 1 else 2 * Pow2(k - 1)
  }

  /** int.bit_length */
  function BitLength(n: nat): nat { if n == 0 then 0 else 1 + BitLength(n / 2) }

  /** _next_power_of_two */
  function NextPowerOfTwo(n: nat): nat
    requires n >= 1
  {
    var p := Pow2(BitLength(n - 1));
    if p == n then 2 * p else p
  }

  lemma {:induction false} BitLengthBounds(n: nat)
    ensures n < Pow2(BitLength(n))
    ensures n > 0 ==> Pow2(BitLength(n)) <= 2 * n
  {
    if n > 0 { BitLengthBounds(n / 2); }
  }

  lemma {:induction false} Pow2Grows(a: nat, b: nat)
    requires a <= b
    ensures Pow2(a) <= Pow2(b)
  {
    if a < b { Pow2Grows(a, b - 1); }
  }

  lemma NextBounds(n: nat)
    requires n >= 1
    ensures n < NextPowerOfTwo(n) <= 2 * n
  {
    BitLengthBounds(n - 1);
  }

  lemma NotBetween(b: nat, k: nat)
    ensures k < b ==> 2 * Pow2(k) <= Pow2(b)
    ensures k > b ==> 2 * Pow2(b) <= Pow2(k)
  {
    if k < b { Pow2Grows(k + 1, b); }
    if k > b { Pow2Grows(b + 1, k); }
  }

  /** It is a power of two, and the least one above n. */
  lemma NextIsLeastAbove(n: nat, k: nat)
    requires n >= 1
    ensures NextPowerOfTwo(n) == Pow2(BitLength(n - 1)) || NextPowerOfTwo(n) == Pow2(BitLength(n - 1) + 1)
    ensures NextPowerOfTwo(n) > n && (Pow2(k) > n ==> Pow2(k) >= NextPowerOfTwo(n))
  {
    var b := BitLength(n - 1);
    NextBounds(n);
    BitLengthBounds(n - 1);
    NotBetween(b, k);
  }

  // ---- the ladder ----

  const FIRST: nat := 1024
  const STEP: nat := 4096

  datatype RangeError = BadRange | Closed | OutOfRange | NotCovered

  /** _nmc_context_bucket_upper: the smallest 1024 * 2^i that covers the length. */
  method BucketUpper(contextLen: int) returns (r: Result<nat, RangeError>)
    ensures r.Ok? <==> contextLen > 0
    ensures r.Ok? ==> LeastBucket(contextLen, r.value)
  {
    if contextLen <= 0 { return Err(BadRange); }
    var upper := FIRST;
    ghost var i := 0;
    assert IsBucket(0, upper);
    while upper < contextLen
      invariant IsBucket(i, upper) && TooSmall(i, contextLen)
      decreases contextLen - upper
    {
      upper := upper * 2;
      i := i + 1;
    }
    r := Ok(upper);
  }

  /** The buckets below the i-th do not cover the length. */
  ghost predicate TooSmall(i: nat, contextLen: int) {
    forall j: nat :: j < i ==> FIRST * Pow2(j) < contextLen
  }

  /** The least 1024 * 2^i that covers the length. */
  ghost predicate LeastBucket(contextLen: int, upper: nat) {
    contextLen <= upper && exists i: nat :: IsBucket(i, upper) && TooSmall(i, contextLen)
  }

  predicate IsBucket(i: nat, upper: nat) { upper == FIRST * Pow2(i) }

  function NextUpper(upper: nat): (n: nat)
    requires upper >= 1
    ensures n > upper
  {
    NextBounds(upper);
    if NextPowerOfTwo(upper) < upper + STEP then NextPowerOfTwo(upper) else upper + STEP
  }

  function Ladder(upper: nat, max: nat): (r: seq<nat>)
    requires upper >= 1
    ensures r != [] && r[0] == upper
    decreases max - upper
  {
    if upper >= max then [upper] else [upper] + Ladder(NextUpper(upper), max)
  }

  predicate Climbs(r: seq<nat>) { forall i, j :: 0 <= i < j < |r| ==> r[i] < r[j] }

  lemma ClimbsFrom(x: nat, rest: seq<nat>)
    requires Climbs(rest) && (rest != [] ==> x < rest[0])
    ensures Climbs([x] + rest)
  {
    var r := [x] + rest;
    forall i, j | 0 <= i < j < |r| ensures r[i] < r[j] {
      if i == 0 && j > 1 { assert rest[0] < rest[j - 1]; }
    }
  }

  lemma OneRung(x: nat)
    ensures Climbs([x])
  {
  }

  /** Strictly increasing, and only its last rung reaches the top. */
  lemma {:induction false} LadderClimbs(upper: nat, max: nat)
    requires upper >= 1
    ensures Climbs(Ladder(upper, max))
    ensures forall i :: 0 <= i < |Ladder(upper, max)| - 1 ==> Ladder(upper, max)[i] < max
    ensures max <= Ladder(upper, max)[|Ladder(upper, max)| - 1]
    decreases max - upper
  {
    hide Climbs;
    hide NextUpper;
    if upper < max {
      LadderClimbs(NextUpper(upper), max);
      ClimbsFrom(upper, Ladder(NextUpper(upper), max));
    } else {
      OneRung(upper);
    }
  }

  /** The rung after u: no more than 4096 further and no further than any power of two above
      u, and one of these itself. */
  ghost predicate NextRung(u: nat, v: nat) {
    && u < v <= u + 4096 && (forall k: nat :: Pow2(k) > u ==> v <= Pow2(k))
    && (v == u + 4096 || exists k: nat :: v == Pow2(k))
  }

  lemma UpperIsNextRung(u: nat)
    requires u >= 1
    ensures NextRung(u, NextUpper(u))
  {
    forall k: nat | Pow2(k) > u ensures NextUpper(u) <= Pow2(k) { NextIsLeastAbove(u, k); }
    NextIsLeastAbove(u, 0);
  }

  ghost predicate Rungs(r: seq<nat>) {
    forall i, j :: 0 <= i < j < |r| && j == i + 1 ==> NextRung(r[i], r[j])
  }

  /** Every rung follows the one before. */
  lemma {:induction false} LadderRungs(upper: nat, max: nat)
    requires upper >= 1
    ensures Rungs(Ladder(upper, max))
    decreases max - upper
  {
    hide NextRung;
    hide NextUpper;
    if upper < max {
      LadderRungs(NextUpper(upper), max);
      UpperIsNextRung(upper);
      var rest := Ladder(NextUpper(upper), max);
      var r := [upper] + rest;
      forall i, j | 0 <= i < j < |r| && j == i + 1 ensures NextRung(r[i], r[j]) {
        if i == 0 { assert r[1] == rest[0]; } else { assert NextRung(rest[i - 1], rest[j - 1]); }
      }
    }
  }

  /** _nmc_context_bucket_uppers */
  method BucketUppers(min: int, max: int) returns (r: Result<seq<nat>, RangeError>)
    ensures r.Ok? <==> 0 < min <= max
    ensures r.Ok? ==> r.value != [] && LeastBucket(min, r.value[0]) && r.value == Ladder(r.value[0], max)
  {
    hide NextUpper;
    if min <= 0 || max < min { return Err(BadRange); }
    var start := BucketUpper(min);
    var upper := start.value;
    var out: seq<nat> := [];
    while true
      invariant upper >= 1 && out + Ladder(upper, max) == Ladder(start.value, max)
      decreases max - upper
    {
      out := out + [upper];
      if upper >= max {
        assert out == Ladder(start.value, max);
        return Ok(out);
      }
      assert out + Ladder(NextUpper(upper), max) == out[..|out| - 1] + Ladder(upper, max);
      upper := NextUpper(upper);
    }
  }

  // ---- schedules ----

  datatype Config = Config(base: Shape, policy: Policy, sliding: seq<bool>, left: nat, drain: bool)

  predicate ConfigOk(c: Config) {
    && ShapeOk(c.base) && |c.sliding| == c.base.layers
    && (forall l :: 0 <= l < c.base.layers ==> c.base.drain[l] == (c.drain && !c.sliding[l]))
    && (forall l :: 0 <= l < c.base.layers ==> c.base.window[l] == if c.sliding[l] then c.left else 0)
  }

  /** Whether the policy is refused does not depend on the length or the window. */
  predicate Accepts(p: Policy) { ChooseSplits(p, 0, 0).Ok? }

  function Chosen(p: Policy, n: int, window: nat): (k: nat)
    requires Accepts(p)
    ensures k >= 1
  {
    assert ChooseSplits(p, n, window).Ok?;
    ChooseSplits(p, n, window).value
  }

  /** The shape a fresh build at length n schedules. Drained layers bake no split count. */
  function ShapeAt(c: Config, n: nat): (s: Shape)
    requires ConfigOk(c) && Accepts(c.policy)
    ensures ShapeOk(s)
  {
    c.base.(splits := seq(c.base.layers, l requires 0 <= l < c.base.layers =>
      if c.base.drain[l] then 1 else Chosen(c.policy, n, c.base.window[l])))
  }

  predicate HasSliding(c: Config) { exists l :: 0 <= l < |c.sliding| && c.sliding[l] }

  /** What two buckets must agree on to share a schedule. */
  function DedupKey(c: Config, n: nat): seq<nat>
    requires Accepts(c.policy)
  {
    var window := if HasSliding(c) then [Chosen(c.policy, n, c.left)] else [];
    if c.drain then window else [Chosen(c.policy, n, 0)] + window
  }

  /** Buckets with the same key are scheduled alike. */
  lemma SameKeySameShape(c: Config, a: nat, b: nat)
    requires ConfigOk(c) && Accepts(c.policy) && DedupKey(c, a) == DedupKey(c, b)
    ensures ShapeAt(c, a) == ShapeAt(c, b)
  {
    var x, y := ShapeAt(c, a), ShapeAt(c, b);
    var ka, kb := DedupKey(c, a), DedupKey(c, b);
    forall l | 0 <= l < c.base.layers ensures x.splits[l] == y.splits[l] {
      if c.sliding[l] {
        assert HasSliding(c);
        assert ka[|ka| - 1] == Chosen(c.policy, a, c.left) && kb[|kb| - 1] == Chosen(c.policy, b, c.left);
      } else if !c.drain {
        assert ka[0] == Chosen(c.policy, a, 0) && kb[0] == Chosen(c.policy, b, 0);
      }
    }
    assert x.splits == y.splits;
  }

  datatype Variant<S> = Variant(upper: nat, key: seq<nat>, schedule: S)

  /** What building for this very bucket would have given. */
  predicate Fresh<S(==)>(c: Config, place: seq<seq<Inst>> -> S, v: Variant<S>)
    requires ConfigOk(c) && Accepts(c.policy)
  {
    v.key == DedupKey(c, v.upper) && v.schedule == place(AllWaves(ShapeAt(c, v.upper)))
  }

  /** build_nmc_rr_decode_variant_registry. However buckets share, each one holds the
      schedule that would have been built for it alone. */
  method BuildRegistry<S(==)>(c: Config, min: int, max: int, place: seq<seq<Inst>> -> S)
    returns (r: Result<seq<Variant<S>>, RangeError>)
    requires ConfigOk(c) && Accepts(c.policy)
    ensures r.Ok? <==> 0 < min <= max
    ensures r.Ok? ==> exists first: nat :: LeastBucket(min, first) && Uppers(r.value) == Ladder(first, max)
    ensures r.Ok? ==> forall i :: 0 <= i < |r.value| ==> Fresh(c, place, r.value[i])
  {
    hide AllWaves;
    hide DedupKey;
    hide ShapeAt;
    hide ShapeOk;
    hide Ladder;
    hide LeastBucket;
    var uppers := BucketUppers(min, max);
    if uppers.Err? { return Err(uppers.error); }
    var ladder := uppers.value;
    var schedules: map<seq<nat>, S> := map[];
    ghost var builtAt: map<seq<nat>, nat> := map[];
    var variants: seq<Variant<S>> := [];
    for i := 0 to |ladder|
      invariant Uppers(variants) == ladder[..i]
      invariant forall j :: 0 <= j < |variants| ==> Fresh(c, place, variants[j])
      invariant builtAt.Keys == schedules.Keys
      invariant forall key :: key in schedules ==> Fresh(c, place, Variant(builtAt[key], key, schedules[key]))
    {
      var upper := ladder[i];
      var key := DedupKey(c, upper);
      if key !in schedules {
        schedules := schedules[key := place(AllWaves(ShapeAt(c, upper)))];
        builtAt := builtAt[key := upper];
      }
      assert Fresh(c, place, Variant(builtAt[key], key, schedules[key]));
      SameKeySameShape(c, builtAt[key], upper);
      variants := variants + [Variant(upper, key, schedules[key])];
    }
    assert ladder[..|ladder|] == ladder;
    r := Ok(variants);
  }

  function Uppers<S>(variants: seq<Variant<S>>): seq<nat> {
    seq(|variants|, i requires 0 <= i < |variants| => variants[i].upper)
  }

  /** NmcDecodeVariantRegistry.select: the least bucket that covers the context. */
  method Select<S(==)>(variants: seq<Variant<S>>, min: int, max: int, closed: bool, contextLen: int)
    returns (r: Result<nat, RangeError>)
    requires Climbs(Uppers(variants))
    ensures r.Ok? ==> !closed && min <= contextLen <= max && r.value < |variants| && contextLen <= variants[r.value].upper
    ensures r.Ok? ==> forall i :: 0 <= i < |variants| && contextLen <= variants[i].upper ==>
      variants[r.value].upper <= variants[i].upper
    ensures !closed && min <= contextLen <= max && variants != [] && max <= variants[|variants| - 1].upper ==> r.Ok?
  {
    if closed { return Err(Closed); }
    if contextLen < min || contextLen > max { return Err(OutOfRange); }
    for i := 0 to |variants|
      invariant forall j :: 0 <= j < i ==> variants[j].upper < contextLen
    {
      if contextLen <= variants[i].upper {
        forall j | i < j < |variants| ensures variants[i].upper <= variants[j].upper {
          assert Uppers(variants)[i] < Uppers(variants)[j];
        }
        return Ok(i);
      }
    }
    r := Err(NotCovered);
  }

  /** The registry and the choice together: every context of the range is served by its own
      bucket's schedule, which splits no layer less than the context alone would. */
  method Serve<S(==)>(c: Config, min: int, max: int, place: seq<seq<Inst>> -> S, contextLen: int)
    returns (v: Variant<S>)
    requires ConfigOk(c) && Accepts(c.policy) && 0 < min <= contextLen <= max
    ensures exists first: nat :: LeastBucket(min, first) && LeastRung(Ladder(first, max), contextLen, v.upper)
    ensures v.schedule == place(AllWaves(ShapeAt(c, v.upper)))
    ensures forall l :: 0 <= l < c.base.layers ==>
      ShapeAt(c, contextLen).splits[l] <= ShapeAt(c, v.upper).splits[l]
  {
    hide AllWaves;
    hide DedupKey;
    hide ShapeOk;
    hide Ladder;
    hide ShapeAt;
    var built := BuildRegistry(c, min, max, place);
    var variants := built.value;
    ghost var first: nat :| LeastBucket(min, first) && Uppers(variants) == Ladder(first, max);
    LadderClimbs(first, max);
    assert Uppers(variants)[|variants| - 1] == variants[|variants| - 1].upper;
    var chosen := Select(variants, min, max, false, contextLen);
    v := variants[chosen.value];
    assert v.upper == Ladder(first, max)[chosen.value];
    forall u | u in Ladder(first, max) && contextLen <= u ensures v.upper <= u {
      var j :| 0 <= j < |variants| && Uppers(variants)[j] == u;
    }
    SplitsGrow(c, contextLen, v.upper);
  }

  /** The least bucket of the ladder that covers the context. */
  predicate LeastRung(ladder: seq<nat>, contextLen: int, upper: nat) {
    upper in ladder && contextLen <= upper && forall u :: u in ladder && contextLen <= u ==> upper <= u
  }

  lemma SplitsGrow(c: Config, a: nat, b: nat)
    requires ConfigOk(c) && Accepts(c.policy) && a <= b
    ensures |ShapeAt(c, a).splits| == |ShapeAt(c, b).splits| == c.base.layers
    ensures forall l :: 0 <= l < c.base.layers ==> ShapeAt(c, a).splits[l] <= ShapeAt(c, b).splits[l]
  {
    forall l | 0 <= l < c.base.layers ensures ShapeAt(c, a).splits[l] <= ShapeAt(c, b).splits[l] {
      ChooseGrows(c.policy, a, b, c.base.window[l]);
    }
  }
}
