/** The gate of the decode loop: before a step it counts the rows that enter a new page and
    parks unless one free block per layer is left for each (decode/runtime.cu). */
module PressureGate {
  import opened Wrappers
  import opened Arithmetic
  import opened KvModel
  import opened KvInvariant
  import opened KvOps
  import opened KvPages
  import opened KvFree
  import opened KvRuns
  import KvRebind
  import opened RowLife
  import opened RowLifeSteps
  import opened RowLifeRuns
  import opened RowLifecycle

  // ---- what one row takes ----

  lemma EnsureTakesOne(s: Sys, l: nat, r: nat, blk: nat)
    requires SysShape(s) && s.status == Done && l < s.h.geo.layers && r < s.h.geo.rows && blk < s.h.geo.pages
    ensures PageOf(s.h, l, r, blk) != -1 ==> EnsureRow(s, l, r, blk, blk + 1) == s
    ensures s.pool.free != [] ==>
      var t := EnsureRow(s, l, r, blk, blk + 1); t.status == Done && |t.pool.free| >= |s.pool.free| - 1
  {
    hide SlotAt;
    if s.pool.free != [] && PageOf(s.h, l, r, blk) == -1 {
      var got := Acquire(s.pool).value;
      var m := Put(s, got.0, SlotAt(s.h.geo, l, r, blk), got.1);
      assert EnsureLoop(m, l, r, blk + 1, blk + 1) == m;
    }
    assert EnsureLoop(s, l, r, blk + 1, blk + 1) == s;
  }

  lemma {:induction false} MappedTakesNone(s: Sys, r: nat, blk: nat, l: nat)
    requires SysShape(s) && s.status == Done && r < s.h.geo.rows && blk < s.h.geo.pages
    requires forall l': nat :: l' < s.h.geo.layers ==> PageOf(s.h, l', r, blk) != -1
    ensures DecodeEnsure(s, r, blk, l) == s
    decreases s.h.geo.layers - l
  {
    hide EnsureRow;
    if l < s.h.geo.layers {
      EnsureTakesOne(s, l, r, blk);
      MappedTakesNone(s, r, blk, l + 1);
    }
  }

  lemma {:induction false} NewPageTakesOneEach(s: Sys, r: nat, blk: nat, l: nat)
    requires SysShape(s) && s.status == Done && r < s.h.geo.rows && blk < s.h.geo.pages && l <= s.h.geo.layers
    requires |s.pool.free| >= s.h.geo.layers - l
    ensures var t := DecodeEnsure(s, r, blk, l);
      t.status == Done && |t.pool.free| >= |s.pool.free| - (s.h.geo.layers - l)
    decreases s.h.geo.layers - l
  {
    hide EnsureRow;
    if l < s.h.geo.layers {
      EnsureTakesOne(s, l, r, blk);
      NewPageTakesOneEach(EnsureRow(s, l, r, blk, blk + 1), r, blk, l + 1);
    }
  }

  // ---- eviction only gives back ----

  lemma {:induction false} EvictGivesBack(s: Sys, l: nat, r: nat, blk: nat, keep: nat)
    requires SysShape(s) && l < s.h.geo.layers && r < s.h.geo.rows && keep <= s.h.geo.pages
    ensures |EvictLoop(s, l, r, blk, keep).pool.free| >= |s.pool.free|
    decreases keep - blk
  {
    if blk < keep && s.status == Done { EvictGivesBack(DropSlot(s, SlotAt(s.h.geo, l, r, blk)), l, r, blk + 1, keep); }
  }

  lemma {:induction false} DecodeEvictGivesBack(s: Sys, r: nat, keep: int, l: nat)
    requires SysShape(s) && r < s.h.geo.rows
    ensures |DecodeEvict(s, r, keep, l).pool.free| >= |s.pool.free|
    decreases s.h.geo.layers - l
  {
    hide EvictLoop;
    if l < s.h.geo.layers && s.status == Done {
      if keep > 0 && Sliding(s.h.geo, l) {
        EvictGivesBack(s, l, r, Evicted(s.h, l, r), Least(keep, s.h.geo.pages));
      }
      DecodeEvictGivesBack(EvictBelow(s, l, r, keep), r, keep, l + 1);
    }
  }

  // ---- one row of a step ----

  predicate Enters(g: Geometry, pos: nat)
    requires g.block > 0
  {
    pos % g.block == 0
  }

  lemma InsidePage(pos: nat, block: nat, pages: nat)
    requires block > 0 && pos < pages * block
    ensures pos / block < pages
    ensures pos % block != 0 ==> (pos / block) * block < pos
  {
    QuotientBounds(pos, block);
    if pos / block >= pages { MulGrows(pages, pos / block, block); }
  }

  /** A partly written page is mapped in every layer. */
  lemma PartlyWritten(x: Life, r: nat)
    requires LifeInv(x) && r < |x.rows| && CaughtUp(x, r) && !Enters(Geo(x), |x.rows[r].tokens|)
    ensures var blk := |x.rows[r].tokens| / Geo(x).block;
      blk < Geo(x).pages && forall l: nat :: l < Geo(x).layers ==> PageOf(x.sys.h, l, r, blk) != -1
  {
    hide SysOk;
    hide EntriesOk;
    hide SlotOk;
    hide LowPage;
    hide SlotAt;
    var pos, b := |x.rows[r].tokens|, Geo(x).block;
    var blk := pos / b;
    InsidePage(pos, b, Geo(x).pages);
    forall l: nat | l < Geo(x).layers ensures PageOf(x.sys.h, l, r, blk) != -1 {
      LowIsBehind(Geo(x), l, pos);
      assert Covered(x, l, r, blk);
    }
  }

  lemma NewPageInTable(x: Life, r: nat)
    requires LifeInv(x) && r < |x.rows| && CaughtUp(x, r)
    ensures |x.rows[r].tokens| / Geo(x).block < Geo(x).pages
  {
    InsidePage(|x.rows[r].tokens|, Geo(x).block, Geo(x).pages);
  }

  lemma RowTakes(x: Life, r: nat)
    requires LifeInv(x) && x.sys.status == Done && r < |x.rows| && CaughtUp(x, r)
    requires Enters(Geo(x), |x.rows[r].tokens|) ==> |x.sys.pool.free| >= Geo(x).layers
    ensures var t := DecodeRow(x.sys, r, |x.rows[r].tokens|);
      && t.status == Done
      && |t.pool.free| >= |x.sys.pool.free| - (if Enters(Geo(x), |x.rows[r].tokens|) then Geo(x).layers else 0)
  {
    hide LifeInv;
    hide DecodeEnsure;
    hide DecodeEvict;
    hide Enters;
    ShapeOf(x);
    var g, pos := Geo(x), |x.rows[r].tokens|;
    var y := x;
    if g.window > 0 && pos >= g.window {
      var keep := (pos - g.window) / g.block;
      DecodeEvictKeeps(x, r, 0);
      DecodeEvictGivesBack(x.sys, r, keep, 0);
      y := x.(sys := DecodeEvict(x.sys, r, keep, 0));
      SameCaughtUp(x, y, r);
    }
    RowEnsures(y, r);
  }

  lemma RowEnsures(y: Life, r: nat)
    requires LifeInv(y) && y.sys.status == Done && r < |y.rows| && CaughtUp(y, r)
    requires Enters(Geo(y), |y.rows[r].tokens|) ==> |y.sys.pool.free| >= Geo(y).layers
    ensures var t := DecodeEnsure(y.sys, r, |y.rows[r].tokens| / Geo(y).block, 0);
      && t.status == Done
      && |t.pool.free| >= |y.sys.pool.free| - (if Enters(Geo(y), |y.rows[r].tokens|) then Geo(y).layers else 0)
  {
    hide LifeInv;
    hide DecodeEnsure;
    hide Enters;
    ShapeOf(y);
    var g, pos := Geo(y), |y.rows[r].tokens|;
    if Enters(g, pos) {
      NewPageInTable(y, r);
      NewPageTakesOneEach(y.sys, r, pos / g.block, 0);
    } else {
      PartlyWritten(y, r);
      MappedTakesNone(y.sys, r, pos / g.block, 0);
    }
  }

  lemma SameCaughtUp(x: Life, y: Life, r: nat)
    requires LifeShape(x) && LifeShape(y) && y.rows == x.rows && Geo(y) == Geo(x) && r < |x.rows| && CaughtUp(x, r)
    ensures CaughtUp(y, r)
  {
  }

  // ---- the whole step ----

  /** Masked rows from i on that enter a new page. */
  function Crossing(g: Geometry, positions: seq<int>, mask: seq<int>, i: nat): nat
    requires |positions| == |mask| && g.block > 0
    decreases |mask| - i
  {
    if i >= |mask| then 0
    else Crossing(g, positions, mask, i + 1) + (if mask[i] != 0 && positions[i] % g.block == 0 then 1 else 0)
  }

  /** The rows that a step makes enter a new page. */
  function Entering(g: Geometry, positions: seq<int>, mask: seq<int>, i: nat): set<nat>
    requires |positions| == |mask| && g.block > 0
  {
    set r: nat | i <= r < |mask| && mask[r] != 0 && positions[r] % g.block == 0
  }

  /** The count is their number. */
  lemma {:induction false} CrossingCounts(g: Geometry, positions: seq<int>, mask: seq<int>, i: nat)
    requires |positions| == |mask| && g.block > 0
    ensures Crossing(g, positions, mask, i) == |Entering(g, positions, mask, i)|
    decreases |mask| - i
  {
    if i < |mask| {
      CrossingCounts(g, positions, mask, i + 1);
      var rest := Entering(g, positions, mask, i + 1);
      assert Entering(g, positions, mask, i) == if mask[i] != 0 && positions[i] % g.block == 0 then rest + {i} else rest;
    }
  }

  lemma {:induction false} RowsTake(x: Life, positions: seq<int>, mask: seq<int>, r: nat)
    requires LifeInv(x) && x.sys.status == Done && DecodeFits(x, positions, mask) && r <= |x.rows|
    requires RowsReady(x, positions, mask, r)
    requires forall i :: 0 <= i < |mask| && mask[i] != 0 ==> 0 <= positions[i]
    requires |x.sys.pool.free| >= Crossing(Geo(x), positions, mask, r) * Geo(x).layers
    ensures DecodeRows(x.sys, positions, mask, r).status == Done
    decreases |x.rows| - r
  {
    hide LifeInv;
    hide DecodeRow;
    hide SlotReady;
    ShapeOf(x);
    if r < |x.rows| {
      if mask[r] == 0 {
        var a := SetActive(x.sys, r, 0);
        MarksKeep(x, a.h);
        ReadyRows(x, x.(sys := a), positions, mask, r);
        RowsTake(x.(sys := a), positions, mask, r + 1);
      } else {
        assert CaughtUp(x, r);
        var a := SetLen(SetActive(x.sys, r, 1), r, positions[r]);
        MarksKeep(x, a.h);
        var m := x.(sys := a);
        SameCaughtUp(x, m, r);
        assert Enters(Geo(x), |x.rows[r].tokens|) <==> positions[r] % Geo(x).block == 0;
        MulStep(Crossing(Geo(x), positions, mask, r + 1), Geo(x).layers);
        RowTakes(m, r);
        StepOneRow(x, positions, mask, r);
        RowsTake(x.(sys := DecodeRow(a, r, positions[r])), positions, mask, r + 1);
      }
    }
  }

  /** A step that the gate lets through gets every block it needs, however many pages the
      rows' windows drop and whatever the cache shares. */
  lemma GateSuffices(x: Life, mask: seq<int>)
    requires LifeInv(x) && x.sys.status == Done && |mask| == |x.rows|
    requires forall r: nat :: r < |x.rows| && mask[r] != 0 ==> CaughtUp(x, r)
    requires |x.sys.pool.free| >= |Entering(Geo(x), Positions(x), mask, 0)| * Geo(x).layers
    ensures DecodeSys(x, mask).sys.status == Done
  {
    hide LifeInv;
    hide DecodeRows;
    ShapeOf(x);
    var positions := Positions(x);
    forall r: nat | r < |x.rows| && mask[r] != 0 ensures CaughtUp(x, r) && positions[r] == |x.rows[r].tokens| {}
    assert DecodeFits(x, positions, mask);
    CrossingCounts(Geo(x), positions, mask, 0);
    RowsTake(x, positions, mask, 0);
  }

  // ---- an idle handle ----

  /** When no row is live, every block is free. */
  lemma IdleMeansAllFree(x: Life)
    requires LifeInv(x) && forall r: nat :: r < |x.rows| ==> x.rows[r].Idle?
    ensures |x.sys.pool.free| == |x.sys.pool.ref|
  {
    hide Indexed;
    hide EntriesOk;
    forall i | 0 <= i < |x.sys.h.table| ensures x.sys.h.table[i] == -1 {
      var l, r, k := SlotOfIndex(Geo(x), i);
      assert SlotOk(x, l, r, k);
    }
    KvRebind.NoNames(x.sys.h.table);
    assert forall b: nat :: b < |x.sys.pool.ref| ==> b in x.sys.pool.free;
    AllIndices(x.sys.pool.free, |x.sys.pool.ref|);
  }

  lemma {:induction false} AllIndices(free: seq<nat>, n: nat)
    requires Distinct(free) && (forall i :: 0 <= i < |free| ==> free[i] < n) && forall b: nat :: b < n ==> b in free
    ensures |free| == n
    decreases n
  {
    assert free == [] || free[0] < n;
    if n > 0 {
      WithoutFacts(free, n - 1);
      assert n - 1 in free;
      AllIndices(Without(free, n - 1), n - 1);
    }
  }
}
