/** What each step of the KV manager does to every page, mark, length and flag when it goes
    through (kv/cache.cpp). */
module KvEffects {
  import opened Arithmetic
  import opened Wrappers
  import opened PrefixKeys
  import opened KvModel
  import opened KvPages

  /** For one row of one layer: pages below `keep` go if the layer slides, pages from `lo` up
      to `hi` are mapped. */
  datatype Range = Range(keep: int, lo: int, hi: int)

  ghost predicate SameShape(s: Sys, t: Sys) { SysShape(s) && SysShape(t) && SameFrame(s, t) }

  predicate Goes(s: Sys, l: nat, r: nat, keep: int, k: nat)
    requires SysShape(s) && l < s.h.geo.layers && r < s.h.geo.rows
  {
    Sliding(s.h.geo, l) && Evicted(s.h, l, r) <= k < keep
  }

  ghost predicate PageIs(s: Sys, t: Sys, l: nat, r: nat, c: Range, k: nat)
    requires SameShape(s, t) && l < s.h.geo.layers && r < s.h.geo.rows && k < s.h.geo.pages
  {
    var before, now := PageOf(s.h, l, r, k), PageOf(t.h, l, r, k);
    if c.lo <= k < c.hi then now != -1 && (before != -1 && !Goes(s, l, r, c.keep, k) ==> now == before)
    else now == if Goes(s, l, r, c.keep, k) then -1 else before
  }

  /** What `t` has made of row r of layer l. */
  ghost predicate LayerIs(s: Sys, t: Sys, l: nat, r: nat, c: Range)
    requires SameShape(s, t) && l < s.h.geo.layers && r < s.h.geo.rows
  {
    && Evicted(t.h, l, r) ==
         (if Sliding(s.h.geo, l) then Most(Evicted(s.h, l, r), Least(c.keep, s.h.geo.pages)) else Evicted(s.h, l, r))
    && forall k: nat :: k < s.h.geo.pages ==> PageIs(s, t, l, r, c, k)
  }

  const NOTHING := Range(0, 0, 0)

  /** Only row r of layer l may differ. */
  ghost predicate RestSame(s: Sys, t: Sys, l: nat, r: nat)
    requires SameShape(s, t)
  {
    && t.h.lens == s.h.lens && t.h.active == s.h.active
    && forall l': nat, r': nat :: l' < s.h.geo.layers && r' < s.h.geo.rows && (l' != l || r' != r) ==>
         LayerIs(s, t, l', r', NOTHING)
  }

  // ---- one row of one layer ----

  lemma MarkSame(s: Sys, t: Sys, l: nat, r: nat)
    requires SameShape(s, t) && t.h.evicted == s.h.evicted && l < s.h.geo.layers && r < s.h.geo.rows
    ensures Evicted(t.h, l, r) == Evicted(s.h, l, r)
  {
  }

  lemma SlotsRest(s: Sys, t: Sys, l: nat, r: nat)
    requires SameShape(s, t) && l < s.h.geo.layers && r < s.h.geo.rows && OtherSlotsSame(s, t, l, r)
    requires forall l': nat, r': nat :: l' < s.h.geo.layers && r' < s.h.geo.rows && (l' != l || r' != r) ==>
      Evicted(t.h, l', r') == Evicted(s.h, l', r')
    ensures RestSame(s, t, l, r)
  {
    hide Sliding;
  }

  lemma EnsureEffect(s: Sys, l: nat, r: nat, lo: int, hi: int)
    requires SysShape(s) && l < s.h.geo.layers && r < s.h.geo.rows && EnsureRow(s, l, r, lo, hi).status == Done
    ensures var t := EnsureRow(s, l, r, lo, hi);
      s.status == Done && LayerIs(s, t, l, r, Range(0, lo, hi)) && RestSame(s, t, l, r)
  {
    hide EnsureLoop;
    hide Evicted;
    var t := EnsureRow(s, l, r, lo, hi);
    if hi > lo {
      assert s.status == Done && 0 <= lo;
      EnsurePages(s, l, r, lo, hi);
    }
    forall l': nat, r': nat | l' < s.h.geo.layers && r' < s.h.geo.rows ensures Evicted(t.h, l', r') == Evicted(s.h, l', r') {
      MarkSame(s, t, l', r');
    }
    SlotsRest(s, t, l, r);
  }

  lemma MarkSet(s: Sys, m: Sys, l: nat, r: nat, n: nat)
    requires SameShape(s, m) && m.h.evicted == s.h.evicted && m.status == Done && OtherSlotsSame(s, m, l, r)
    requires l < s.h.geo.layers && r < s.h.geo.rows && n <= s.h.geo.pages
    ensures var t := SetEvicted(m, l, r, n);
      && RestSame(s, t, l, r) && Evicted(t.h, l, r) == n
      && forall k: nat :: k < s.h.geo.pages ==> PageOf(t.h, l, r, k) == PageOf(m.h, l, r, k)
  {
    hide Sliding;
    var t := SetEvicted(m, l, r, n);
    forall l': nat, r': nat | l' < s.h.geo.layers && r' < s.h.geo.rows && (l' != l || r' != r)
      ensures Evicted(t.h, l', r') == Evicted(s.h, l', r')
    {
      RowUnique(s.h.geo, l, r, l', r');
    }
    SlotsRest(s, t, l, r);
  }

  lemma EvictEffect(s: Sys, l: nat, r: nat, keep: int)
    requires SysShape(s) && l < s.h.geo.layers && r < s.h.geo.rows && s.status == Done
    requires EvictBelow(s, l, r, keep).status == Done
    ensures var t := EvictBelow(s, l, r, keep); LayerIs(s, t, l, r, Range(keep, 0, 0)) && RestSame(s, t, l, r)
  {
    hide EvictLoop;
    hide Sliding;
    hide RestSame;
    var t := EvictBelow(s, l, r, keep);
    if keep <= 0 || !Sliding(s.h.geo, l) {
      SlotsRest(s, t, l, r);
    } else {
      var from, upto := Evicted(s.h, l, r), Least(keep, s.h.geo.pages);
      var m := EvictLoop(s, l, r, from, upto);
      assert m.status == Done;
      EvictPages(s, l, r, from, upto);
      MarkSet(s, m, l, r, Most(from, upto));
    }
  }

  // ---- every layer of a row ----

  /** Row r from layer `from` on is as `cuts` says, everything else as before. */
  ghost predicate RowFrom(s: Sys, t: Sys, r: nat, from: nat, cuts: seq<Range>)
    requires SameShape(s, t) && |cuts| == s.h.geo.layers
  {
    && t.h.lens == s.h.lens && t.h.active == s.h.active
    && forall l: nat, r': nat :: l < s.h.geo.layers && r' < s.h.geo.rows ==> AsPlanned(s, t, r, from, cuts, l, r')
  }

  ghost predicate AsPlanned(s: Sys, t: Sys, r: nat, from: nat, cuts: seq<Range>, l: nat, r': nat)
    requires SameShape(s, t) && |cuts| == s.h.geo.layers && l < s.h.geo.layers && r' < s.h.geo.rows
  {
    LayerIs(s, t, l, r', if r' == r && l >= from then cuts[l] else NOTHING)
  }

  lemma NothingIs(s: Sys, r: nat, from: nat, cuts: seq<Range>)
    requires SysShape(s) && |cuts| == s.h.geo.layers <= from
    ensures RowFrom(s, s, r, from, cuts)
  {
    hide Sliding;
  }

  lemma IsTrans(s: Sys, m: Sys, t: Sys, l: nat, r: nat, c: Range)
    requires SameShape(s, m) && SameShape(m, t) && l < s.h.geo.layers && r < s.h.geo.rows
    ensures LayerIs(s, m, l, r, NOTHING) && LayerIs(m, t, l, r, c) ==> LayerIs(s, t, l, r, c)
    ensures LayerIs(s, m, l, r, c) && LayerIs(m, t, l, r, NOTHING) ==> LayerIs(s, t, l, r, c)
  {
    hide Sliding;
    hide Evicted;
    hide PageOf;
    if LayerIs(s, m, l, r, NOTHING) && LayerIs(m, t, l, r, c) {
      forall k: nat | k < s.h.geo.pages ensures PageIs(s, t, l, r, c, k) {
        assert PageIs(s, m, l, r, NOTHING, k) && PageIs(m, t, l, r, c, k);
      }
    }
    if LayerIs(s, m, l, r, c) && LayerIs(m, t, l, r, NOTHING) {
      forall k: nat | k < s.h.geo.pages ensures PageIs(s, t, l, r, c, k) {
        assert PageIs(s, m, l, r, c, k) && PageIs(m, t, l, r, NOTHING, k);
      }
    }
  }

  lemma ThenRest(s: Sys, m: Sys, t: Sys, r: nat, l: nat, cuts: seq<Range>)
    requires SameShape(s, m) && SameShape(m, t) && |cuts| == s.h.geo.layers && l < |cuts| && r < s.h.geo.rows
    requires LayerIs(s, m, l, r, cuts[l]) && RestSame(s, m, l, r) && RowFrom(m, t, r, l + 1, cuts)
    ensures RowFrom(s, t, r, l, cuts)
  {
    hide LayerIs;
    forall l': nat, r': nat | l' < s.h.geo.layers && r' < s.h.geo.rows
      ensures AsPlanned(s, t, r, l, cuts, l', r')
    {
      IsTrans(s, m, t, l', r', if r' == r && l' >= l then cuts[l'] else NOTHING);
      assert AsPlanned(m, t, r, l + 1, cuts, l', r');
    }
  }

  lemma {:induction false} DecodeEvictEffect(s: Sys, r: nat, keep: int, l: nat)
    requires SysShape(s) && r < s.h.geo.rows && s.status == Done && DecodeEvict(s, r, keep, l).status == Done
    ensures RowFrom(s, DecodeEvict(s, r, keep, l), r, l, seq(s.h.geo.layers, _ => Range(keep, 0, 0)))
    decreases s.h.geo.layers - l
  {
    hide EvictBelow;
    hide RowFrom;
    hide LayerIs;
    hide RestSame;
    var cuts := seq(s.h.geo.layers, _ => Range(keep, 0, 0));
    if l >= s.h.geo.layers { NothingIs(s, r, l, cuts); return; }
    var m := EvictBelow(s, l, r, keep);
    assert m.status == Done;
    EvictEffect(s, l, r, keep);
    DecodeEvictEffect(m, r, keep, l + 1);
    ThenRest(s, m, DecodeEvict(m, r, keep, l + 1), r, l, cuts);
  }

  lemma {:induction false} DecodeEnsureEffect(s: Sys, r: nat, blk: nat, l: nat)
    requires SysShape(s) && r < s.h.geo.rows && DecodeEnsure(s, r, blk, l).status == Done
    ensures s.status == Done
    ensures RowFrom(s, DecodeEnsure(s, r, blk, l), r, l, seq(s.h.geo.layers, _ => Range(0, blk, blk + 1)))
    decreases s.h.geo.layers - l
  {
    hide EnsureRow;
    hide RowFrom;
    hide LayerIs;
    hide RestSame;
    var cuts := seq(s.h.geo.layers, _ => Range(0, blk, blk + 1));
    if l >= s.h.geo.layers { NothingIs(s, r, l, cuts); return; }
    if s.status == Done {
      var m := EnsureRow(s, l, r, blk, blk + 1);
      DecodeEnsureEffect(m, r, blk, l + 1);
      EnsureEffect(s, l, r, blk, blk + 1);
      ThenRest(s, m, DecodeEnsure(m, r, blk, l + 1), r, l, cuts);
    }
  }

  lemma {:induction false} PrepareLayersEffect(s: Sys, r: nat, n: nat, l: nat)
    requires SysShape(s) && r < s.h.geo.rows && PrepareLayers(s, r, n, l).status == Done
    ensures s.status == Done && RowFrom(s, PrepareLayers(s, r, n, l), r, l, PrepareRanges(s.h.geo, n))
    decreases s.h.geo.layers - l
  {
    hide EnsureRow;
    hide RowFrom;
    hide LayerIs;
    hide RestSame;
    hide PrepareFrom;
    hide CeilPages;
    var g := s.h.geo;
    if l >= g.layers { NothingIs(s, r, l, PrepareRanges(g, n)); return; }
    if s.status == Done {
      var m := EnsureRow(s, l, r, PrepareFrom(g, l, n), CeilPages(n, g.block));
      PrepareLayersEffect(m, r, n, l + 1);
      EnsureEffect(s, l, r, PrepareFrom(g, l, n), CeilPages(n, g.block));
      ThenRest(s, m, PrepareLayers(m, r, n, l + 1), r, l, PrepareRanges(g, n));
    }
  }

  function PrepareRanges(g: Geometry, n: nat): (cuts: seq<Range>)
    requires GeometryOk(g)
    ensures |cuts| == g.layers
  {
    seq(g.layers, (l: nat) => Range(0, PrepareFrom(g, l, n), CeilPages(n, g.block)))
  }
  // ---- a decode step ----

  /** Whole pages that lie `window` tokens or more behind position pos. */
  function DecodeCut(g: Geometry, pos: nat): nat
    requires GeometryOk(g)
  {
    if g.window > 0 && pos >= g.window then (pos - g.window) / g.block else 0
  }

  /** Right: a page is below the cut exactly if its last token is. */
  lemma DecodeCutIff(g: Geometry, pos: nat, k: nat)
    requires GeometryOk(g)
    ensures k < DecodeCut(g, pos) <==> g.window > 0 && (k + 1) * g.block + g.window <= pos
  {
    if g.window > 0 && pos >= g.window { BelowQuotient(k, pos - g.window, g.block); }
    assert (k + 1) * g.block >= 0;
  }

  lemma BothPhases(s: Sys, m: Sys, t: Sys, l: nat, r: nat, keep: int, lo: int, hi: int)
    requires SameShape(s, m) && SameShape(m, t) && l < s.h.geo.layers && r < s.h.geo.rows
    requires LayerIs(s, m, l, r, Range(keep, 0, 0)) && LayerIs(m, t, l, r, Range(0, lo, hi))
    ensures LayerIs(s, t, l, r, Range(keep, lo, hi))
  {
    hide Sliding;
    hide Evicted;
    hide PageOf;
    forall k: nat | k < s.h.geo.pages ensures PageIs(s, t, l, r, Range(keep, lo, hi), k) {
      assert PageIs(s, m, l, r, Range(keep, 0, 0), k) && PageIs(m, t, l, r, Range(0, lo, hi), k);
    }
  }

  function DecodeRange(g: Geometry, pos: nat): Range
    requires GeometryOk(g)
  {
    Range(DecodeCut(g, pos), pos / g.block, pos / g.block + 1)
  }

  lemma IsSame(s: Sys, l: nat, r: nat)
    requires SysShape(s) && l < s.h.geo.layers && r < s.h.geo.rows
    ensures LayerIs(s, s, l, r, NOTHING) && LayerIs(s, s, l, r, Range(0, 0, 0))
  {
    hide Sliding;
  }

  lemma DecodeRowEffect(s: Sys, r: nat, pos: nat)
    requires SysShape(s) && r < s.h.geo.rows && s.status == Done && DecodeRow(s, r, pos).status == Done
    ensures RowFrom(s, DecodeRow(s, r, pos), r, 0, seq(s.h.geo.layers, _ => DecodeRange(s.h.geo, pos)))
  {
    hide DecodeEvict;
    hide DecodeEnsure;
    hide LayerIs;
    var g, blk, keep := s.h.geo, pos / s.h.geo.block, DecodeCut(s.h.geo, pos);
    var m := if g.window > 0 && pos >= g.window then DecodeEvict(s, r, keep, 0) else s;
    var t := DecodeEnsure(m, r, blk, 0);
    assert t == DecodeRow(s, r, pos);
    DecodeEnsureEffect(m, r, blk, 0);
    var cuts, maps := seq(g.layers, _ => Range(keep, 0, 0)), seq(g.layers, _ => Range(0, blk, blk + 1));
    var both := seq(g.layers, _ => DecodeRange(g, pos));
    if g.window > 0 && pos >= g.window {
      DecodeEvictEffect(s, r, keep, 0);
    } else {
      forall l: nat, r': nat | l < g.layers && r' < g.rows ensures AsPlanned(s, m, r, 0, cuts, l, r') { IsSame(s, l, r'); }
    }
    forall l: nat, r': nat | l < g.layers && r' < g.rows ensures AsPlanned(s, t, r, 0, both, l, r') {
      assert AsPlanned(s, m, r, 0, cuts, l, r') && AsPlanned(m, t, r, 0, maps, l, r');
      if r' == r { BothPhases(s, m, t, l, r, keep, blk, blk + 1); } else { IsTrans(s, m, t, l, r', NOTHING); }
    }
  }

  /** What a decode step makes of row r: a row of the mask gets its length and position and
      is active; in each of its sliding layers all pages are gone that lie a window behind,
      and the page of the position is mapped. Any other row is switched off. */
  ghost predicate RowDecoded(s: Sys, t: Sys, r: nat, pos: int, on: bool)
    requires SameShape(s, t) && r < s.h.geo.rows && (on ==> pos >= 0)
  {
    && t.h.active[r] == (if on then 1 else 0) && t.h.lens[r] == (if on then pos else s.h.lens[r])
    && forall l: nat :: l < s.h.geo.layers ==> LayerDecoded(s, t, l, r, pos, on)
  }

  ghost predicate LayerDecoded(s: Sys, t: Sys, l: nat, r: nat, pos: int, on: bool)
    requires SameShape(s, t) && l < s.h.geo.layers && r < s.h.geo.rows && (on ==> pos >= 0)
  {
    LayerIs(s, t, l, r, if on then DecodeRange(s.h.geo, pos) else NOTHING)
  }

  ghost predicate RowKept(s: Sys, t: Sys, r: nat)
    requires SameShape(s, t) && r < s.h.geo.rows
  {
    && t.h.active[r] == s.h.active[r] && t.h.lens[r] == s.h.lens[r]
    && forall l: nat :: l < s.h.geo.layers ==> LayerIs(s, t, l, r, NOTHING)
  }

  lemma SamePages(s: Sys, u: Sys, t: Sys, l: nat, r: nat, c: Range)
    requires SameShape(s, u) && SameShape(u, t) && l < s.h.geo.layers && r < s.h.geo.rows
    requires u.h.table == s.h.table && u.h.evicted == s.h.evicted && LayerIs(u, t, l, r, c)
    ensures LayerIs(s, t, l, r, c)
  {
    hide Sliding;
    forall k: nat | k < s.h.geo.pages ensures PageIs(s, t, l, r, c, k) { assert PageIs(u, t, l, r, c, k); }
  }

  /** One row of the loop. */
  function DecodedRow(s: Sys, r: nat, pos: int, on: bool): (t: Sys)
    requires SysShape(s) && r < s.h.geo.rows && (on ==> pos >= 0)
    ensures SameShape(s, t)
  {
    if on then DecodeRow(SetLen(SetActive(s, r, 1), r, pos), r, pos) else SetActive(s, r, 0)
  }

  lemma OneRowDecoded(s: Sys, r: nat, pos: int, on: bool)
    requires SysShape(s) && r < s.h.geo.rows && (on ==> pos >= 0) && s.status == Done && DecodedRow(s, r, pos, on).status == Done
    ensures var t := DecodedRow(s, r, pos, on);
      RowDecoded(s, t, r, pos, on) && forall r': nat :: r' < s.h.geo.rows && r' != r ==> RowKept(s, t, r')
  {
    hide LayerIs;
    hide DecodeRow;
    hide LayerDecoded;
    hide DecodedRow;
    var t := DecodedRow(s, r, pos, on);
    FlagsOf(s, r, pos, on);
    forall l: nat | l < s.h.geo.layers ensures LayerDecoded(s, t, l, r, pos, on) { LayersOfRow(s, r, pos, on, l, r); }
    forall l: nat, r': nat | l < s.h.geo.layers && r' < s.h.geo.rows && r' != r ensures LayerIs(s, t, l, r', NOTHING) {
      LayersOfRow(s, r, pos, on, l, r');
    }
  }

  /** Lengths and flags, as far as that row goes. */
  lemma FlagsOf(s: Sys, r: nat, pos: int, on: bool)
    requires SysShape(s) && r < s.h.geo.rows && (on ==> pos >= 0) && s.status == Done && DecodedRow(s, r, pos, on).status == Done
    ensures var t := DecodedRow(s, r, pos, on);
      && t.h.active == s.h.active[r := if on then 1 else 0]
      && t.h.lens == if on then s.h.lens[r := pos] else s.h.lens
  {
    hide DecodeRow;
    hide LayerIs;
    if on { DecodeRowEffect(SetLen(SetActive(s, r, 1), r, pos), r, pos); }
  }

  lemma LayersOfRow(s: Sys, r: nat, pos: int, on: bool, l: nat, r': nat)
    requires SysShape(s) && r < s.h.geo.rows && (on ==> pos >= 0) && s.status == Done && DecodedRow(s, r, pos, on).status == Done
    requires l < s.h.geo.layers && r' < s.h.geo.rows
    ensures var t := DecodedRow(s, r, pos, on);
      if r' == r then LayerDecoded(s, t, l, r, pos, on) else LayerIs(s, t, l, r', NOTHING)
  {
    hide LayerIs;
    hide DecodeRow;
    var t := DecodedRow(s, r, pos, on);
    if on {
      var u := SetLen(SetActive(s, r, 1), r, pos);
      DecodeRowEffect(u, r, pos);
      assert AsPlanned(u, t, r, 0, seq(s.h.geo.layers, _ => DecodeRange(s.h.geo, pos)), l, r');
      SamePages(s, u, t, l, r', if r' == r then DecodeRange(s.h.geo, pos) else NOTHING);
    } else {
      IsSame(t, l, r');
      SamePages(s, t, t, l, r', NOTHING);
    }
  }

  lemma DecodedThenKept(s: Sys, m: Sys, t: Sys, r: nat, pos: int, on: bool)
    requires SameShape(s, m) && SameShape(m, t) && r < s.h.geo.rows && (on ==> pos >= 0)
    ensures RowDecoded(s, m, r, pos, on) && RowKept(m, t, r) ==> RowDecoded(s, t, r, pos, on)
    ensures RowKept(s, m, r) && RowDecoded(m, t, r, pos, on) ==> RowDecoded(s, t, r, pos, on)
    ensures RowKept(s, m, r) && RowKept(m, t, r) ==> RowKept(s, t, r)
  {
    hide LayerIs;
    forall l: nat | l < s.h.geo.layers
      ensures LayerIs(s, m, l, r, NOTHING) && LayerIs(m, t, l, r, NOTHING) ==> LayerIs(s, t, l, r, NOTHING)
      ensures LayerDecoded(s, m, l, r, pos, on) && LayerIs(m, t, l, r, NOTHING) ==> LayerDecoded(s, t, l, r, pos, on)
      ensures LayerIs(s, m, l, r, NOTHING) && LayerDecoded(m, t, l, r, pos, on) ==> LayerDecoded(s, t, l, r, pos, on)
    {
      IsTrans(s, m, t, l, r, NOTHING);
      IsTrans(s, m, t, l, r, if on then DecodeRange(s.h.geo, pos) else NOTHING);
    }
  }

  ghost predicate PositionsOk(positions: seq<int>, mask: seq<int>) {
    |positions| == |mask| && forall i :: 0 <= i < |mask| && mask[i] != 0 ==> 0 <= positions[i]
  }

  lemma {:induction false} DecodeRowsEffect(s: Sys, positions: seq<int>, mask: seq<int>, r: nat)
    requires SysShape(s) && |mask| == s.h.geo.rows && PositionsOk(positions, mask)
    requires s.status == Done && DecodeRows(s, positions, mask, r).status == Done
    ensures var t := DecodeRows(s, positions, mask, r);
      forall i: nat :: i < s.h.geo.rows ==>
        if i >= r then RowDecoded(s, t, i, positions[i], mask[i] != 0) else RowKept(s, t, i)
    decreases s.h.geo.rows - r
  {
    hide LayerIs;
    hide DecodeRow;
    hide RowDecoded;
    hide RowKept;
    var t := DecodeRows(s, positions, mask, r);
    if r >= s.h.geo.rows {
      forall i: nat | i < s.h.geo.rows ensures RowKept(s, s, i) { RowKeptSelf(s, i); }
    } else {
      var m := DecodedRow(s, r, positions[r], mask[r] != 0);
      assert t == DecodeRows(m, positions, mask, r + 1);
      assert m.status == Done;
      OneRowDecoded(s, r, positions[r], mask[r] != 0);
      DecodeRowsEffect(m, positions, mask, r + 1);
      forall i: nat | i < s.h.geo.rows
        ensures if i >= r then RowDecoded(s, t, i, positions[i], mask[i] != 0) else RowKept(s, t, i)
      {
        DecodedThenKept(s, m, t, i, positions[i], mask[i] != 0);
      }
    }
  }

  lemma RowKeptSelf(s: Sys, r: nat)
    requires SysShape(s) && r < s.h.geo.rows
    ensures RowKept(s, s, r)
  {
    hide Sliding;
  }

  /** kv_step_decode_positions, when it goes through. */
  lemma DecodeEffect(s: Sys, positions: seq<int>, mask: seq<int>)
    requires SysShape(s) && |positions| == |mask| == s.h.geo.rows && StepDecode(s, positions, mask).status == Done
    ensures PositionsOk(positions, mask)
    ensures forall r: nat :: r < s.h.geo.rows ==>
      RowDecoded(s, StepDecode(s, positions, mask), r, positions[r], mask[r] != 0)
  {
    DecodeRowsEffect(s, positions, mask, 0);
  }

  // ---- a prefill chunk ----

  /** Whole pages below the tile that holds the first token the chunk at `start` attends. */
  function ChunkCut(g: Geometry, start: nat): nat
    requires GeometryOk(g)
  {
    if g.window > 0 && start >= g.window then (((start - (g.window - 1)) / TILE) * TILE) / g.block else 0
  }

  /** Right: a page is below the cut exactly if some whole number of tiles covers its last
      token and ends no later than the first token attended. */
  lemma ChunkCutIff(g: Geometry, start: nat, k: nat)
    requires GeometryOk(g)
    ensures k < ChunkCut(g, start) <==>
      g.window > 0 && exists m: nat :: (k + 1) * g.block <= m * TILE && m * TILE + (g.window - 1) <= start
  {
    assert (k + 1) * g.block >= 1 by { MulGrows(1, k + 1, g.block); }
    if g.window > 0 && start >= g.window {
      var first := start - (g.window - 1);
      QuotientBounds(first, TILE);
      BelowQuotient(k, (first / TILE) * TILE, g.block);
      forall m: nat | m * TILE <= first ensures m <= first / TILE {
        DivGrows(m * TILE, first, TILE);
        DivExact(m, TILE);
      }
      assert (k + 1) * g.block <= (first / TILE) * TILE ==>
        (k + 1) * g.block <= (first / TILE) * TILE && (first / TILE) * TILE + (g.window - 1) <= start;
    }
  }

  /** Rows of the mask from `from` on, in layer l, are as `c` says, and everything else is as
      before. */
  ghost predicate RowsFrom(s: Sys, t: Sys, l: nat, from: nat, mask: seq<int>, c: Range)
    requires SameShape(s, t) && |mask| == s.h.geo.rows
  {
    && t.h.lens == s.h.lens && t.h.active == s.h.active
    && forall l': nat, r: nat :: l' < s.h.geo.layers && r < s.h.geo.rows ==> InChunk(s, t, l, from, mask, c, l', r)
  }

  ghost predicate InChunk(s: Sys, t: Sys, l: nat, from: nat, mask: seq<int>, c: Range, l': nat, r: nat)
    requires SameShape(s, t) && |mask| == s.h.geo.rows && l' < s.h.geo.layers && r < s.h.geo.rows
  {
    LayerIs(s, t, l', r, if l' == l && r >= from && mask[r] != 0 then c else NOTHING)
  }

  lemma NoRowsLeft(s: Sys, l: nat, from: nat, mask: seq<int>, c: Range)
    requires SysShape(s) && |mask| == s.h.geo.rows <= from
    ensures RowsFrom(s, s, l, from, mask, c)
  {
    hide LayerIs;
    forall l': nat, r: nat | l' < s.h.geo.layers && r < s.h.geo.rows ensures InChunk(s, s, l, from, mask, c, l', r) {
      IsSame(s, l', r);
    }
  }

  lemma RowSkipped(s: Sys, t: Sys, l: nat, from: nat, mask: seq<int>, c: Range)
    requires SameShape(s, t) && from < |mask| == s.h.geo.rows && mask[from] == 0 && RowsFrom(s, t, l, from + 1, mask, c)
    ensures RowsFrom(s, t, l, from, mask, c)
  {
    hide LayerIs;
    forall l': nat, r: nat | l' < s.h.geo.layers && r < s.h.geo.rows ensures InChunk(s, t, l, from, mask, c, l', r) {
      assert InChunk(s, t, l, from + 1, mask, c, l', r);
    }
  }

  lemma ThenRows(s: Sys, m: Sys, t: Sys, l: nat, from: nat, mask: seq<int>, c: Range)
    requires SameShape(s, m) && SameShape(m, t) && from < |mask| == s.h.geo.rows && l < s.h.geo.layers && mask[from] != 0
    requires LayerIs(s, m, l, from, c) && RestSame(s, m, l, from) && RowsFrom(m, t, l, from + 1, mask, c)
    ensures RowsFrom(s, t, l, from, mask, c)
  {
    hide LayerIs;
    forall l': nat, r: nat | l' < s.h.geo.layers && r < s.h.geo.rows ensures InChunk(s, t, l, from, mask, c, l', r) {
      IsTrans(s, m, t, l', r, if l' == l && r >= from && mask[r] != 0 then c else NOTHING);
      assert InChunk(m, t, l, from + 1, mask, c, l', r);
    }
  }

  lemma {:induction false} EvictRowsEffect(s: Sys, l: nat, keep: nat, mask: seq<int>, r: nat)
    requires SysShape(s) && l < s.h.geo.layers && |mask| == s.h.geo.rows
    requires s.status == Done && EvictRows(s, l, keep, mask, r).status == Done
    ensures RowsFrom(s, EvictRows(s, l, keep, mask, r), l, r, mask, Range(keep, 0, 0))
    decreases s.h.geo.rows - r
  {
    hide EvictBelow;
    hide RowsFrom;
    hide LayerIs;
    hide RestSame;
    var c := Range(keep, 0, 0);
    if r >= s.h.geo.rows {
      NoRowsLeft(s, l, r, mask, c);
    } else if mask[r] == 0 {
      EvictRowsEffect(s, l, keep, mask, r + 1);
      RowSkipped(s, EvictRows(s, l, keep, mask, r), l, r, mask, c);
    } else {
      var m := EvictBelow(s, l, r, keep);
      assert m.status == Done;
      EvictEffect(s, l, r, keep);
      EvictRowsEffect(m, l, keep, mask, r + 1);
      ThenRows(s, m, EvictRows(m, l, keep, mask, r + 1), l, r, mask, c);
    }
  }

  lemma {:induction false} EnsureRowsEffect(s: Sys, l: nat, lo: nat, hi: nat, mask: seq<int>, r: nat)
    requires SysShape(s) && l < s.h.geo.layers && |mask| == s.h.geo.rows && EnsureRows(s, l, lo, hi, mask, r).status == Done
    ensures s.status == Done && RowsFrom(s, EnsureRows(s, l, lo, hi, mask, r), l, r, mask, Range(0, lo, hi))
    decreases s.h.geo.rows - r
  {
    hide EnsureRow;
    hide RowsFrom;
    hide LayerIs;
    hide RestSame;
    var c := Range(0, lo, hi);
    if r >= s.h.geo.rows {
      NoRowsLeft(s, l, r, mask, c);
    } else if s.status == Done && mask[r] == 0 {
      EnsureRowsEffect(s, l, lo, hi, mask, r + 1);
      RowSkipped(s, EnsureRows(s, l, lo, hi, mask, r), l, r, mask, c);
    } else if s.status == Done {
      var m := EnsureRow(s, l, r, lo, hi);
      EnsureRowsEffect(m, l, lo, hi, mask, r + 1);
      EnsureEffect(s, l, r, lo, hi);
      ThenRows(s, m, EnsureRows(m, l, lo, hi, mask, r + 1), l, r, mask, c);
    }
  }

  function ChunkRange(g: Geometry, start: nat, end: nat): Range
    requires GeometryOk(g)
  {
    Range(ChunkCut(g, start), start / g.block, CeilPages(end, g.block))
  }

  /** step_prefill_chunk_masked, when it goes through: an empty chunk changes nothing; any
      other one cuts the layer's rows of the mask, if the layer slides, and maps the pages of
      the chunk. Other layers, other rows, lengths and flags stay. */
  lemma ChunkEffect(s: Sys, layer: int, start: int, end: int, mask: seq<int>)
    requires SysShape(s) && |mask| == s.h.geo.rows && StepChunk(s, layer, start, end, mask).status == Done
    ensures 0 <= layer < s.h.geo.layers && 0 <= start <= end <= MaxTokens(s.h.geo)
    ensures var t := StepChunk(s, layer, start, end, mask);
      if start == end then t == s else RowsFrom(s, t, layer, 0, mask, ChunkRange(s.h.geo, start, end))
  {
    hide EvictRows;
    hide EnsureRows;
    hide LayerIs;
    hide CeilPages;
    if start < end {
      var g, keep, lo, hi := s.h.geo, ChunkCut(s.h.geo, start), start / s.h.geo.block, CeilPages(end, s.h.geo.block);
      var m := if g.window > 0 && start >= g.window then EvictRows(s, layer, keep, mask, 0) else s;
      var t := EnsureRows(m, layer, lo, hi, mask, 0);
      assert t == StepChunk(s, layer, start, end, mask);
      EnsureRowsEffect(m, layer, lo, hi, mask, 0);
      if g.window > 0 && start >= g.window { EvictRowsEffect(s, layer, keep, mask, 0); }
      forall l: nat, r: nat | l < g.layers && r < g.rows
        ensures InChunk(s, t, layer, 0, mask, ChunkRange(g, start, end), l, r)
      {
        IsSame(s, l, r);
        assert m != s ==> InChunk(s, m, layer, 0, mask, Range(keep, 0, 0), l, r);
        assert InChunk(m, t, layer, 0, mask, Range(0, lo, hi), l, r);
        if l == layer && mask[r] != 0 { BothPhases(s, m, t, l, r, keep, lo, hi); } else { IsTrans(s, m, t, l, r, NOTHING); }
      }
    }
  }

  // ---- preparing a prefill ----

  /** Pages are mapped from the one that holds the first of the last `window` tokens on in a
      sliding layer, and from the first page on in any other. */
  lemma PrepareRangeIff(g: Geometry, l: nat, n: nat, k: nat)
    requires GeometryOk(g)
    ensures PrepareFrom(g, l, n) <= k < CeilPages(n, g.block) <==>
      k * g.block < n && !(Sliding(g, l) && g.window > 0 && (k + 1) * g.block + g.window <= n)
  {
    hide Sliding;
    if g.window > 0 && n > g.window { BelowQuotient(k, n - g.window, g.block); }
    if n > 0 {
      QuotientBounds(n - 1, g.block);
      if k <= (n - 1) / g.block { MulGrows(k, (n - 1) / g.block, g.block); } else { MulGrows((n - 1) / g.block + 1, k, g.block); MulStep((n - 1) / g.block, g.block); }
    }
    assert (k + 1) * g.block >= 0 && k * g.block >= 0;
  }

  ghost predicate RowPrepared(s: Sys, t: Sys, r: nat, n: int, on: bool)
    requires SameShape(s, t) && r < s.h.geo.rows && (on ==> n >= 0)
  {
    && t.h.active[r] == s.h.active[r] && t.h.lens[r] == (if on then n else s.h.lens[r])
    && forall l: nat :: l < s.h.geo.layers ==> LayerPrepared(s, t, l, r, n, on)
  }

  ghost predicate LayerPrepared(s: Sys, t: Sys, l: nat, r: nat, n: int, on: bool)
    requires SameShape(s, t) && l < s.h.geo.layers && r < s.h.geo.rows && (on ==> n >= 0)
  {
    LayerIs(s, t, l, r, if on then PrepareRanges(s.h.geo, n)[l] else NOTHING)
  }

  lemma LayersPrepared(s: Sys, r: nat, n: nat, l: nat, r': nat)
    requires SysShape(s) && r < s.h.geo.rows && PrepareLayers(SetLen(s, r, n), r, n, 0).status == Done
    requires l < s.h.geo.layers && r' < s.h.geo.rows
    ensures var t := PrepareLayers(SetLen(s, r, n), r, n, 0);
      && t.h.active == s.h.active && t.h.lens == s.h.lens[r := n]
      && if r' == r then LayerPrepared(s, t, l, r, n, true) else LayerIs(s, t, l, r', NOTHING)
  {
    hide LayerIs;
    hide PrepareLayers;
    hide PrepareRanges;
    var u := SetLen(s, r, n);
    var t := PrepareLayers(u, r, n, 0);
    PrepareLayersEffect(u, r, n, 0);
    assert AsPlanned(u, t, r, 0, PrepareRanges(s.h.geo, n), l, r');
    SamePages(s, u, t, l, r', if r' == r then PrepareRanges(s.h.geo, n)[l] else NOTHING);
  }

  lemma OneRowPrepared(s: Sys, r: nat, n: nat)
    requires SysShape(s) && r < s.h.geo.rows && PrepareLayers(SetLen(s, r, n), r, n, 0).status == Done
    ensures var t := PrepareLayers(SetLen(s, r, n), r, n, 0);
      RowPrepared(s, t, r, n, true) && forall r': nat :: r' < s.h.geo.rows && r' != r ==> RowKept(s, t, r')
  {
    hide LayerIs;
    hide LayerPrepared;
    hide PrepareLayers;
    var t := PrepareLayers(SetLen(s, r, n), r, n, 0);
    LayersPrepared(s, r, n, 0, r);
    forall l: nat | l < s.h.geo.layers ensures LayerPrepared(s, t, l, r, n, true) { LayersPrepared(s, r, n, l, r); }
    forall l: nat, r': nat | l < s.h.geo.layers && r' < s.h.geo.rows && r' != r ensures LayerIs(s, t, l, r', NOTHING) {
      LayersPrepared(s, r, n, l, r');
    }
  }

  lemma PreparedThenKept(s: Sys, m: Sys, t: Sys, r: nat, n: int, on: bool)
    requires SameShape(s, m) && SameShape(m, t) && r < s.h.geo.rows && (on ==> n >= 0)
    ensures RowPrepared(s, m, r, n, on) && RowKept(m, t, r) ==> RowPrepared(s, t, r, n, on)
    ensures RowKept(s, m, r) && RowPrepared(m, t, r, n, on) ==> RowPrepared(s, t, r, n, on)
    ensures RowKept(s, m, r) && RowKept(m, t, r) ==> RowKept(s, t, r)
    ensures !on && RowKept(s, t, r) ==> RowPrepared(s, t, r, n, on)
  {
    hide LayerIs;
    hide PrepareRanges;
    forall l: nat | l < s.h.geo.layers
      ensures LayerIs(s, m, l, r, NOTHING) && LayerIs(m, t, l, r, NOTHING) ==> LayerIs(s, t, l, r, NOTHING)
      ensures LayerPrepared(s, m, l, r, n, on) && LayerIs(m, t, l, r, NOTHING) ==> LayerPrepared(s, t, l, r, n, on)
      ensures LayerIs(s, m, l, r, NOTHING) && LayerPrepared(m, t, l, r, n, on) ==> LayerPrepared(s, t, l, r, n, on)
    {
      IsTrans(s, m, t, l, r, NOTHING);
      IsTrans(s, m, t, l, r, if on then PrepareRanges(s.h.geo, n)[l] else NOTHING);
    }
  }

  lemma {:induction false} PrepareRowsEffect(s: Sys, lengths: seq<int>, mask: seq<int>, r: nat)
    requires SysShape(s) && |mask| == s.h.geo.rows && PositionsOk(lengths, mask)
    requires PrepareRows(s, lengths, mask, r).status == Done
    ensures s.status == Done
    ensures var t := PrepareRows(s, lengths, mask, r);
      forall i: nat :: i < s.h.geo.rows ==>
        if i >= r then RowPrepared(s, t, i, lengths[i], mask[i] != 0) else RowKept(s, t, i)
    decreases s.h.geo.rows - r
  {
    hide LayerIs;
    hide PrepareLayers;
    hide RowPrepared;
    hide RowKept;
    var t := PrepareRows(s, lengths, mask, r);
    if r >= s.h.geo.rows {
      forall i: nat | i < s.h.geo.rows ensures RowKept(s, s, i) { RowKeptSelf(s, i); }
    } else if s.status == Done {
      var m := if mask[r] == 0 then s else PrepareLayers(SetLen(s, r, lengths[r]), r, lengths[r], 0);
      assert t == PrepareRows(m, lengths, mask, r + 1);
      PrepareRowsEffect(m, lengths, mask, r + 1);
      if mask[r] != 0 { OneRowPrepared(s, r, lengths[r]); }
      forall i: nat | i < s.h.geo.rows
        ensures if i >= r then RowPrepared(s, t, i, lengths[i], mask[i] != 0) else RowKept(s, t, i)
      {
        if mask[r] == 0 { RowKeptSelf(s, i); }
        PreparedThenKept(s, m, t, i, lengths[i], mask[i] != 0);
      }
    }
  }

  /** prepare_prefill_masked, when it goes through. */
  lemma PrepareEffect(s: Sys, lengths: seq<int>, mask: seq<int>)
    requires SysShape(s) && |lengths| == |mask| == s.h.geo.rows && PrepareMasked(s, lengths, mask).status == Done
    ensures PositionsOk(lengths, mask)
    ensures forall r: nat :: r < s.h.geo.rows ==>
      RowPrepared(s, PrepareMasked(s, lengths, mask), r, lengths[r], mask[r] != 0)
  {
    PrepareRowsEffect(s, lengths, mask, 0);
  }
}
