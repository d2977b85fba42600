/** The KV operations of a row's life keep the invariant. */
module RowLifeSteps {
  import opened Arithmetic
  import opened Wrappers
  import opened PrefixKeys
  import opened KvModel
  import opened KvInvariant
  import opened KvOps
  import opened KvPages
  import opened RowLife

  // ---- mapping and unmapping ranges ----

  /** Whatever is unmapped in [lo, hi) lies past everything written and everything shared. */
  ghost predicate Fillable(x: Life, l: nat, r: nat, lo: nat, hi: nat)
    requires LifeShape(x) && l < Geo(x).layers && r < |x.rows|
  {
    && x.rows[r].Live?
    && forall k: nat :: lo <= k < hi && k < Geo(x).pages && PageOf(x.sys.h, l, r, k) == -1 ==>
      k >= x.rows[r].shared && x.rows[r].done[l] <= k * Geo(x).block
  }

  lemma {:induction false} EnsureKeeps(x: Life, l: nat, r: nat, lo: nat, hi: nat)
    requires LifeInv(x) && l < Geo(x).layers && r < |x.rows| && hi <= Geo(x).pages
    requires Fillable(x, l, r, lo, hi)
    ensures LifeInv(x.(sys := EnsureLoop(x.sys, l, r, lo, hi)))
    decreases hi - lo
  {
    hide SysOk;
    hide SlotsOk;
    hide EntriesOk;
    hide ProgressOk;
    if lo < hi && x.sys.status == Done {
      var i := SlotAt(Geo(x), l, r, lo);
      if x.sys.h.table[i] != -1 {
        EnsureKeeps(x, l, r, lo + 1, hi);
      } else if x.sys.pool.free != [] {
        var y := Filled(x, l, r, lo);
        FillKeeps(x, l, r, lo);
        PutPages(x.sys, Acquire(x.sys.pool).value.0, l, r, lo, Acquire(x.sys.pool).value.1);
        EnsureKeeps(y, l, r, lo + 1, hi);
      } else {
        FailKeeps(x, OutOfBlocks);
      }
    }
  }

  /** The outcome of an operation says nothing about the rows. */
  lemma FailKeeps(x: Life, status: Status)
    requires LifeInv(x)
    ensures LifeInv(x.(sys := x.sys.(status := status)))
  {
    hide PoolOk;
    hide PageHolds;
    var y := x.(sys := x.sys.(status := status));
    forall l: nat, r: nat, k: nat | l < Geo(x).layers && r < |x.rows| && k < Geo(x).pages
      ensures SlotOk(y, l, r, k) && Covered(y, l, r, k)
    {
      assert SlotOk(x, l, r, k) && Covered(x, l, r, k);
    }
    forall key | key in y.sys.pool.cache ensures EntryOk(y, key) { assert EntryOk(x, key); }
    forall r: nat | r < |y.rows| ensures ProgressOk(y, r) { assert ProgressOk(x, r); }
  }

  lemma {:induction false} EvictKeeps(x: Life, l: nat, r: nat, blk: nat, keep: nat)
    requires LifeInv(x) && l < Geo(x).layers && r < |x.rows| && keep <= Geo(x).pages && x.sys.status == Done
    requires x.rows[r].Live? ==> keep <= LowPage(Geo(x), l, x.rows[r].done[l])
    ensures var y := x.(sys := EvictLoop(x.sys, l, r, blk, keep)); LifeInv(y) && y.sys.status == Done
    decreases keep - blk
  {
    hide SysOk;
    hide SlotsOk;
    hide EntriesOk;
    hide ProgressOk;
    hide DropSlot;
    if blk < keep {
      DropKeeps(x, l, r, blk);
      EvictKeeps(Dropped(x, l, r, blk), l, r, blk + 1, keep);
    }
  }

  /** Same table, pool and shape: same invariant. */
  lemma MarksKeep(x: Life, h: Handle)
    requires LifeInv(x) && HandleShape(h) && h.geo == Geo(x) && h.table == x.sys.h.table
    ensures LifeInv(x.(sys := x.sys.(h := h)))
  {
    hide PoolOk;
    hide PageHolds;
    var y := x.(sys := x.sys.(h := h));
    forall l: nat, r: nat, k: nat | l < Geo(x).layers && r < |x.rows| && k < Geo(x).pages
      ensures SlotOk(y, l, r, k) && Covered(y, l, r, k)
    {
      assert SlotOk(x, l, r, k) && Covered(x, l, r, k);
    }
    forall key | key in y.sys.pool.cache ensures EntryOk(y, key) { assert EntryOk(x, key); }
    forall r: nat | r < |y.rows| ensures ProgressOk(y, r) { assert ProgressOk(x, r); }
  }

  /** Evicting below the oldest page the next token attends. */
  lemma EvictBelowKeeps(x: Life, l: nat, r: nat, keepFrom: int)
    requires LifeInv(x) && l < Geo(x).layers && r < |x.rows| && x.sys.status == Done
    requires x.rows[r].Live? && (Sliding(Geo(x), l) ==> keepFrom <= LowPage(Geo(x), l, x.rows[r].done[l]))
    ensures var y := x.(sys := EvictBelow(x.sys, l, r, keepFrom)); LifeInv(y) && y.sys.status == Done
  {
    hide LifeInv;
    ShapeOf(x);
    if keepFrom > 0 && Sliding(Geo(x), l) {
      var keep := Least(keepFrom, Geo(x).pages);
      var from := Evicted(x.sys.h, l, r);
      EvictKeeps(x, l, r, from, keep);
      var y := x.(sys := EvictLoop(x.sys, l, r, from, keep));
      ShapeOf(y);
      MarksKeep(y, SetEvicted(y.sys, l, r, Most(from, keep)).h);
    }
  }

  lemma ShapeOf(x: Life)
    requires LifeInv(x)
    ensures LifeShape(x)
  {
  }

  // ---- arithmetic of pages ----

  lemma LowPageMonotone(g: Geometry, l: nat, a: nat, b: nat)
    requires GeometryOk(g) && a <= b
    ensures Low(g, l, a) <= Low(g, l, b) && LowPage(g, l, a) <= LowPage(g, l, b) && Low(g, l, a) <= a
  {
    DivGrows(Low(g, l, a), Low(g, l, b), g.block);
  }

  lemma LowIsBehind(g: Geometry, l: nat, pos: nat)
    requires GeometryOk(g)
    ensures LowPage(g, l, pos) <= pos / g.block
  {
    DivGrows(Low(g, l, pos), pos, g.block);
  }

  /** The tile-aligned cut of a chunk stays below what its first token attends. */
  lemma KeepFromIsLow(g: Geometry, l: nat, start: nat)
    requires GeometryOk(g) && Sliding(g, l)
    ensures KeepFrom(g, start) <= LowPage(g, l, start)
  {
    if g.window > 0 && start >= g.window {
      var oldest := start - (g.window - 1);
      QuotientBounds(oldest, TILE);
      DivGrows((oldest / TILE) * TILE, oldest, g.block);
    }
  }

  /** So does the cut of a decode step. */
  lemma DecodeCutIsLow(g: Geometry, l: nat, pos: nat)
    requires GeometryOk(g) && Sliding(g, l) && g.window > 0 && pos >= g.window
    ensures (pos - g.window) / g.block <= LowPage(g, l, pos)
  {
    DivGrows(pos - g.window, pos - g.window + 1, g.block);
  }

  /** An unmapped page from the oldest attended page on lies past everything written. */
  lemma UnmappedIsNew(x: Life, l: nat, r: nat, lo: nat, hi: nat)
    requires LifeInv(x) && l < Geo(x).layers && r < |x.rows| && x.rows[r].Live?
    requires LowPage(Geo(x), l, x.rows[r].done[l]) <= lo
    ensures Fillable(x, l, r, lo, hi)
  {
    hide SysOk;
    hide EntriesOk;
    hide SlotOk;
    var row := x.rows[r];
    var b := Geo(x).block;
    forall k: nat | lo <= k < hi && k < Geo(x).pages && PageOf(x.sys.h, l, r, k) == -1
      ensures k >= row.shared && row.done[l] <= k * b
    {
      assert Covered(x, l, r, k);
      assert ProgressOk(x, r);
      if k < row.shared { MulGrows(k + 1, row.shared, b); MulStep(k, b); }
    }
  }

  // ---- prepare ----

  /** The part of the prompt that will stay attended is mapped up front, never inside the
      attached prefix. */
  lemma PrepareRange(x: Life, l: nat, r: nat)
    requires LifeInv(x) && l < Geo(x).layers && r < |x.rows| && x.rows[r].Live?
    requires x.rows[r].done[l] < |x.rows[r].tokens|
    ensures Fillable(x, l, r, PrepareFrom(Geo(x), l, |x.rows[r].tokens|),
      CeilPages(|x.rows[r].tokens|, Geo(x).block))
  {
    hide LifeInv;
    ShapeOf(x);
    var g, n, c := Geo(x), |x.rows[r].tokens|, x.rows[r].done[l];
    if Sliding(g, l) && g.window > 0 && n > g.window {
      DivGrows(Low(g, l, c), n - g.window, g.block);
    } else {
      assert Low(g, l, c) == 0;
    }
    UnmappedIsNew(x, l, r, PrepareFrom(g, l, n), CeilPages(n, g.block));
  }

  lemma {:induction false} PrepareLayersKeeps(x: Life, r: nat, l: nat)
    requires LifeInv(x) && r < |x.rows| && x.rows[r].Live?
    requires forall k :: 0 <= k < Geo(x).layers ==> x.rows[r].done[k] < |x.rows[r].tokens|
    ensures LifeInv(x.(sys := PrepareLayers(x.sys, r, |x.rows[r].tokens|, l)))
    decreases Geo(x).layers - l
  {
    hide LifeInv;
    ShapeOf(x);
    if l < Geo(x).layers && x.sys.status == Done {
      var n := |x.rows[r].tokens|;
      var lo, hi := PrepareFrom(Geo(x), l, n), CeilPages(n, Geo(x).block);
      var y := x.(sys := EnsureRow(x.sys, l, r, lo, hi));
      if lo < hi {
        if hi <= Geo(x).pages {
          PrepareRange(x, l, r);
          EnsureKeeps(x, l, r, lo, hi);
        } else {
          FailKeeps(x, BadArgument);
        }
      }
      PrepareLayersKeeps(y, r, l + 1);
    }
  }

  // ---- one row at a time ----

  /** The mask and lengths that name a single row. */
  function OneRow(rows: nat, r: nat, v: int): seq<int> {
    seq(rows, (i: nat) => if i == r then v else 0)
  }

  lemma {:induction false} PrepareOneRow(s: Sys, r: nat, n: nat, i: nat)
    requires SysShape(s) && r < s.h.geo.rows && s.status == Done
    ensures var rows := s.h.geo.rows;
      PrepareRows(s, OneRow(rows, r, n), OneRow(rows, r, 1), i) ==
        if i <= r then PrepareLayers(SetLen(s, r, n), r, n, 0) else s
    decreases s.h.geo.rows - i
  {
    hide PrepareLayers;
    var rows := s.h.geo.rows;
    if i < rows {
      if i == r {
        var t := PrepareLayers(SetLen(s, r, n), r, n, 0);
        if t.status == Done { PrepareOneRow(t, r, n, i + 1); }
      } else {
        PrepareOneRow(s, r, n, i + 1);
      }
    }
  }

  lemma {:induction false} EvictOneRow(s: Sys, l: nat, keep: nat, r: nat, i: nat)
    requires SysShape(s) && l < s.h.geo.layers && r < s.h.geo.rows && s.status == Done
    ensures EvictRows(s, l, keep, OneRow(s.h.geo.rows, r, 1), i) == if i <= r then EvictBelow(s, l, r, keep) else s
    decreases s.h.geo.rows - i
  {
    hide EvictBelow;
    if i < s.h.geo.rows {
      if i == r {
        var t := EvictBelow(s, l, r, keep);
        if t.status == Done { EvictOneRow(t, l, keep, r, i + 1); }
      } else {
        EvictOneRow(s, l, keep, r, i + 1);
      }
    }
  }

  lemma {:induction false} EnsureOneRow(s: Sys, l: nat, lo: nat, hi: nat, r: nat, i: nat)
    requires SysShape(s) && l < s.h.geo.layers && r < s.h.geo.rows && s.status == Done
    ensures EnsureRows(s, l, lo, hi, OneRow(s.h.geo.rows, r, 1), i) == if i <= r then EnsureRow(s, l, r, lo, hi) else s
    decreases s.h.geo.rows - i
  {
    hide EnsureRow;
    if i < s.h.geo.rows {
      if i == r {
        var t := EnsureRow(s, l, r, lo, hi);
        if t.status == Done { EnsureOneRow(t, l, lo, hi, r, i + 1); }
      } else {
        EnsureOneRow(s, l, lo, hi, r, i + 1);
      }
    }
  }

  /** prepare_prefill_masked for one live row with a token left to compute. */
  lemma PrepareKeeps(x: Life, r: nat)
    requires LifeInv(x) && r < |x.rows| && x.rows[r].Live? && x.sys.status == Done
    requires forall k :: 0 <= k < Geo(x).layers ==> x.rows[r].done[k] < |x.rows[r].tokens|
    ensures var n := |x.rows[r].tokens|;
      LifeInv(x.(sys := PrepareMasked(x.sys, OneRow(Geo(x).rows, r, n), OneRow(Geo(x).rows, r, 1))))
  {
    hide LifeInv;
    hide PrepareLayers;
    ShapeOf(x);
    var n := |x.rows[r].tokens|;
    FitsContext(x, r);
    PrepareOneRow(x.sys, r, n, 0);
    var y := x.(sys := SetLen(x.sys, r, n));
    MarksKeep(x, y.sys.h);
    PrepareLayersKeeps(y, r, 0);
  }

  lemma FitsContext(x: Life, r: nat)
    requires LifeInv(x) && r < |x.rows| && x.rows[r].Live?
    ensures |x.rows[r].tokens| <= MaxTokens(Geo(x))
    ensures forall l: nat :: l < Geo(x).layers ==>
      x.rows[r].shared * Geo(x).block <= x.rows[r].done[l] <= |x.rows[r].tokens|
  {
    assert ProgressOk(x, r);
  }

  lemma CeilBound(n: nat, pages: nat, block: nat)
    requires block > 0 && n <= pages * block
    ensures CeilPages(n, block) <= pages
  {
    if n > 0 {
      QuotientBounds(n - 1, block);
      if (n - 1) / block >= pages { MulGrows(pages, (n - 1) / block, block); }
    }
  }

  lemma CeilCovers(n: nat, t: nat, block: nat)
    requires block > 0 && t < n
    ensures t / block < CeilPages(n, block)
  {
    DivGrows(t, n - 1, block);
  }

  /** The page that holds token t of row r of layer l is mapped. */
  ghost predicate MappedAt(x: Life, l: nat, r: nat, t: nat)
    requires LifeShape(x) && l < Geo(x).layers && r < |x.rows|
  {
    t / Geo(x).block < Geo(x).pages && PageOf(x.sys.h, l, r, t / Geo(x).block) >= 0
  }

  ghost predicate Mapped(x: Life, l: nat, r: nat, lo: nat, hi: nat)
    requires LifeShape(x) && l < Geo(x).layers && r < |x.rows|
  {
    forall t: nat :: lo <= t < hi ==> MappedAt(x, l, r, t)
  }

  lemma EnsuredAreMapped(x: Life, l: nat, r: nat, lo: nat, hi: nat)
    requires LifeInv(x) && l < Geo(x).layers && r < |x.rows| && hi <= MaxTokens(Geo(x)) && x.sys.status == Done
    requires Fillable(x, l, r, lo / Geo(x).block, CeilPages(hi, Geo(x).block)) && lo < hi
    ensures var y := x.(sys := EnsureRow(x.sys, l, r, lo / Geo(x).block, CeilPages(hi, Geo(x).block)));
      LifeInv(y) && (y.sys.status == Done ==> Mapped(y, l, r, lo, hi))
  {
    hide LifeInv;
    hide CeilPages;
    hide SlotAt;
    hide Fillable;
    ShapeOf(x);
    var b := Geo(x).block;
    var first, last := lo / b, CeilPages(hi, b);
    CeilBound(hi, Geo(x).pages, b);
    CeilCovers(hi, lo, b);
    EnsureKeeps(x, l, r, first, last);
    EnsurePages(x.sys, l, r, first, last);
    var y := x.(sys := EnsureRow(x.sys, l, r, first, last));
    if y.sys.status == Done {
      forall t: nat | lo <= t < hi ensures MappedAt(y, l, r, t) {
        CeilCovers(hi, t, b);
        DivGrows(lo, t, b);
      }
    }
  }

  /** step_prefill_chunk_masked for one row and one layer, up to token `end`. */
  lemma ChunkKeeps(x: Life, l: nat, r: nat, end: nat)
    requires LifeInv(x) && r < |x.rows| && x.rows[r].Live? && l < Geo(x).layers && x.sys.status == Done
    requires x.rows[r].done[l] < end <= |x.rows[r].tokens|
    ensures var y := x.(sys := StepChunk(x.sys, l, x.rows[r].done[l], end, OneRow(Geo(x).rows, r, 1)));
      LifeInv(y) && (y.sys.status == Done ==> Mapped(y, l, r, x.rows[r].done[l], end))
  {
    hide LifeInv;
    hide EvictBelow;
    hide CeilPages;
    hide Fillable;
    hide Mapped;
    hide EnsureRow;
    hide LowPage;
    ShapeOf(x);
    var g, start := Geo(x), x.rows[r].done[l];
    FitsContext(x, r);
    LowIsBehind(g, l, start);
    var keep := KeepFrom(g, start);
    var evicts := g.window > 0 && start >= g.window;
    var kept := if evicts then EvictBelow(x.sys, l, r, keep) else x.sys;
    if evicts {
      EvictOneRow(x.sys, l, keep, r, 0);
      if Sliding(g, l) { KeepFromIsLow(g, l, start); }
      EvictBelowKeeps(x, l, r, keep);
    }
    var y := x.(sys := kept);
    EnsureOneRow(kept, l, start / g.block, CeilPages(end, g.block), r, 0);
    UnmappedIsNew(y, l, r, start / g.block, CeilPages(end, g.block));
    EnsuredAreMapped(y, l, r, start, end);
  }

  // ---- decode ----

  lemma {:induction false} DecodeEvictKeeps(x: Life, r: nat, l: nat)
    requires LifeInv(x) && r < |x.rows| && x.rows[r].Live? && x.sys.status == Done
    requires forall k :: 0 <= k < Geo(x).layers ==> x.rows[r].done[k] == |x.rows[r].tokens|
    requires Geo(x).window > 0 && |x.rows[r].tokens| >= Geo(x).window
    ensures var pos := |x.rows[r].tokens|;
      var y := x.(sys := DecodeEvict(x.sys, r, (pos - Geo(x).window) / Geo(x).block, l));
      LifeInv(y) && y.sys.status == Done
    decreases Geo(x).layers - l
  {
    hide LifeInv;
    hide EvictBelow;
    ShapeOf(x);
    if l < Geo(x).layers {
      var pos := |x.rows[r].tokens|;
      var keep := (pos - Geo(x).window) / Geo(x).block;
      if Sliding(Geo(x), l) { DecodeCutIsLow(Geo(x), l, pos); }
      EvictBelowKeeps(x, l, r, keep);
      DecodeEvictKeeps(x.(sys := EvictBelow(x.sys, l, r, keep)), r, l + 1);
    }
  }

  /** The page of position pos is mapped in layers below n. */
  ghost predicate SlotReady(x: Life, r: nat, pos: nat, n: nat)
    requires LifeShape(x) && r < |x.rows| && n <= Geo(x).layers
  {
    forall l: nat :: l < n ==> MappedAt(x, l, r, pos)
  }

  lemma MappedStays(x: Life, y: Life, l: nat, r: nat, l': nat, r': nat, pos: nat)
    requires LifeShape(x) && LifeShape(y) && SameFrame(x.sys, y.sys) && |y.rows| == |x.rows|
    requires l < Geo(x).layers && r < |x.rows| && l' < Geo(x).layers && r' < |x.rows| && (l' != l || r' != r)
    requires OtherSlotsSame(x.sys, y.sys, l, r) && MappedAt(x, l', r', pos)
    ensures MappedAt(y, l', r', pos)
  {
  }

  lemma {:induction false} DecodeEnsureKeeps(x: Life, r: nat, l: nat)
    requires LifeInv(x) && r < |x.rows| && x.rows[r].Live? && x.sys.status == Done && l <= Geo(x).layers
    requires forall k :: 0 <= k < Geo(x).layers ==> x.rows[r].done[k] == |x.rows[r].tokens|
    requires |x.rows[r].tokens| < MaxTokens(Geo(x)) && SlotReady(x, r, |x.rows[r].tokens|, l)
    ensures var pos := |x.rows[r].tokens|;
      var y := x.(sys := DecodeEnsure(x.sys, r, pos / Geo(x).block, l));
      LifeInv(y) && (y.sys.status == Done ==> SlotReady(y, r, pos, Geo(x).layers))
    decreases Geo(x).layers - l
  {
    hide LifeInv;
    hide MappedAt;
    ShapeOf(x);
    if l < Geo(x).layers {
      var g, pos := Geo(x), |x.rows[r].tokens|;
      var y := x.(sys := EnsureRow(x.sys, l, r, pos / g.block, pos / g.block + 1));
      CeilOne(pos, g.block);
      LowPageMonotone(g, l, pos, pos);
      DivGrows(Low(g, l, pos), pos, g.block);
      UnmappedIsNew(x, l, r, pos / g.block, CeilPages(pos + 1, g.block));
      EnsuredAreMapped(x, l, r, pos, pos + 1);
      CeilBound(pos + 1, g.pages, g.block);
      EnsurePages(x.sys, l, r, pos / g.block, pos / g.block + 1);
      if y.sys.status == Done {
        assert MappedAt(y, l, r, pos) by { assert Mapped(y, l, r, pos, pos + 1); }
        forall k: nat | k < l ensures MappedAt(y, k, r, pos) { MappedStays(x, y, l, r, k, r, pos); }
        DecodeEnsureKeeps(y, r, l + 1);
      }
    }
  }

  lemma CeilOne(pos: nat, block: nat)
    requires block > 0
    ensures CeilPages(pos + 1, block) == pos / block + 1
  {
  }

  lemma DecodeRowKeeps(x: Life, r: nat)
    requires LifeInv(x) && r < |x.rows| && x.rows[r].Live? && x.sys.status == Done
    requires forall k :: 0 <= k < Geo(x).layers ==> x.rows[r].done[k] == |x.rows[r].tokens|
    requires |x.rows[r].tokens| < MaxTokens(Geo(x))
    ensures var pos := |x.rows[r].tokens|; var y := x.(sys := DecodeRow(x.sys, r, pos));
      LifeInv(y) && (y.sys.status == Done ==> SlotReady(y, r, pos, Geo(x).layers))
  {
    hide LifeInv;
    hide DecodeEvict;
    hide DecodeEnsure;
    hide Mapped;
    ShapeOf(x);
    var g, pos := Geo(x), |x.rows[r].tokens|;
    if g.window > 0 && pos >= g.window {
      DecodeEvictKeeps(x, r, 0);
      DecodeEnsureKeeps(x.(sys := DecodeEvict(x.sys, r, (pos - g.window) / g.block, 0)), r, 0);
    } else {
      DecodeEnsureKeeps(x, r, 0);
    }
  }
}
