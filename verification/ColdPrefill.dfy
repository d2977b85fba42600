/** An admitted cold prompt, or a packed batch of them, never runs out of blocks. */
module ColdPrefill {
  import opened Arithmetic
  import opened Wrappers
  import opened PrefixKeys
  import opened KvModel
  import opened KvInvariant
  import opened KvOps
  import opened KvPages
  import opened KvFree
  import opened KvRebind
  import opened RowLife
  import opened RowLifeSteps
  import opened RowLifeWrites
  import opened RowLifecycle
  import opened Admission
  import RowLifeAdmit

  // ---- one layer of one row at a time ----

  /** Only the pages and the mark of (l, r) may differ. */
  ghost predicate OnlyLayer(s: Sys, t: Sys, l: nat, r: nat)
    requires SysShape(s) && SysShape(t) && l < s.h.geo.layers && r < s.h.geo.rows
  {
    && SameFrame(s, t) && OtherSlotsSame(s, t, l, r)
    && forall l': nat, r': nat :: l' < s.h.geo.layers && r' < s.h.geo.rows && (l' != l || r' != r) ==>
      Evicted(t.h, l', r') == Evicted(s.h, l', r')
  }

  lemma OnlyLayerTrans(s: Sys, m: Sys, t: Sys, l: nat, r: nat)
    requires SysShape(s) && SysShape(m) && SysShape(t) && l < s.h.geo.layers && r < s.h.geo.rows
    requires OnlyLayer(s, m, l, r) && OnlyLayer(m, t, l, r)
    ensures OnlyLayer(s, t, l, r)
  {
    hide SlotAt;
    hide RowAt;
  }

  lemma OtherHeld(s: Sys, t: Sys, l: nat, r: nat, l': nat, r': nat)
    requires SysShape(s) && SysShape(t) && SameFrame(s, t) && l < s.h.geo.layers && r < s.h.geo.rows
    requires OtherSlotsSame(s, t, l, r) && l' < s.h.geo.layers && r' < s.h.geo.rows && (l' != l || r' != r)
    ensures Held(t.h, l', r') == Held(s.h, l', r')
  {
    hide SlotAt;
    forall k: nat | k < s.h.geo.pages ensures PageOf(t.h, l', r', k) == PageOf(s.h, l', r', k) {}
  }

  /** Moving the eviction mark of (l, r) changes no page. */
  lemma MarkLayer(m: Life, l: nat, r: nat, keep: nat)
    requires LifeInv(m) && m.sys.status == Done && l < Geo(m).layers && r < |m.rows| && keep <= Geo(m).pages
    ensures var y := m.(sys := SetEvicted(m.sys, l, r, keep));
      && LifeInv(y) && OnlyLayer(m.sys, y.sys, l, r) && Evicted(y.sys.h, l, r) == keep
      && Held(y.sys.h, l, r) == Held(m.sys.h, l, r) && Balance(y, r) == Balance(m, r)
  {
    hide LifeInv;
    hide SlotAt;
    ShapeOf(m);
    var y := m.(sys := SetEvicted(m.sys, l, r, keep));
    MarksKeep(m, y.sys.h);
    SetEvictedFacts(m.sys, l, r, keep);
    forall l': nat, r': nat, k: nat | l' < Geo(m).layers && r' < |m.rows| && k < Geo(m).pages
      ensures PageOf(y.sys.h, l', r', k) == PageOf(m.sys.h, l', r', k) {}
    forall l': nat | l' < Geo(m).layers ensures Held(y.sys.h, l', r) == Held(m.sys.h, l', r) {}
    TotalChange(m.sys.h, y.sys.h, r, l, Geo(m).layers);
  }

  /** What a chunk cuts stays inside the page table. */
  lemma KeepInTable(x: Life, l: nat, r: nat)
    requires LifeInv(x) && l < Geo(x).layers && r < |x.rows| && x.rows[r].Live? && Sliding(Geo(x), l)
    ensures KeepFrom(Geo(x), x.rows[r].done[l]) <= Geo(x).pages
  {
    hide LifeInv;
    ShapeOf(x);
    FitsContext(x, r);
    var g, start := Geo(x), x.rows[r].done[l];
    KeepFromIsLow(g, l, start);
    DivGrows(Low(g, l, start), g.pages * g.block, g.block);
    DivExact(g.pages, g.block);
  }

  lemma EvictedPages(x: Life, l: nat, r: nat, from: nat, keep: nat)
    requires LifeInv(x) && l < Geo(x).layers && r < |x.rows| && x.sys.status == Done && keep <= Geo(x).pages
    requires x.rows[r].Live? && x.rows[r].shared == 0 && keep <= LowPage(Geo(x), l, x.rows[r].done[l])
    ensures var y := x.(sys := EvictLoop(x.sys, l, r, from, keep));
      && LifeInv(y) && y.sys.status == Done && OnlyLayer(x.sys, y.sys, l, r) && Balance(y, r) == Balance(x, r)
      && Held(y.sys.h, l, r) == Held(x.sys.h, l, r) - Range(from, keep)
  {
    hide LifeInv;
    hide Balance;
    hide SlotAt;
    hide LowPage;
    hide EvictLoop;
    ShapeOf(x);
    EvictBalance(x, l, r, from, keep);
    EvictPages(x.sys, l, r, from, keep);
    var y := x.(sys := EvictLoop(x.sys, l, r, from, keep));
    ShapeOf(y);
    SameEvicted(x.sys, y.sys);
  }

  /** The eviction half of a chunk. */
  lemma CutLayer(x: Life, l: nat, r: nat)
    requires LifeInv(x) && l < Geo(x).layers && r < |x.rows| && x.sys.status == Done
    requires x.rows[r].Live? && x.rows[r].shared == 0
    ensures var keep := KeepFrom(Geo(x), x.rows[r].done[l]);
      var from := Evicted(x.sys.h, l, r);
      var y := x.(sys := EvictBelow(x.sys, l, r, keep));
      && LifeInv(y) && y.sys.status == Done && OnlyLayer(x.sys, y.sys, l, r) && Balance(y, r) == Balance(x, r)
      && (Sliding(Geo(x), l) ==>
            Evicted(y.sys.h, l, r) == Most(from, keep) && Held(y.sys.h, l, r) == Held(x.sys.h, l, r) - Range(from, keep))
      && (!Sliding(Geo(x), l) ==> y == x)
  {
    hide LifeInv;
    hide Balance;
    hide Held;
    hide SlotAt;
    hide RowAt;
    hide EvictLoop;
    hide LowPage;
    hide KeepFrom;
    ShapeOf(x);
    var keep := KeepFrom(Geo(x), x.rows[r].done[l]);
    var from := Evicted(x.sys.h, l, r);
    if Sliding(Geo(x), l) && keep > 0 {
      KeepInTable(x, l, r);
      KeepFromIsLow(Geo(x), l, x.rows[r].done[l]);
      EvictedPages(x, l, r, from, keep);
      var m := x.(sys := EvictLoop(x.sys, l, r, from, keep));
      ShapeOf(m);
      MarkLayer(m, l, r, Most(from, keep));
      var y := x.(sys := EvictBelow(x.sys, l, r, keep));
      assert y == m.(sys := SetEvicted(m.sys, l, r, Most(from, keep)));
      ShapeOf(y);
      OnlyLayerTrans(x.sys, m.sys, y.sys, l, r);
    } else {
      assert Held(x.sys.h, l, r) - Range(from, 0) == Held(x.sys.h, l, r);
    }
  }

  /** The mapping half, and one layer of preparing. */
  lemma FillLayer(x: Life, l: nat, r: nat, lo: nat, hi: nat, chunk: nat, n: nat, allowed: set<nat>)
    requires LifeInv(x) && l < Geo(x).layers && r < |x.rows| && hi <= Geo(x).pages && x.sys.status == Done
    requires Fillable(x, l, r, lo, hi) && WithinCharge(x.sys.h, r, chunk, n)
    requires Balance(x, r) >= Required(Geo(x), chunk, n, Geo(x).layers)
    requires Held(x.sys.h, l, r) <= allowed && (forall k: nat :: lo <= k < hi ==> k in allowed)
    requires |allowed| <= LayerBlocks(Geo(x), chunk, n, l)
    ensures var y := x.(sys := EnsureRow(x.sys, l, r, lo, hi));
      && LifeInv(y) && y.sys.status == Done && WithinCharge(y.sys.h, r, chunk, n)
      && Held(y.sys.h, l, r) <= allowed && Balance(y, r) == Balance(x, r)
      && OnlyLayer(x.sys, y.sys, l, r) && Evicted(y.sys.h, l, r) == Evicted(x.sys.h, l, r)
  {
    hide LifeInv;
    hide Balance;
    hide WithinCharge;
    hide Held;
    hide SlotAt;
    hide EnsureLoop;
    hide Fillable;
    hide Required;
    hide LayerBlocks;
    ShapeOf(x);
    EnsurePages(x.sys, l, r, lo, hi);
    EnsureHasRoom(x, l, r, lo, hi, chunk, n, allowed);
    if lo < hi {
      var y := x.(sys := EnsureLoop(x.sys, l, r, lo, hi));
      ShapeOf(y);
      SameEvicted(x.sys, y.sys);
    }
  }

  // ---- a row that computes its whole prompt ----

  /** Layer l has computed up to done[l]; its last chunk began at `start` and was no longer
      than the chunk size, and it holds only what its charge allows for that. */
  ghost predicate ColdLayer(x: Life, r: nat, chunk: nat, start: nat, l: nat)
    requires LifeShape(x) && r < |x.rows| && x.rows[r].Live? && l < Geo(x).layers
  {
    var g, n, end := Geo(x), |x.rows[r].tokens|, x.rows[r].done[l];
    && start <= end <= start + chunk
    && (Sliding(g, l) ==> Evicted(x.sys.h, l, r) == KeepFrom(g, start))
    && Held(x.sys.h, l, r) <= Allowed(g, l, n, KeepFrom(g, start), CeilPages(end, g.block))
  }

  /** Row r is prefilling with nothing attached; last[l] is where layer l's last chunk began. */
  ghost predicate ColdRow(x: Life, r: nat, chunk: nat, last: seq<nat>)
    requires LifeShape(x)
  {
    && r < |x.rows| && x.rows[r].Live? && x.rows[r].shared == 0 && x.rows[r].tokens != []
    && |last| == Geo(x).layers && WithinCharge(x.sys.h, r, chunk, |x.rows[r].tokens|)
    && forall l: nat :: l < Geo(x).layers ==> ColdLayer(x, r, chunk, last[l], l)
  }

  ghost predicate Cold(x: Life, chunk: nat) {
    LifeInv(x) && x.sys.status == Done && Geo(x).window > 0 && Geo(x).block % 64 == 0 && chunk > 0
  }

  function Charge(x: Life, r: nat, chunk: nat): nat
    requires LifeShape(x) && r < |x.rows| && x.rows[r].Live?
  {
    Required(Geo(x), chunk, |x.rows[r].tokens|, Geo(x).layers)
  }

  /** The other layers of the row are as they were. */
  lemma OtherLayersCold(x: Life, y: Life, r: nat, chunk: nat, last: seq<nat>, l: nat, start: nat)
    requires LifeShape(x) && LifeShape(y) && ColdRow(x, r, chunk, last) && l < Geo(x).layers
    requires OnlyLayer(x.sys, y.sys, l, r) && |y.rows| == |x.rows|
    requires y.rows[r].Live? && y.rows[r].tokens == x.rows[r].tokens && y.rows[r].shared == 0
    requires forall l': nat :: l' < Geo(x).layers && l' != l ==> y.rows[r].done[l'] == x.rows[r].done[l']
    requires WithinCharge(y.sys.h, r, chunk, |x.rows[r].tokens|) && ColdLayer(y, r, chunk, start, l)
    ensures ColdRow(y, r, chunk, last[l := start])
  {
    hide WithinCharge;
    hide Held;
    hide Allowed;
    hide RowAt;
    hide KeepFrom;
    hide OtherSlotsSame;
    forall l': nat | l' < Geo(y).layers && l' != l ensures ColdLayer(y, r, chunk, last[l'], l') {
      assert ColdLayer(x, r, chunk, last[l'], l');
      OtherHeld(x.sys, y.sys, l, r, l', r);
    }
  }

  lemma CutCharge(x: Life, y: Life, l: nat, r: nat, chunk: nat, n: nat)
    requires LifeShape(x) && LifeShape(y) && l < Geo(x).layers && r < |x.rows| && OnlyLayer(x.sys, y.sys, l, r)
    requires Held(y.sys.h, l, r) <= Held(x.sys.h, l, r) && WithinCharge(x.sys.h, r, chunk, n)
    ensures WithinCharge(y.sys.h, r, chunk, n)
  {
    hide LayerBlocks;
    hide Held;
    hide OtherSlotsSame;
    forall l': nat | l' < Geo(y).layers ensures |Held(y.sys.h, l', r)| <= LayerBlocks(Geo(y), chunk, n, l') {
      if l' == l {
        SubsetSize(Held(y.sys.h, l, r), Held(x.sys.h, l, r));
      } else {
        OtherHeld(x.sys, y.sys, l, r, l', r);
      }
    }
  }

  /** After the cut the layer holds what the new start allows. */
  lemma CutIsCold(x: Life, r: nat, chunk: nat, start: nat, l: nat)
    requires Cold(x, chunk) && r < |x.rows| && x.rows[r].Live? && x.rows[r].shared == 0 && l < Geo(x).layers
    requires ColdLayer(x, r, chunk, start, l) && x.rows[r].done[l] < |x.rows[r].tokens|
    ensures var g, done, n := Geo(x), x.rows[r].done[l], |x.rows[r].tokens|;
      var y := x.(sys := EvictBelow(x.sys, l, r, KeepFrom(g, done)));
      && LifeInv(y) && y.sys.status == Done && OnlyLayer(x.sys, y.sys, l, r) && Balance(y, r) == Balance(x, r)
      && (Sliding(g, l) ==> Evicted(y.sys.h, l, r) == KeepFrom(g, done))
      && Held(y.sys.h, l, r) <= Held(x.sys.h, l, r)
      && Held(y.sys.h, l, r) <= Allowed(g, l, n, KeepFrom(g, done), CeilPages(done, g.block))
  {
    hide LifeInv;
    hide Balance;
    hide Held;
    hide OnlyLayer;
    hide EvictBelow;
    hide Allowed;
    hide CeilPages;
    hide KeepFrom;
    hide RowAt;
    ShapeOf(x);
    var g, done, n := Geo(x), x.rows[r].done[l], |x.rows[r].tokens|;
    CutLayer(x, l, r);
    if Sliding(g, l) {
      KeepFromMonotone(g, start, done);
      CutIsAllowed(g, l, n, start, done, Held(x.sys.h, l, r));
    } else {
      FullAllowed(g, l, n, KeepFrom(g, start), KeepFrom(g, done), CeilPages(done, g.block));
    }
  }

  lemma NothingCut(g: Geometry, start: nat)
    requires GeometryOk(g) && (g.window == 0 || start < g.window)
    ensures KeepFrom(g, start) == 0
  {
  }

  lemma CutIsChunkStep(x: Life, l: nat, r: nat, end: nat)
    requires LifeShape(x) && x.sys.status == Done && l < Geo(x).layers && r < |x.rows| && x.rows[r].Live?
    requires x.rows[r].done[l] < end <= MaxTokens(Geo(x))
    requires EvictBelow(x.sys, l, r, KeepFrom(Geo(x), x.rows[r].done[l])).status == Done
    ensures ChunkStep(x, l, r, end).sys ==
      EnsureRow(EvictBelow(x.sys, l, r, KeepFrom(Geo(x), x.rows[r].done[l])), l, r,
        x.rows[r].done[l] / Geo(x).block, CeilPages(end, Geo(x).block))
  {
    hide EnsureRow;
    hide EvictBelow;
    hide CeilPages;
    hide KeepFrom;
    hide ChunkLayer;
    var g, start := Geo(x), x.rows[r].done[l];
    OneRowChunk(x.sys, l, r, start, end);
    assert OneRow(g.rows, r, 1) == OneRow(x.sys.h.geo.rows, r, 1);
  }

  lemma OneRowChunk(s: Sys, l: nat, r: nat, start: nat, end: nat)
    requires SysShape(s) && s.status == Done && l < s.h.geo.layers && r < s.h.geo.rows
    requires EvictBelow(s, l, r, KeepFrom(s.h.geo, start)).status == Done
    ensures ChunkLayer(s, l, start, end, OneRow(s.h.geo.rows, r, 1)) ==
      EnsureRow(EvictBelow(s, l, r, KeepFrom(s.h.geo, start)), l, r, start / s.h.geo.block, CeilPages(end, s.h.geo.block))
  {
    hide EnsureRow;
    hide CeilPages;
    hide EvictRows;
    hide EnsureRows;
    hide EvictLoop;
    hide SetEvicted;
    hide RowAt;
    hide KeepFrom;
    var g := s.h.geo;
    var keep := KeepFrom(g, start);
    if g.window > 0 && start >= g.window { EvictOneRow(s, l, keep, r, 0); } else { NothingCut(g, start); }
    EnsureOneRow(EvictBelow(s, l, r, keep), l, start / g.block, CeilPages(end, g.block), r, 0);
  }

  /** What a chunk maps is allowed for it. */
  lemma ChunkRange(g: Geometry, l: nat, n: nat, start: nat, end: nat)
    requires GeometryOk(g) && start < end <= n
    ensures forall k: nat :: start / g.block <= k < CeilPages(end, g.block) ==>
      k in Allowed(g, l, n, KeepFrom(g, start), CeilPages(end, g.block))
  {
    AllowedGrows(g, l, n, 0, end, n);
    if Sliding(g, l) {
      KeepFromIsLow(g, l, start);
      DivGrows(Low(g, l, start), start, g.block);
    }
  }

  lemma FromCold(x: Life, chunk: nat)
    requires Cold(x, chunk)
    ensures LifeInv(x) && x.sys.status == Done
  {
  }

  lemma ChunkAllowed(m: Life, l: nat, r: nat, end: nat, chunk: nat)
    requires Cold(m, chunk) && LifeShape(m) && CanChunk(m, l, r, end) && end <= m.rows[r].done[l] + chunk
    ensures var g, start, n := Geo(m), m.rows[r].done[l], |m.rows[r].tokens|;
      var allowed := Allowed(g, l, n, KeepFrom(g, start), CeilPages(end, g.block));
      && |allowed| <= LayerBlocks(g, chunk, n, l)
      && Allowed(g, l, n, KeepFrom(g, start), CeilPages(start, g.block)) <= allowed
      && forall k: nat :: start / g.block <= k < CeilPages(end, g.block) ==> k in allowed
  {
    hide LifeInv;
    hide Allowed;
    hide LayerBlocks;
    hide KeepFrom;
    hide CeilPages;
    var g, start, n := Geo(m), m.rows[r].done[l], |m.rows[r].tokens|;
    AllowedGrows(g, l, n, KeepFrom(g, start), start, end);
    AllowedFits(g, l, chunk, n, start, end);
    ChunkRange(g, l, n, start, end);
  }

  lemma ChunkFillable(m: Life, l: nat, r: nat, end: nat)
    requires LifeInv(m) && CanChunk(m, l, r, end)
    ensures CeilPages(end, Geo(m).block) <= Geo(m).pages
    ensures Fillable(m, l, r, m.rows[r].done[l] / Geo(m).block, CeilPages(end, Geo(m).block))
  {
    hide LifeInv;
    hide Fillable;
    hide CeilPages;
    ShapeOf(m);
    var g, start := Geo(m), m.rows[r].done[l];
    FitsContext(m, r);
    CeilBound(end, g.pages, g.block);
    DivGrows(Low(g, l, start), start, g.block);
    UnmappedIsNew(m, l, r, start / g.block, CeilPages(end, g.block));
  }

  /** The mapping half of a chunk. */
  lemma ChunkFills(m: Life, l: nat, r: nat, end: nat, chunk: nat)
    requires Cold(m, chunk) && CanChunk(m, l, r, end) && end <= m.rows[r].done[l] + chunk && m.rows[r].shared == 0
    requires WithinCharge(m.sys.h, r, chunk, |m.rows[r].tokens|) && Balance(m, r) >= Charge(m, r, chunk)
    requires Held(m.sys.h, l, r) <= Allowed(Geo(m), l, |m.rows[r].tokens|, KeepFrom(Geo(m), m.rows[r].done[l]),
      CeilPages(m.rows[r].done[l], Geo(m).block))
    ensures var g, start, n := Geo(m), m.rows[r].done[l], |m.rows[r].tokens|;
      var y := m.(sys := EnsureRow(m.sys, l, r, start / g.block, CeilPages(end, g.block)));
      && LifeInv(y) && y.sys.status == Done && WithinCharge(y.sys.h, r, chunk, n) && Balance(y, r) == Balance(m, r)
      && Held(y.sys.h, l, r) <= Allowed(g, l, n, KeepFrom(g, start), CeilPages(end, g.block))
      && OnlyLayer(m.sys, y.sys, l, r) && Evicted(y.sys.h, l, r) == Evicted(m.sys.h, l, r)
  {
    hide LifeInv;
    hide Balance;
    hide Required;
    hide WithinCharge;
    hide Held;
    hide OnlyLayer;
    hide EnsureRow;
    hide CeilPages;
    hide KeepFrom;
    hide Allowed;
    hide Fillable;
    hide LayerBlocks;
    hide RowAt;
    hide Cold;
    FromCold(m, chunk);
    ShapeOf(m);
    var g, start, n := Geo(m), m.rows[r].done[l], |m.rows[r].tokens|;
    var allowed := Allowed(g, l, n, KeepFrom(g, start), CeilPages(end, g.block));
    ChunkAllowed(m, l, r, end, chunk);
    ChunkFillable(m, l, r, end);
    FillLayer(m, l, r, start / g.block, CeilPages(end, g.block), chunk, n, allowed);
  }

  /** A chunk of an admitted cold row gets all its pages, and leaves the row cold. */
  lemma ChunkStaysCold(x: Life, r: nat, chunk: nat, last: seq<nat>, l: nat, end: nat)
    requires Cold(x, chunk) && ColdRow(x, r, chunk, last) && Balance(x, r) >= Charge(x, r, chunk)
    requires CanChunk(x, l, r, end) && end <= x.rows[r].done[l] + chunk
    ensures ChunkStep(x, l, r, end).sys.status == Done
    ensures var z := Next(x, PrefillChunk(l, r, end));
      && Cold(z, chunk) && Geo(z) == Geo(x) && ColdRow(z, r, chunk, last[l := x.rows[r].done[l]])
      && Balance(z, r) == Balance(x, r)
      && z.rows[r].tokens == x.rows[r].tokens && SameFrame(x.sys, z.sys) && OtherRowsSame(x.sys, z.sys, r)
      && (forall r' :: 0 <= r' < |x.rows| && r' != r ==> z.rows[r'] == x.rows[r'])
  {
    hide LifeInv;
    hide Balance;
    hide Required;
    hide WithinCharge;
    hide Held;
    hide OnlyLayer;
    hide EvictBelow;
    hide EnsureRow;
    hide ChunkStep;
    hide CeilPages;
    hide KeepFrom;
    hide Allowed;
    hide Fillable;
    hide LayerBlocks;
    hide Next;
    hide LowPage;
    hide OtherRowsSame;
    hide RowAt;
    ShapeOf(x);
    var g, start, n := Geo(x), x.rows[r].done[l], |x.rows[r].tokens|;
    assert ColdLayer(x, r, chunk, last[l], l);
    FitsContext(x, r);
    CutIsCold(x, r, chunk, last[l], l);
    var m := x.(sys := EvictBelow(x.sys, l, r, KeepFrom(g, start)));
    ShapeOf(m);
    CutCharge(x, m, l, r, chunk, n);
    ChunkFills(m, l, r, end, chunk);
    CutIsChunkStep(x, l, r, end);
    var y := ChunkStep(x, l, r, end);
    StepIsLife(x, l, r, end);
    OnlyLayerTrans(x.sys, m.sys, y.sys, l, r);
    WriteIsCold(x, y, r, chunk, last, l, end);
  }

  lemma StepIsLife(x: Life, l: nat, r: nat, end: nat)
    requires LifeShape(x) && r < |x.rows| && x.rows[r].Live? && l < Geo(x).layers
    ensures ChunkStep(x, l, r, end) == x.(sys := ChunkStep(x, l, r, end).sys)
  {
  }

  lemma WriteIsCold(x: Life, y: Life, r: nat, chunk: nat, last: seq<nat>, l: nat, end: nat)
    requires Cold(x, chunk) && ColdRow(x, r, chunk, last) && CanChunk(x, l, r, end)
    requires end <= x.rows[r].done[l] + chunk && y == ChunkStep(x, l, r, end) && y.sys.status == Done
    requires LifeShape(y) && OnlyLayer(x.sys, y.sys, l, r) && Balance(y, r) == Balance(x, r)
    requires WithinCharge(y.sys.h, r, chunk, |x.rows[r].tokens|)
    requires Sliding(Geo(x), l) ==> Evicted(y.sys.h, l, r) == KeepFrom(Geo(x), x.rows[r].done[l])
    requires Held(y.sys.h, l, r) <= Allowed(Geo(x), l, |x.rows[r].tokens|, KeepFrom(Geo(x), x.rows[r].done[l]), CeilPages(end, Geo(x).block))
    ensures var z := Next(x, PrefillChunk(l, r, end));
      && Cold(z, chunk) && Geo(z) == Geo(x) && ColdRow(z, r, chunk, last[l := x.rows[r].done[l]])
      && Balance(z, r) == Balance(x, r)
      && z.rows[r].tokens == x.rows[r].tokens && SameFrame(x.sys, z.sys) && OtherRowsSame(x.sys, z.sys, r)
      && (forall r' :: 0 <= r' < |x.rows| && r' != r ==> z.rows[r'] == x.rows[r'])
  {
    hide LifeInv;
    hide Held;
    hide WithinCharge;
    hide StepChunk;
    hide CeilPages;
    hide KeepFrom;
    hide Allowed;
    hide SlotAt;
    hide RowAt;
    hide Next;
    hide WrittenTo;
    hide Mapped;
    ShapeOf(x);
    NextKeeps(x, PrefillChunk(l, r, end));
    ChunkKeeps(x, l, r, end);
    NextWrites(x, l, r, end);
    var z := Next(x, PrefillChunk(l, r, end));
    ShapeOf(z);
    OtherLayersCold(x, z, r, chunk, last, l, x.rows[r].done[l]);
  }

  lemma NextWrites(x: Life, l: nat, r: nat, end: nat)
    requires LifeInv(x) && x.sys.status == Done && Geo(x).window > 0 && CanChunk(x, l, r, end)
    requires ChunkStep(x, l, r, end).sys.status == Done
    requires Mapped(ChunkStep(x, l, r, end), l, r, x.rows[r].done[l], end)
    ensures Next(x, PrefillChunk(l, r, end)) == WrittenTo(ChunkStep(x, l, r, end), l, r, end)
  {
    hide LifeInv;
    hide StepChunk;
    hide WrittenTo;
    hide Mapped;
  }

  // ---- preparing ----

  lemma {:induction false} PrepareStaysCold(x: Life, r: nat, chunk: nat, last: seq<nat>, l: nat)
    requires Cold(x, chunk) && ColdRow(x, r, chunk, last) && Balance(x, r) >= Charge(x, r, chunk) && CanPrepare(x, r)
    ensures var y := x.(sys := PrepareLayers(x.sys, r, |x.rows[r].tokens|, l));
      && Cold(y, chunk) && ColdRow(y, r, chunk, last) && Balance(y, r) == Balance(x, r)
      && OtherRowsSame(x.sys, y.sys, r)
    decreases Geo(x).layers - l
  {
    hide LifeInv;
    hide Balance;
    hide Required;
    hide ColdRow;
    hide EnsureRow;
    hide OnlyLayer;
    hide OtherRowsSame;
    ShapeOf(x);
    if l < Geo(x).layers {
      var n := |x.rows[r].tokens|;
      var m := x.(sys := EnsureRow(x.sys, l, r, PrepareFrom(Geo(x), l, n), CeilPages(n, Geo(x).block)));
      PrepareLayerCold(x, r, chunk, last, l);
      ShapeOf(m);
      PrepareStaysCold(m, r, chunk, last, l + 1);
      var y := x.(sys := PrepareLayers(x.sys, r, n, l));
      ShapeOf(y);
      RowsSameTrans(x.sys, m.sys, y.sys, l, r);
    } else {
      RowsSameSelf(x.sys, r);
    }
  }

  lemma RowsSameSelf(s: Sys, r: nat)
    requires SysShape(s)
    ensures OtherRowsSame(s, s, r)
  {
  }

  lemma RowsSameTrans(s: Sys, m: Sys, t: Sys, l: nat, r: nat)
    requires SysShape(s) && SysShape(m) && SysShape(t) && l < s.h.geo.layers && r < s.h.geo.rows
    requires OnlyLayer(s, m, l, r) && SameFrame(m, t) && OtherRowsSame(m, t, r)
    ensures OtherRowsSame(s, t, r)
  {
    hide SlotAt;
    hide RowAt;
  }

  lemma PrepareLayerCold(x: Life, r: nat, chunk: nat, last: seq<nat>, l: nat)
    requires Cold(x, chunk) && ColdRow(x, r, chunk, last) && Balance(x, r) >= Charge(x, r, chunk) && CanPrepare(x, r)
    requires l < Geo(x).layers
    ensures var n := |x.rows[r].tokens|;
      var y := x.(sys := EnsureRow(x.sys, l, r, PrepareFrom(Geo(x), l, n), CeilPages(n, Geo(x).block)));
      && Cold(y, chunk) && ColdRow(y, r, chunk, last) && Balance(y, r) == Balance(x, r)
      && OnlyLayer(x.sys, y.sys, l, r)
  {
    hide LifeInv;
    hide Balance;
    hide Required;
    hide WithinCharge;
    hide Held;
    hide OnlyLayer;
    hide EnsureRow;
    hide KeepFrom;
    hide Fillable;
    hide LayerBlocks;
    hide RowAt;
    ShapeOf(x);
    var g, n, start, end := Geo(x), |x.rows[r].tokens|, last[l], x.rows[r].done[l];
    FitsContext(x, r);
    assert ColdLayer(x, r, chunk, last[l], l);
    CeilBound(n, g.pages, g.block);
    PrepareRange(x, l, r);
    PreparedFitsCharge(g, l, chunk, n, start, end);
    var allowed := Allowed(g, l, n, KeepFrom(g, start), CeilPages(end, g.block));
    AllowedGrows(g, l, n, KeepFrom(g, start), end, n);
    FillLayer(x, l, r, PrepareFrom(g, l, n), CeilPages(n, g.block), chunk, n, allowed);
    var y := x.(sys := EnsureRow(x.sys, l, r, PrepareFrom(g, l, n), CeilPages(n, g.block)));
    ShapeOf(y);
    OtherLayersCold(x, y, r, chunk, last, l, start);
    assert last[l := start] == last;
  }

  /** The charge also covers a layer between chunks, and before its first. */
  lemma PreparedFitsCharge(g: Geometry, l: nat, chunk: nat, n: nat, start: nat, end: nat)
    requires GeometryOk(g) && g.block % 64 == 0 && 0 < chunk && start <= end < n && end <= start + chunk
    ensures |Allowed(g, l, n, KeepFrom(g, start), CeilPages(end, g.block))| <= LayerBlocks(g, chunk, n, l)
  {
    hide Allowed;
    hide LayerBlocks;
    var top := if start < end then end else start + 1;
    AllowedFits(g, l, chunk, n, start, top);
    AllowedGrows(g, l, n, KeepFrom(g, start), end, top);
    SubsetSize(Allowed(g, l, n, KeepFrom(g, start), CeilPages(end, g.block)),
      Allowed(g, l, n, KeepFrom(g, start), CeilPages(top, g.block)));
  }
}
