/** The admission bound: a request is let in when the pool has as many free blocks as its
    prefill may ever hold at once (serving/session.py, prefill/torch_prefill.py). */
module Admission {
  import opened Arithmetic
  import opened Wrappers
  import opened PrefixKeys
  import opened KvModel
  import opened KvInvariant
  import opened KvOps
  import opened KvPages
  import opened KvFree
  import opened RowLife
  import opened RowLifeSteps
  import opened RowLifeWrites
  import opened RowLifecycle
  import opened KvRebind

  // ---- the demand formulas ----

  /** max_sliding_window_pages */
  function WindowPages(tokens: nat, block: nat): nat
    requires block > 0
  {
    if tokens == 0 then 0 else (tokens + 2 * block - 2) / block
  }

  function PromptPages(tokens: nat, block: nat): nat
    requires block > 0
  {
    var pages := (tokens + block - 1) / block;
    if pages < 1 then 1 else pages
  }

  /** What one layer is charged: every page of a full layer; of a sliding layer the final
      window, plus one history window and one chunk, but never more than the prompt. */
  function LayerBlocks(g: Geometry, chunk: nat, tokens: nat, l: nat): nat
    requires GeometryOk(g)
  {
    var pages := PromptPages(tokens, g.block);
    if !Sliding(g, l) || g.window == 0 then pages else
    var window := WindowPages(g.window, g.block);
    var extra := if pages > window then pages - window else 0;
    Least(pages, window) + Least(extra, window + WindowPages(chunk, g.block))
  }

  function Required(g: Geometry, chunk: nat, tokens: nat, layers: nat): nat
    requires GeometryOk(g)
  {
    if layers == 0 then 0 else Required(g, chunk, tokens, layers - 1) + LayerBlocks(g, chunk, tokens, layers - 1)
  }

  /** estimate_hybrid_kv_blocks */
  method EstimateHybridKvBlocks(g: Geometry, capacities: seq<nat>) returns (total: nat)
    requires GeometryOk(g)
    ensures total == SteadyBlocks(g, capacities, g.layers)
  {
    var window := WindowPages(g.window, g.block);
    total := 0;
    for l := 0 to g.layers
      invariant total == SteadyBlocks(g, capacities, l)
    {
      ghost var before := total;
      for i := 0 to |capacities|
        invariant total == before + SteadyRows(g, capacities[..i], l)
      {
        var pages := PromptPages(capacities[i], g.block);
        assert capacities[..i + 1][..i] == capacities[..i];
        total := total + if Sliding(g, l) && g.window > 0 then Least(pages, window) else pages;
      }
      assert capacities[..|capacities|] == capacities;
    }
  }

  /** The pages that rows of these lengths keep in layer l once prefill has passed. */
  function SteadyRows(g: Geometry, capacities: seq<nat>, l: nat): nat
    requires GeometryOk(g)
  {
    if capacities == [] then 0 else
    var pages := PromptPages(capacities[|capacities| - 1], g.block);
    SteadyRows(g, capacities[..|capacities| - 1], l) +
    (if Sliding(g, l) && g.window > 0 then Least(pages, WindowPages(g.window, g.block)) else pages)
  }

  function SteadyBlocks(g: Geometry, capacities: seq<nat>, layers: nat): nat
    requires GeometryOk(g)
  {
    if layers == 0 then 0 else SteadyBlocks(g, capacities, layers - 1) + SteadyRows(g, capacities, layers - 1)
  }

  function SlidingLayers(g: Geometry, layers: nat): nat
    requires GeometryOk(g)
  {
    if layers == 0 then 0 else SlidingLayers(g, layers - 1) + (if Sliding(g, layers - 1) then 1 else 0)
  }

  function ExtraPages(g: Geometry, chunk: nat, tokens: nat): nat
    requires GeometryOk(g)
  {
    var pages := PromptPages(tokens, g.block);
    var window := WindowPages(g.window, g.block);
    Least(if pages > window then pages - window else 0, window + WindowPages(chunk, g.block))
  }

  lemma {:induction false} RequiredSplits(g: Geometry, chunk: nat, tokens: nat, layers: nat)
    requires GeometryOk(g) && g.window > 0
    ensures Required(g, chunk, tokens, layers) ==
      SteadyBlocks(g, [tokens], layers) + SlidingLayers(g, layers) * ExtraPages(g, chunk, tokens)
  {
    hide LayerBlocks;
    hide ExtraPages;
    hide SteadyRows;
    if layers > 0 {
      RequiredSplits(g, chunk, tokens, layers - 1);
      OneLayerSplits(g, chunk, tokens, layers - 1);
      MulStep(SlidingLayers(g, layers - 1), ExtraPages(g, chunk, tokens));
    }
  }

  lemma OneLayerSplits(g: Geometry, chunk: nat, tokens: nat, l: nat)
    requires GeometryOk(g) && g.window > 0
    ensures LayerBlocks(g, chunk, tokens, l) ==
      SteadyRows(g, [tokens], l) + (if Sliding(g, l) then ExtraPages(g, chunk, tokens) else 0)
  {
    hide PromptPages;
    hide WindowPages;
    assert [tokens][..0] == [];
  }

  /** _required_blocks_for_prompt: charges exactly the sum of the layers' demands. */
  method RequiredBlocksForPrompt(g: Geometry, chunk: nat, tokens: nat) returns (blocks: nat)
    requires GeometryOk(g)
    ensures g.window > 0 ==> blocks == Required(g, chunk, tokens, g.layers)
    ensures g.window == 0 ==> blocks == SteadyBlocks(g, [tokens], g.layers)
  {
    var pages := PromptPages(tokens, g.block);
    var steady := EstimateHybridKvBlocks(g, [tokens]);
    if g.window == 0 { return steady; }
    var window := WindowPages(g.window, g.block);
    var chunkPages := WindowPages(chunk, g.block);
    var extra := Least(if pages > window then pages - window else 0, window + chunkPages);
    var sliding := 0;
    for l := 0 to g.layers
      invariant sliding == SlidingLayers(g, l)
    {
      if Sliding(g, l) { sliding := sliding + 1; }
    }
    RequiredSplits(g, chunk, tokens, g.layers);
    blocks := steady + sliding * extra;
  }

  /** A longer prompt never needs less, so a lifetime that fits keeps fitting while the
      prompt grows by what has been emitted. */
  lemma {:induction false} DemandGrows(g: Geometry, chunk: nat, a: nat, b: nat, layers: nat)
    requires GeometryOk(g) && a <= b
    ensures Required(g, chunk, a, layers) <= Required(g, chunk, b, layers)
  {
    if layers > 0 {
      DemandGrows(g, chunk, a, b, layers - 1);
      DivGrows(a + g.block - 1, b + g.block - 1, g.block);
    }
  }

  // ---- page arithmetic ----

  lemma CeilIs(n: nat, block: nat)
    requires block > 0 && n > 0
    ensures PromptPages(n, block) == CeilPages(n, block)
  {
    OnePage(n - 1, block);
    assert n + block - 1 == (n - 1) + block;
  }

  lemma OnePage(a: nat, block: nat)
    requires block > 0
    ensures (a + block) / block == a / block + 1
  {
    QuotientBounds(a, block);
    QuotientBounds(a + block, block);
    var q, p := (a + block) / block, a / block;
    if q < p + 1 { MulApart(q, p + 1, block); MulStep(p, block); }
    if q > p + 1 { MulApart(p + 1, q, block); MulStep(p, block); }
  }

  /** The prepared window spans no more pages than any window of its length can. */
  lemma PreparedFits(n: nat, window: nat, block: nat)
    requires block > 0 && 0 < window < n
    ensures CeilPages(n, block) - (n - window) / block <= WindowPages(window, block)
  {
    var p, q := (n - 1) / block, (n - window) / block;
    QuotientBounds(n - 1, block);
    QuotientBounds(n - window, block);
    var w := (window + 2 * block - 2) / block;
    QuotientBounds(window + 2 * block - 2, block);
    DivGrows(n - window, n - 1, block);
    if p + 1 - q > w {
      Distance(q, p, w, block);
    }
  }

  lemma Distance(q: nat, p: nat, w: nat, block: nat)
    requires q + w <= p
    ensures q * block + w * block <= p * block
  {
    assert (q + w) * block <= p * block;
    assert (q + w) * block == q * block + w * block;
  }

  /** Tile-aligned history plus one chunk span no more pages than the two windows that are
      charged, when pages are whole multiples of 64 tokens. */
  lemma HistoryFits(g: Geometry, start: nat, end: nat, chunk: nat)
    requires GeometryOk(g) && g.window > 0 && g.block % 64 == 0 && 0 < chunk && start < end <= start + chunk
    ensures CeilPages(end, g.block) - KeepFrom(g, start) <= WindowPages(g.window, g.block) + WindowPages(chunk, g.block)
  {
    var b, w := g.block, g.window;
    var low := if start < w then 0 else ((start - (w - 1)) / TILE) * TILE;
    if start >= w { QuotientBounds(start - (w - 1), TILE); }
    assert end - 1 <= low + chunk + w + 125;
    var q, p := low / b, (end - 1) / b;
    assert KeepFrom(g, start) == q by { ZeroPage(b); }
    QuotientBounds(end - 1, b);
    QuotientBounds(low, b);
    Remainder64(low, b, if start < w then 0 else (start - (w - 1)) / TILE);
    var s, c := WindowPages(w, b), WindowPages(chunk, b);
    QuotientBounds(w + 2 * b - 2, b);
    QuotientBounds(chunk + 2 * b - 2, b);
    assert (s + c) * b == s * b + c * b;
    if p + 1 > q + s + c { Distance(q, p, s + c, b); }
  }

  lemma ZeroPage(block: nat)
    requires block > 0
    ensures 0 / block == 0
  {
  }

  /** A multiple of the tile leaves a remainder of at most block - 64 within its page. */
  lemma Remainder64(low: nat, block: nat, tiles: nat)
    requires block > 0 && block % 64 == 0 && low == tiles * TILE
    ensures low <= (low / block) * block + block - 64
  {
    var m, q := block / 64, low / block;
    assert block == m * 64;
    QuotientBounds(low, block);
    var rest := low - q * block;
    assert q * block == (q * m) * 64;
    assert low == (tiles * 2) * 64;
    assert rest == (tiles * 2 - q * m) * 64;
  }

  // ---- sets of pages ----

  function Range(a: nat, b: nat): (r: set<nat>)
    ensures |r| == if a <= b then b - a else 0
    ensures forall k: nat :: k in r <==> a <= k < b
    decreases b - a
  {
    if a >= b then {} else Range(a, b - 1) + {b - 1}
  }

  /** The pages layer l may hold while its history starts at page lo and reaches page hi. */
  function Allowed(g: Geometry, l: nat, n: nat, lo: nat, hi: nat): set<nat>
    requires GeometryOk(g)
  {
    if Sliding(g, l) && g.window > 0 then Range(PrepareFrom(g, l, n), CeilPages(n, g.block)) + Range(lo, hi)
    else Range(0, CeilPages(n, g.block))
  }

  lemma CeilGrows(a: nat, b: nat, block: nat)
    requires block > 0 && a <= b
    ensures CeilPages(a, block) <= CeilPages(b, block)
  {
    if a > 0 { DivGrows(a - 1, b - 1, block); }
  }

  /** It is never more than the layer is charged. */
  lemma AllowedFits(g: Geometry, l: nat, chunk: nat, n: nat, start: nat, end: nat)
    requires GeometryOk(g) && g.block % 64 == 0 && 0 < chunk && start < end <= n && end <= start + chunk
    ensures |Allowed(g, l, n, KeepFrom(g, start), CeilPages(end, g.block))| <= LayerBlocks(g, chunk, n, l)
  {
    hide CeilPages;
    hide KeepFrom;
    hide WindowPages;
    hide PromptPages;
    CeilIs(n, g.block);
    if Sliding(g, l) && g.window > 0 {
      var first, last := Range(PrepareFrom(g, l, n), CeilPages(n, g.block)), Range(KeepFrom(g, start), CeilPages(end, g.block));
      HistoryFits(g, start, end, chunk);
      if n > g.window { PreparedFits(n, g.window, g.block); }
      CeilGrows(end, n, g.block);
      SubsetSize(first + last, Range(0, CeilPages(n, g.block)));
      UnionSize(first, last);
      SmallPrompt(n, g.window, g.block);
    }
  }

  lemma UnionSize(a: set<nat>, b: set<nat>)
    ensures |a + b| <= |a| + |b|
  {
    var rest := b - a;
    SubsetSize(rest, b);
    assert a + b == a + rest;
  }

  /** A prompt that fits the window has no more pages than the window. */
  lemma SmallPrompt(n: nat, window: nat, block: nat)
    requires block > 0 && n > 0 && window > 0
    ensures n <= window ==> CeilPages(n, block) <= WindowPages(window, block)
  {
    if n <= window {
      OnePage(n - 1, block);
      DivGrows(n - 1 + block, window + 2 * block - 2, block);
    }
  }

  /** The prepared window starts no earlier than any chunk still cuts. */
  lemma PreparedIsLate(g: Geometry, l: nat, start: nat, n: nat)
    requires GeometryOk(g) && Sliding(g, l) && start < n
    ensures KeepFrom(g, start) <= PrepareFrom(g, l, n)
  {
    if g.window > 0 && start >= g.window {
      KeepFromIsLow(g, l, start);
      DivGrows(start - g.window + 1, n - g.window, g.block);
    }
  }

  /** Once a chunk has cut, what is left is allowed for the new start. */
  lemma CutIsAllowed(g: Geometry, l: nat, n: nat, before: nat, start: nat, held: set<nat>)
    requires GeometryOk(g) && before <= start < n && held <= Allowed(g, l, n, KeepFrom(g, before), CeilPages(start, g.block))
    requires Sliding(g, l)
    ensures held - Range(KeepFrom(g, before), KeepFrom(g, start)) <=
      Allowed(g, l, n, KeepFrom(g, start), CeilPages(start, g.block))
  {
    PreparedIsLate(g, l, start, n);
  }

  lemma KeepFromMonotone(g: Geometry, a: nat, b: nat)
    requires GeometryOk(g) && a <= b
    ensures KeepFrom(g, a) <= KeepFrom(g, b)
  {
    if g.window > 0 && a >= g.window {
      var x, y := a - (g.window - 1), b - (g.window - 1);
      DivGrows(x, y, TILE);
      MulGrows(x / TILE, y / TILE, TILE);
      DivGrows((x / TILE) * TILE, (y / TILE) * TILE, g.block);
    }
  }

  lemma AllowedGrows(g: Geometry, l: nat, n: nat, lo: nat, a: nat, b: nat)
    requires GeometryOk(g) && a <= b
    ensures Allowed(g, l, n, lo, CeilPages(a, g.block)) <= Allowed(g, l, n, lo, CeilPages(b, g.block))
    ensures CeilPages(a, g.block) <= CeilPages(b, g.block)
  {
    hide CeilPages;
    hide PrepareFrom;
    CeilGrows(a, b, g.block);
  }

  lemma FullAllowed(g: Geometry, l: nat, n: nat, a: nat, b: nat, hi: nat)
    requires GeometryOk(g) && !Sliding(g, l)
    ensures Allowed(g, l, n, a, hi) == Allowed(g, l, n, b, hi)
  {
  }

  // ---- counting a row's pages ----

  function Held(h: Handle, l: nat, r: nat): set<nat>
    requires HandleShape(h) && l < h.geo.layers && r < h.geo.rows
  {
    set k: nat | k < h.geo.pages && PageOf(h, l, r, k) >= 0
  }

  /** Pages that row r holds in layers below n. */
  function RowTotal(h: Handle, r: nat, n: nat): nat
    requires HandleShape(h) && r < h.geo.rows && n <= h.geo.layers
  {
    if n == 0 then 0 else RowTotal(h, r, n - 1) + |Held(h, n - 1, r)|
  }

  /** One layer changes, the others do not. */
  lemma {:induction false} TotalChange(h: Handle, h': Handle, r: nat, l: nat, n: nat)
    requires HandleShape(h) && HandleShape(h') && h.geo == h'.geo && r < h.geo.rows && l < h.geo.layers
    requires n <= h.geo.layers
    requires forall l': nat :: l' < h.geo.layers && l' != l ==> Held(h', l', r) == Held(h, l', r)
    ensures RowTotal(h', r, n) - RowTotal(h, r, n) == if l < n then |Held(h', l, r)| - |Held(h, l, r)| else 0
  {
    if n > 0 { TotalChange(h, h', r, l, n - 1); }
  }

  /** No layer holds more than it is charged. */
  ghost predicate WithinCharge(h: Handle, r: nat, chunk: nat, n: nat)
    requires HandleShape(h) && r < h.geo.rows
  {
    forall l: nat :: l < h.geo.layers ==> |Held(h, l, r)| <= LayerBlocks(h.geo, chunk, n, l)
  }

  lemma {:induction false} TotalWithin(h: Handle, r: nat, chunk: nat, n: nat, l: nat, layers: nat)
    requires HandleShape(h) && r < h.geo.rows && WithinCharge(h, r, chunk, n) && l < h.geo.layers && layers <= h.geo.layers
    ensures RowTotal(h, r, layers) <= Required(h.geo, chunk, n, layers)
    ensures l < layers && |Held(h, l, r)| < LayerBlocks(h.geo, chunk, n, l) ==>
      RowTotal(h, r, layers) < Required(h.geo, chunk, n, layers)
  {
    hide LayerBlocks;
    if layers > 0 { TotalWithin(h, r, chunk, n, l, layers - 1); }
  }

  /** The free blocks together with the row's own. */
  ghost function Balance(x: Life, r: nat): nat
    requires LifeShape(x) && r < |x.rows|
  {
    |x.sys.pool.free| + RowTotal(x.sys.h, r, Geo(x).layers)
  }

  // ---- mapping pages ----

  lemma FilledBalance(x: Life, l: nat, r: nat, k: nat)
    requires LifeInv(x) && l < Geo(x).layers && r < |x.rows| && k < Geo(x).pages && x.sys.pool.free != []
    requires PageOf(x.sys.h, l, r, k) == -1
    ensures var y := Filled(x, l, r, k);
      LifeShape(y) && Held(y.sys.h, l, r) == Held(x.sys.h, l, r) + {k} && Balance(y, r) == Balance(x, r)
  {
    hide LifeInv;
    ShapeOf(x);
    var got := Acquire(x.sys.pool).value;
    PutPages(x.sys, got.0, l, r, k, got.1);
    var y := Filled(x, l, r, k);
    forall l': nat | l' < Geo(x).layers && l' != l ensures Held(y.sys.h, l', r) == Held(x.sys.h, l', r) {
      forall k': nat | k' < Geo(x).pages ensures PageOf(y.sys.h, l', r, k') == PageOf(x.sys.h, l', r, k') {}
    }
    forall k': nat | k' < Geo(x).pages && k' != k ensures PageOf(y.sys.h, l, r, k') == PageOf(x.sys.h, l, r, k') {}
    TotalChange(x.sys.h, y.sys.h, r, l, Geo(x).layers);
  }

  /** Mapping pages that the charge allows for never runs the pool dry. */
  lemma {:induction false} EnsureHasRoom(x: Life, l: nat, r: nat, blk: nat, hi: nat, chunk: nat, n: nat, allowed: set<nat>)
    requires LifeInv(x) && l < Geo(x).layers && r < |x.rows| && hi <= Geo(x).pages && x.sys.status == Done
    requires Fillable(x, l, r, blk, hi) && WithinCharge(x.sys.h, r, chunk, n)
    requires Balance(x, r) >= Required(Geo(x), chunk, n, Geo(x).layers)
    requires Held(x.sys.h, l, r) <= allowed && (forall k: nat :: blk <= k < hi ==> k in allowed)
    requires |allowed| <= LayerBlocks(Geo(x), chunk, n, l)
    ensures var y := x.(sys := EnsureLoop(x.sys, l, r, blk, hi));
      && LifeInv(y) && y.sys.status == Done && WithinCharge(y.sys.h, r, chunk, n)
      && Held(y.sys.h, l, r) <= allowed && Balance(y, r) == Balance(x, r)
    decreases hi - blk
  {
    hide LifeInv;
    hide LayerBlocks;
    hide Required;
    hide Held;
    hide SlotAt;
    ShapeOf(x);
    if blk < hi {
      if PageOf(x.sys.h, l, r, blk) != -1 {
        EnsureHasRoom(x, l, r, blk + 1, hi, chunk, n, allowed);
      } else {
        NotHeld(x.sys.h, l, r, blk);
        SubsetSize(Held(x.sys.h, l, r), allowed);
        TotalWithin(x.sys.h, r, chunk, n, l, Geo(x).layers);
        assert x.sys.pool.free != [];
        var y := Filled(x, l, r, blk);
        FillKeeps(x, l, r, blk);
        ShapeOf(y);
        FilledBalance(x, l, r, blk);
        FillCharge(x, l, r, blk, chunk, n, allowed);
        StillFillable(x, y, l, r, blk, hi);
        EnsureHasRoom(y, l, r, blk + 1, hi, chunk, n, allowed);
      }
    }
  }

  lemma FillCharge(x: Life, l: nat, r: nat, k: nat, chunk: nat, n: nat, allowed: set<nat>)
    requires LifeInv(x) && l < Geo(x).layers && r < |x.rows| && k < Geo(x).pages && x.sys.pool.free != []
    requires WithinCharge(x.sys.h, r, chunk, n) && |allowed| <= LayerBlocks(Geo(x), chunk, n, l)
    requires Held(x.sys.h, l, r) + {k} <= allowed && Held(Filled(x, l, r, k).sys.h, l, r) <= allowed
    ensures WithinCharge(Filled(x, l, r, k).sys.h, r, chunk, n)
  {
    hide LifeInv;
    hide LayerBlocks;
    ShapeOf(x);
    var got := Acquire(x.sys.pool).value;
    PutPages(x.sys, got.0, l, r, k, got.1);
    var y := Filled(x, l, r, k);
    SubsetSize(Held(y.sys.h, l, r), allowed);
    forall l': nat | l' < Geo(x).layers && l' != l ensures Held(y.sys.h, l', r) == Held(x.sys.h, l', r) {
      forall k': nat | k' < Geo(x).pages ensures PageOf(y.sys.h, l', r, k') == PageOf(x.sys.h, l', r, k') {}
    }
  }

  lemma NotHeld(h: Handle, l: nat, r: nat, k: nat)
    requires HandleShape(h) && l < h.geo.layers && r < h.geo.rows && k < h.geo.pages && PageOf(h, l, r, k) == -1
    ensures k !in Held(h, l, r)
  {
  }

  lemma StillFillable(x: Life, y: Life, l: nat, r: nat, k: nat, hi: nat)
    requires LifeInv(x) && l < Geo(x).layers && r < |x.rows| && k < hi <= Geo(x).pages && x.sys.pool.free != []
    requires y == Filled(x, l, r, k) && Fillable(x, l, r, k, hi)
    ensures LifeShape(y) && Fillable(y, l, r, k + 1, hi)
  {
    hide LifeInv;
    ShapeOf(x);
    var got := Acquire(x.sys.pool).value;
    PutPages(x.sys, got.0, l, r, k, got.1);
  }

  // ---- giving pages back ----

  lemma {:induction false} SoleCount(table: seq<int>, i: nat)
    requires i < |table| && Sole(table, i)
    ensures multiset(table)[table[i]] == 1
  {
    assert table == table[..i] + [table[i]] + table[i + 1..];
    assert table[i] !in table[..i] && table[i] !in table[i + 1..];
  }

  /** A private page goes straight back to the free queue. */
  lemma HeldDropped(x: Life, l: nat, r: nat, k: nat)
    requires LifeInv(x) && l < Geo(x).layers && r < |x.rows| && k < Geo(x).pages && x.sys.status == Done
    requires x.rows[r].Live? && x.rows[r].shared == 0
    ensures var y := Dropped(x, l, r, k);
      && y.sys.status == Done
      && Held(y.sys.h, l, r) == Held(x.sys.h, l, r) - {k}
      && Balance(y, r) == Balance(x, r)
  {
    hide PageHolds;
    hide Indexed;
    hide DropSlot;
    hide EntriesOk;
    hide KeyOf;
    var i := SlotAt(Geo(x), l, r, k);
    var y := Dropped(x, l, r, k);
    DropSlotOk(x.sys, multiset{}, i);
    DropSlotPages(x.sys, l, r, k);
    HeldAfter(x.sys.h, y.sys.h, l, r, k);
    assert SlotOk(x, l, r, k);
    if PageOf(x.sys.h, l, r, k) >= 0 {
      SoleCount(x.sys.h.table, i);
      assert (multiset{} + multiset(x.sys.h.table))[x.sys.h.table[i]] == 1;
      DropQueues(x.sys, multiset{}, i);
    } else {
      NothingToDrop(x.sys, i);
    }
    TotalChange(x.sys.h, y.sys.h, r, l, Geo(x).layers);
  }

  lemma NothingToDrop(s: Sys, i: nat)
    requires SysShape(s) && i < |s.h.table| && s.h.table[i] < 0
    ensures DropSlot(s, i) == s
  {
  }

  lemma HeldAfter(h: Handle, h': Handle, l: nat, r: nat, k: nat)
    requires HandleShape(h) && HandleShape(h') && h.geo == h'.geo && l < h.geo.layers && r < h.geo.rows && k < h.geo.pages
    requires PageOf(h', l, r, k) == -1
    requires forall k': nat :: k' < h.geo.pages && k' != k ==> PageOf(h', l, r, k') == PageOf(h, l, r, k')
    requires forall l': nat, r': nat, k': nat ::
      l' < h.geo.layers && r' < h.geo.rows && k' < h.geo.pages && (l' != l || r' != r) ==> PageOf(h', l', r', k') == PageOf(h, l', r', k')
    ensures Held(h', l, r) == Held(h, l, r) - {k}
    ensures forall l': nat :: l' < h.geo.layers && l' != l ==> Held(h', l', r) == Held(h, l', r)
  {
    forall l': nat | l' < h.geo.layers && l' != l ensures Held(h', l', r) == Held(h, l', r) {
      forall k': nat | k' < h.geo.pages ensures PageOf(h', l', r, k') == PageOf(h, l', r, k') {}
    }
  }

  lemma {:induction false} EvictBalance(x: Life, l: nat, r: nat, blk: nat, keep: nat)
    requires LifeInv(x) && l < Geo(x).layers && r < |x.rows| && keep <= Geo(x).pages && x.sys.status == Done
    requires x.rows[r].Live? && x.rows[r].shared == 0 && keep <= LowPage(Geo(x), l, x.rows[r].done[l])
    ensures var y := x.(sys := EvictLoop(x.sys, l, r, blk, keep));
      LifeInv(y) && y.sys.status == Done && Balance(y, r) == Balance(x, r)
    decreases keep - blk
  {
    hide LifeInv;
    hide Balance;
    hide Held;
    hide DropSlot;
    hide SlotAt;
    hide LowPage;
    ShapeOf(x);
    if blk < keep {
      DropKeeps(x, l, r, blk);
      ShapeOf(Dropped(x, l, r, blk));
      HeldDropped(x, l, r, blk);
      EvictBalance(Dropped(x, l, r, blk), l, r, blk + 1, keep);
    }
  }
}
