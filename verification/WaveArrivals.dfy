/** Closed forms: the arrivals of every wave, on every counter. */
module WaveArrivals {
  import opened Arithmetic
  import opened Wrappers
  import opened Machine
  import opened Schedule
  import opened Arrivals

  /** bar is one of `width` consecutive counters of `kind` that belong to `layer`. */
  predicate InBand(bar: Bar, kind: BarKind, layer: nat, width: nat) {
    bar.kind == kind && layer * width <= bar.idx < layer * width + width
  }

  /** How many of 0..n-1 lie in [lo, lo + width). */
  function Overlap(n: nat, lo: nat, width: nat): nat { Least(n, lo + width) - Least(n, lo) }

  lemma UniformHits(s: Shape, xs: seq<Inst>, own: Option<Bar>, bar: Bar)
    requires ShapeOk(s)
    requires forall i :: 0 <= i < |xs| ==> Arrive(s, xs[i]) == own
    ensures Hits(s, xs, bar) == if own == Some(bar) then |xs| else 0
  {
    if own == Some(bar) { HitsAll(s, xs, bar); } else { HitsNone(s, xs, bar); }
  }

  // ---- qkv ----

  lemma TileCounts(s: Shape)
    requires ShapeOk(s)
    ensures QTiles(s) == s.hq * TilesPerHead(s)
    ensures KvTiles(s) == s.hkv * TilesPerHead(s)
  {
    var k := TilesPerHead(s);
    assert s.hd == k * s.qkvBn;
    assert s.hq * s.hd == (s.hq * k) * s.qkvBn by { MulAssoc(s.hq, k, s.qkvBn); }
    assert s.hkv * s.hd == (s.hkv * k) * s.qkvBn by { MulAssoc(s.hkv, k, s.qkvBn); }
    DivExact(s.hq * k, s.qkvBn);
    DivExact(s.hkv * k, s.qkvBn);
  }

  /** The query tiles of kv head kvh are the hr * k consecutive ones from kvh * hr * k. */
  lemma QTileBand(s: Shape, tn: nat, kvh: nat)
    requires ShapeOk(s)
    ensures var first := (kvh * HeadsPerKv(s)) * TilesPerHead(s);
      KvOfQTile(s, tn) == kvh <==> first <= tn < first + HeadsPerKv(s) * TilesPerHead(s)
  {
    var hr, k := HeadsPerKvPos(s), TilesPerHead(s);
    DivBounds(HeadOfTile(s, tn), hr, kvh);
    TileHead(s.qkvBn, s.hd, tn, kvh * hr);
    TileHead(s.qkvBn, s.hd, tn, kvh * hr + hr);
    DistributeOver(kvh * hr, hr, k);
  }

  lemma DistributeOver(a: int, b: int, d: int)
    ensures (a + b) * d == a * d + b * d
  {
  }

  lemma QTileInRange(s: Shape, tn: nat)
    requires ShapeOk(s) && tn < QTiles(s)
    ensures KvOfQTile(s, tn) < s.hkv
  {
    TileCounts(s);
    TileHead(s.qkvBn, s.hd, tn, s.hq);
    DivAtLeast(HeadOfTile(s, tn), HeadsPerKvPos(s), s.hkv);
  }

  lemma KvTileInRange(s: Shape, tn: nat)
    requires ShapeOk(s) && tn < KvTiles(s)
    ensures HeadOfTile(s, tn) < s.hkv
  {
    TileCounts(s);
    TileHead(s.qkvBn, s.hd, tn, s.hkv);
  }

  lemma QBandFits(s: Shape, kvh: nat)
    requires ShapeOk(s) && kvh < s.hkv
    ensures (kvh * HeadsPerKv(s)) * TilesPerHead(s) + HeadsPerKv(s) * TilesPerHead(s) <= QTiles(s)
  {
    var hr, k := HeadsPerKvPos(s), TilesPerHead(s);
    TileCounts(s);
    DistributeOver(kvh * hr, hr, k);
    MulStep(kvh, hr);
    MulGrows(kvh + 1, s.hkv, hr);
    MulGrows(kvh * hr + hr, s.hq, k);
  }

  lemma QTilesHits(s: Shape, layer: nat, kvh: nat)
    requires ShapeOk(s) && kvh < s.hkv
    ensures Hits(s, seq(QTiles(s), (tn: nat) => QTile(s, layer, tn)), Bar(BQkv, layer * s.hkv + kvh))
         == HeadsPerKv(s) * TilesPerHead(s)
  {
    hide HeadsPerKv;
    hide TilesPerHead;
    hide KvOfQTile;
    hide QTiles;
    var bar := Bar(BQkv, layer * s.hkv + kvh);
    var lo := (kvh * HeadsPerKv(s)) * TilesPerHead(s);
    var width := HeadsPerKv(s) * TilesPerHead(s);
    QBandFits(s, kvh);
    var xs := seq(QTiles(s), (tn: nat) => QTile(s, layer, tn));
    forall i | 0 <= i < |xs| ensures Arrive(s, xs[i]) == Some(bar) <==> lo <= i < lo + width {
      QTileBand(s, i, kvh);
    }
    HitsRange(s, xs, bar, lo, lo + width);
  }

  lemma KvTileArrives(s: Shape, layer: nat, gemm: nat, kvh: nat, tn: nat)
    requires ShapeOk(s)
    ensures Arrive(s, KvTile(s, layer, gemm, tn)) == Some(Bar(BQkv, layer * s.hkv + kvh)) <==>
      kvh * TilesPerHead(s) <= tn < kvh * TilesPerHead(s) + TilesPerHead(s)
  {
    TileBand(s.qkvBn, s.hd, tn, kvh);
  }

  lemma KvBandFits(s: Shape, kvh: nat)
    requires ShapeOk(s) && kvh < s.hkv
    ensures kvh * TilesPerHead(s) + TilesPerHead(s) <= KvTiles(s)
  {
    TileCounts(s);
    MulApart(kvh, s.hkv, TilesPerHead(s));
  }

  lemma KvTilesHits(s: Shape, layer: nat, gemm: nat, kvh: nat)
    requires ShapeOk(s) && kvh < s.hkv
    ensures Hits(s, seq(KvTiles(s), (tn: nat) => KvTile(s, layer, gemm, tn)),
                 Bar(BQkv, layer * s.hkv + kvh)) == TilesPerHead(s)
  {
    var bar := Bar(BQkv, layer * s.hkv + kvh);
    var k := TilesPerHead(s);
    KvBandFits(s, kvh);
    var xs := seq(KvTiles(s), (tn: nat) => KvTile(s, layer, gemm, tn));
    forall i | 0 <= i < |xs| ensures Arrive(s, xs[i]) == Some(bar) <==> kvh * k <= i < kvh * k + k {
      KvTileArrives(s, layer, gemm, kvh, i);
    }
    HitsRange(s, xs, bar, kvh * k, kvh * k + k);
  }

  /** Every QKV tile arrives on a counter of its own layer. */
  lemma QkvInLayer(s: Shape, layer: nat, i: nat)
    requires ShapeOk(s) && i < |QkvWave(s, layer)|
    ensures Arrive(s, QkvWave(s, layer)[i]).Some?
    ensures InBand(Arrive(s, QkvWave(s, layer)[i]).value, BQkv, layer, s.hkv)
  {
    var q, k := QTiles(s), KvTiles(s);
    if i < q { QTileInRange(s, i); }
    else if i < q + k { KvTileInRange(s, i - q); }
    else { KvTileInRange(s, i - q - k); }
  }

  lemma QkvHits(s: Shape, layer: nat, bar: Bar)
    requires ShapeOk(s)
    ensures Hits(s, QkvWave(s, layer), bar) ==
      if InBand(bar, BQkv, layer, s.hkv) then QkvWait(s) else 0
  {
    if InBand(bar, BQkv, layer, s.hkv) {
      var kvh := bar.idx - layer * s.hkv;
      var q := seq(QTiles(s), (tn: nat) => QTile(s, layer, tn));
      var k := seq(KvTiles(s), (tn: nat) => KvTile(s, layer, 1, tn));
      var v := seq(KvTiles(s), (tn: nat) => KvTile(s, layer, 2, tn));
      QTilesHits(s, layer, kvh);
      KvTilesHits(s, layer, 1, kvh);
      KvTilesHits(s, layer, 2, kvh);
      HitsConcat(s, q + k, v, bar);
      HitsConcat(s, q, k, bar);
    } else {
      forall i | 0 <= i < |QkvWave(s, layer)| ensures Arrive(s, QkvWave(s, layer)[i]) != Some(bar) {
        QkvInLayer(s, layer, i);
      }
      HitsNone(s, QkvWave(s, layer), bar);
    }
  }

  // ---- attention ----

  /** The counter that the split-KV partials of one (row, head) share. */
  function CombineBar(s: Shape, layer: nat, row: nat, kvh: nat): Bar {
    Bar(BCombine, layer * (s.batch * s.hkv) + row * s.hkv + kvh)
  }

  /** The counter that O_PROJ split g of a layer waits on. */
  function HeadBar(s: Shape, layer: nat, g: nat): Bar {
    Bar(BAttn, layer * s.oprojSplits + g)
  }

  lemma HeadTasksHits(s: Shape, layer: nat, row: nat, kvh: nat, n: nat, w: nat, bar: Bar)
    requires ShapeOk(s)
    ensures Hits(s, AttnHeadTasks(s, layer, row, kvh, n, w), bar) ==
      if n > 1 && bar == CombineBar(s, layer, row, kvh) then n
      else if n == 1 && bar == HeadBar(s, layer, kvh / KvPerOprojPos(s)) then 1 else 0
  {
    UniformHits(s, AttnHeadTasks(s, layer, row, kvh, n, w),
      Some(if n > 1 then CombineBar(s, layer, row, kvh)
           else HeadBar(s, layer, kvh / KvPerOprojPos(s))), bar);
  }

  lemma RowStep(s: Shape, layer: nat, row: nat, kvhs: nat, n: nat, w: nat, bar: Bar)
    requires ShapeOk(s) && kvhs > 0
    ensures Hits(s, AttnRowTasks(s, layer, row, kvhs, n, w), bar) ==
      Hits(s, AttnRowTasks(s, layer, row, kvhs - 1, n, w), bar) +
      Hits(s, AttnHeadTasks(s, layer, row, kvhs - 1, n, w), bar)
  {
    HitsConcat(s, AttnRowTasks(s, layer, row, kvhs - 1, n, w),
      AttnHeadTasks(s, layer, row, kvhs - 1, n, w), bar);
  }

  /** The heads below kvhs of one row own consecutive combine counters. */
  predicate InRow(s: Shape, layer: nat, row: nat, kvhs: nat, bar: Bar) {
    && bar.kind == BCombine
    && layer * (s.batch * s.hkv) + row * s.hkv <= bar.idx
         < layer * (s.batch * s.hkv) + row * s.hkv + kvhs
  }

  /** With n > 1 splits each (row, head) makes n arrivals on its own combine counter. */
  lemma {:induction false} RowCombineHits(s: Shape, layer: nat, row: nat, kvhs: nat, n: nat, w: nat, bar: Bar)
    requires ShapeOk(s) && n > 1
    ensures Hits(s, AttnRowTasks(s, layer, row, kvhs, n, w), bar) ==
      if InRow(s, layer, row, kvhs, bar) then n else 0
  {
    if kvhs > 0 {
      RowCombineHits(s, layer, row, kvhs - 1, n, w, bar);
      RowStep(s, layer, row, kvhs, n, w, bar);
      HeadTasksHits(s, layer, row, kvhs - 1, n, w, bar);
    }
  }

  /** With a single split each (row, head) arrives directly on its O_PROJ split. */
  lemma {:induction false} RowDirectHits(s: Shape, layer: nat, row: nat, kvhs: nat, w: nat, g: nat)
    requires ShapeOk(s)
    ensures Hits(s, AttnRowTasks(s, layer, row, kvhs, 1, w), HeadBar(s, layer, g)) ==
      Overlap(kvhs, g * KvPerOprojPos(s), KvPerOprojPos(s))
  {
    if kvhs > 0 {
      RowDirectHits(s, layer, row, kvhs - 1, w, g);
      RowStep(s, layer, row, kvhs, 1, w, HeadBar(s, layer, g));
      HeadTasksHits(s, layer, row, kvhs - 1, 1, w, HeadBar(s, layer, g));
      DivBounds(kvhs - 1, KvPerOprojPos(s), g);
    }
  }

  lemma {:induction false} RowDirectElsewhere(s: Shape, layer: nat, row: nat, kvhs: nat, w: nat, bar: Bar)
    requires ShapeOk(s) && kvhs <= s.hkv
    requires !InBand(bar, BAttn, layer, s.oprojSplits)
    ensures Hits(s, AttnRowTasks(s, layer, row, kvhs, 1, w), bar) == 0
  {
    hide KvPerOproj;
    hide KvPerOprojPos;
    hide AttnHeadTasks;
    if kvhs == 0 {
      HitsNone(s, [], bar);
    } else {
      hide AttnRowTasks;
      hide Hits;
      RowDirectElsewhere(s, layer, row, kvhs - 1, w, bar);
      RowStep(s, layer, row, kvhs, 1, w, bar);
      HeadInBand(s, kvhs - 1);
      HeadTasksHits(s, layer, row, kvhs - 1, 1, w, bar);
    }
  }

  lemma HeadInBand(s: Shape, kvh: nat)
    requires ShapeOk(s) && kvh < s.hkv
    ensures kvh / KvPerOprojPos(s) < s.oprojSplits
  {
    DivAtLeast(kvh, KvPerOprojPos(s), s.oprojSplits);
  }

  lemma HeadBandFits(s: Shape, g: nat)
    requires ShapeOk(s) && g < s.oprojSplits
    ensures g * KvPerOprojPos(s) + KvPerOprojPos(s) <= s.hkv
  {
    MulStep(g, KvPerOprojPos(s));
    MulGrows(g + 1, s.oprojSplits, KvPerOprojPos(s));
  }

  /** A whole row with one split: KvPerOproj arrivals on each counter of the layer. */
  lemma RowDirectFull(s: Shape, layer: nat, row: nat, w: nat, bar: Bar)
    requires ShapeOk(s)
    ensures Hits(s, AttnRowTasks(s, layer, row, s.hkv, 1, w), bar) ==
      if InBand(bar, BAttn, layer, s.oprojSplits) then KvPerOprojPos(s) else 0
  {
    if InBand(bar, BAttn, layer, s.oprojSplits) {
      var g: nat := bar.idx - layer * s.oprojSplits;
      RowDirectHits(s, layer, row, s.hkv, w, g);
      HeadBandFits(s, g);
    } else {
      RowDirectElsewhere(s, layer, row, s.hkv, w, bar);
    }
  }

  lemma StaticStep(s: Shape, layer: nat, rows: nat, bar: Bar)
    requires ShapeOk(s) && layer < s.layers && rows > 0
    ensures Hits(s, StaticAttnWave(s, layer, rows), bar) ==
      Hits(s, StaticAttnWave(s, layer, rows - 1), bar) +
      Hits(s, AttnRowTasks(s, layer, rows - 1, s.hkv, s.splits[layer], s.window[layer]), bar)
  {
    HitsConcat(s, StaticAttnWave(s, layer, rows - 1),
      AttnRowTasks(s, layer, rows - 1, s.hkv, s.splits[layer], s.window[layer]), bar);
  }

  lemma {:induction false} StaticDirectHits(s: Shape, layer: nat, rows: nat, bar: Bar)
    requires ShapeOk(s) && layer < s.layers && s.splits[layer] == 1
    ensures Hits(s, StaticAttnWave(s, layer, rows), bar) ==
      if InBand(bar, BAttn, layer, s.oprojSplits) then rows * KvPerOprojPos(s) else 0
  {
    if rows > 0 {
      StaticDirectHits(s, layer, rows - 1, bar);
      RowDirectFull(s, layer, rows - 1, s.window[layer], bar);
      StaticStep(s, layer, rows, bar);
      MulStep(rows - 1, KvPerOprojPos(s));
    }
  }

  lemma StaticCombineOne(s: Shape, layer: nat, row: nat, bar: Bar)
    requires ShapeOk(s) && layer < s.layers && s.splits[layer] > 1
    ensures Hits(s, AttnRowTasks(s, layer, row, s.hkv, s.splits[layer], s.window[layer]), bar) ==
      if InRow(s, layer, row, s.hkv, bar) then s.splits[layer] else 0
  {
    RowCombineHits(s, layer, row, s.hkv, s.splits[layer], s.window[layer], bar);
  }

  /** The rows below `rows` of a layer own consecutive combine counters. */
  predicate InRows(s: Shape, layer: nat, rows: nat, bar: Bar) {
    bar.kind == BCombine && layer * (s.batch * s.hkv) <= bar.idx < layer * (s.batch * s.hkv) + rows * s.hkv
  }

  lemma InRowsStep(s: Shape, layer: nat, rows: nat, bar: Bar)
    requires rows > 0
    ensures InRows(s, layer, rows, bar) <==>
      InRows(s, layer, rows - 1, bar) || InRow(s, layer, rows - 1, s.hkv, bar)
    ensures !(InRows(s, layer, rows - 1, bar) && InRow(s, layer, rows - 1, s.hkv, bar))
  {
    MulStep(rows - 1, s.hkv);
  }

  lemma {:induction false} StaticCombineHits(s: Shape, layer: nat, rows: nat, bar: Bar)
    requires ShapeOk(s) && layer < s.layers && s.splits[layer] > 1
    ensures Hits(s, StaticAttnWave(s, layer, rows), bar) ==
      if InRows(s, layer, rows, bar) then s.splits[layer] else 0
  {
    if rows > 0 {
      StaticCombineHits(s, layer, rows - 1, bar);
      StaticStep(s, layer, rows, bar);
      StaticCombineOne(s, layer, rows - 1, bar);
      InRowsStep(s, layer, rows, bar);
    }
  }

  lemma QueueStep(s: Shape, env: Env, layer: nat, rows: nat, bar: Bar)
    requires ShapeOk(s) && EnvOk(s, env) && 0 < rows <= s.batch
    ensures Hits(s, AttnQueueTasks(s, env, layer, rows), bar) ==
      Hits(s, AttnQueueTasks(s, env, layer, rows - 1), bar) +
      (if InRow(s, layer, rows - 1, s.hkv, bar) then env.rowSplits[rows - 1] else 0)
  {
    RowCombineHits(s, layer, rows - 1, s.hkv, RowSplits(env, rows - 1), 0, bar);
    HitsConcat(s, AttnQueueTasks(s, env, layer, rows - 1),
      AttnRowTasks(s, layer, rows - 1, s.hkv, RowSplits(env, rows - 1), 0), bar);
  }

  lemma {:induction false} QueueCombineHits(s: Shape, env: Env, layer: nat, rows: nat, row: nat, kvh: nat)
    requires ShapeOk(s) && EnvOk(s, env) && rows <= s.batch && row < s.batch && kvh < s.hkv
    ensures Hits(s, AttnQueueTasks(s, env, layer, rows), CombineBar(s, layer, row, kvh)) ==
      if row < rows then env.rowSplits[row] else 0
  {
    if rows > 0 {
      QueueCombineHits(s, env, layer, rows - 1, row, kvh);
      QueueStep(s, env, layer, rows, CombineBar(s, layer, row, kvh));
      OtherRow(s, layer, row, rows - 1, kvh);
    }
  }

  lemma OtherRow(s: Shape, layer: nat, row: nat, other: nat, kvh: nat)
    requires kvh < s.hkv
    ensures InRow(s, layer, other, s.hkv, CombineBar(s, layer, row, kvh)) <==> row == other
  {
    if row < other {
      MulGrows(row + 1, other, s.hkv);
      MulStep(row, s.hkv);
    } else if row > other {
      MulGrows(other + 1, row, s.hkv);
      MulStep(other, s.hkv);
    }
  }

  lemma {:induction false} QueueElsewhere(s: Shape, env: Env, layer: nat, rows: nat, bar: Bar)
    requires ShapeOk(s) && EnvOk(s, env) && rows <= s.batch
    requires !InRows(s, layer, rows, bar)
    ensures Hits(s, AttnQueueTasks(s, env, layer, rows), bar) == 0
  {
    if rows > 0 {
      InRowsStep(s, layer, rows, bar);
      QueueElsewhere(s, env, layer, rows - 1, bar);
      QueueStep(s, env, layer, rows, bar);
    }
  }

  lemma CombineArrives(s: Shape, layer: nat, n: nat, g: nat, i: nat, j: nat)
    requires ShapeOk(s)
    ensures Arrive(s, CombineTile(s, layer, n)(i, j)) == Some(HeadBar(s, layer, g)) <==>
      g * KvPerOprojPos(s) <= j < g * KvPerOprojPos(s) + KvPerOprojPos(s)
  {
    DivBounds(j, KvPerOprojPos(s), g);
  }

  lemma CombineInBand(s: Shape, layer: nat, n: nat, g: nat)
    requires ShapeOk(s) && g < s.oprojSplits
    ensures Hits(s, CombineWave(s, layer, n), HeadBar(s, layer, g)) == s.batch * KvPerOprojPos(s)
  {
    var per := KvPerOprojPos(s);
    var lo := g * per;
    var f := CombineTile(s, layer, n);
    HeadBandFits(s, g);
    forall i: nat, j: nat | i < s.batch && j < s.hkv
      ensures Arrive(s, f(i, j)) == Some(HeadBar(s, layer, g)) <==> lo <= j < lo + per
    {
      CombineArrives(s, layer, n, g, i, j);
    }
    GridColumns(s, s.batch, s.hkv, f, HeadBar(s, layer, g), lo, per);
  }

  lemma CombineWaveHits(s: Shape, layer: nat, n: nat, bar: Bar)
    requires ShapeOk(s)
    ensures Hits(s, CombineWave(s, layer, n), bar) ==
      if InBand(bar, BAttn, layer, s.oprojSplits) then s.batch * KvPerOprojPos(s) else 0
  {
    if InBand(bar, BAttn, layer, s.oprojSplits) {
      CombineInBand(s, layer, n, bar.idx - layer * s.oprojSplits);
    } else {
      var f := CombineTile(s, layer, n);
      forall i: nat, j: nat | i < s.batch && j < s.hkv
        ensures Arrive(s, f(i, j)) != Some(bar)
      {
        HeadInBand(s, j);
      }
      GridNone(s, s.batch, s.hkv, f, bar);
    }
  }

  // ---- dense feed-forward, output projection, router ----

  function SiluPerSplitPos(s: Shape): (r: nat)
    requires ShapeOk(s)
    ensures r == SiluPerSplit(s) && r > 0 && r * s.downSplits == s.upTiles
  {
    SiluPerSplit(s)
  }

  lemma UpgateArrives(s: Shape, layer: nat, g: nat, i: nat)
    requires ShapeOk(s) && i < s.upTiles
    ensures Arrive(s, UpgateWave(s, layer)[i]) == Some(Bar(BSilu, layer * s.downSplits + g)) <==>
      g * SiluPerSplitPos(s) <= i < g * SiluPerSplitPos(s) + SiluPerSplitPos(s)
  {
    DivBounds(i, SiluPerSplitPos(s), g);
  }

  lemma UpgateInLayer(s: Shape, layer: nat, i: nat)
    requires ShapeOk(s) && i < s.upTiles
    ensures Arrive(s, UpgateWave(s, layer)[i]).Some?
    ensures InBand(Arrive(s, UpgateWave(s, layer)[i]).value, BSilu, layer, s.downSplits)
  {
    DivAtLeast(i, SiluPerSplitPos(s), s.downSplits);
  }

  lemma UpgateHits(s: Shape, layer: nat, bar: Bar)
    requires ShapeOk(s)
    ensures Hits(s, UpgateWave(s, layer), bar) ==
      if InBand(bar, BSilu, layer, s.downSplits) then SiluPerSplit(s) else 0
  {
    var per := SiluPerSplitPos(s);
    var xs := UpgateWave(s, layer);
    if InBand(bar, BSilu, layer, s.downSplits) {
      var g: nat := bar.idx - layer * s.downSplits;
      MulApart(g, s.downSplits, per);
      forall i | 0 <= i < |xs| ensures Arrive(s, xs[i]) == Some(bar) <==> g * per <= i < g * per + per {
        UpgateArrives(s, layer, g, i);
      }
      HitsRange(s, xs, bar, g * per, g * per + per);
    } else {
      forall i | 0 <= i < |xs| ensures Arrive(s, xs[i]) != Some(bar) {
        UpgateInLayer(s, layer, i);
      }
      HitsNone(s, xs, bar);
    }
  }

  lemma DownHits(s: Shape, layer: nat, bar: Bar)
    requires ShapeOk(s)
    ensures Hits(s, DownWave(s, layer), bar) ==
      if bar == Bar(BFfnDown, layer) then |DownWave(s, layer)| else 0
  {
    GridSize(s.downSplits, s.dTiles, DownTile(s, layer));
    if bar == Bar(BFfnDown, layer) {
      GridAll(s, s.downSplits, s.dTiles, DownTile(s, layer), bar);
    } else {
      GridNone(s, s.downSplits, s.dTiles, DownTile(s, layer), bar);
    }
  }

  lemma OprojHits(s: Shape, layer: nat, bar: Bar)
    requires ShapeOk(s)
    ensures Hits(s, OprojWave(s, layer), bar) == if bar == Bar(BOproj, layer) then OprojTiles(s) else 0
  {
    if bar == Bar(BOproj, layer) {
      GridAll(s, s.oprojSplits, s.dTiles, OprojTile(s, layer), bar);
    } else {
      GridNone(s, s.oprojSplits, s.dTiles, OprojTile(s, layer), bar);
    }
  }

  lemma RouterHits(s: Shape, layer: nat, bar: Bar)
    requires ShapeOk(s)
    ensures Hits(s, RouterWave(s, layer), bar) ==
      if bar == Bar(BRouter, layer) then s.routerTiles * s.routerSplits else 0
  {
    if bar == Bar(BRouter, layer) {
      GridAll(s, s.routerSplits, s.routerTiles, RouterTile(s, layer), bar);
    } else {
      GridNone(s, s.routerSplits, s.routerTiles, RouterTile(s, layer), bar);
    }
  }

  // ---- mixture-of-experts queues ----

  function UpPerDown(s: Shape): (r: nat)
    requires ShapeOk(s)
    ensures r * s.moe.upBm == s.moe.downBm && r > 0
  {
    s.moe.downBm / s.moe.upBm
  }

  lemma UpBlockHits(s: Shape, layer: nat, expert: nat, up: nat, bar: Bar)
    requires ShapeOk(s)
    ensures Hits(s, UpBlockTasks(s, layer, expert, up), bar) ==
      if bar == MoeBlockBar(s, layer, expert, DownBlockOf(s, up)) then s.moe.upTasks else 0
  {
    UniformHits(s, UpBlockTasks(s, layer, expert, up), Some(MoeBlockBar(s, layer, expert, DownBlockOf(s, up))), bar);
  }

  lemma UpExpertStep(s: Shape, layer: nat, expert: nat, blocks: nat, bar: Bar)
    requires ShapeOk(s) && blocks > 0
    ensures Hits(s, UpExpertTasks(s, layer, expert, blocks), bar) ==
      Hits(s, UpExpertTasks(s, layer, expert, blocks - 1), bar) +
      (if bar == MoeBlockBar(s, layer, expert, DownBlockOf(s, blocks - 1)) then s.moe.upTasks else 0)
  {
    HitsConcat(s, UpExpertTasks(s, layer, expert, blocks - 1), UpBlockTasks(s, layer, expert, blocks - 1), bar);
    UpBlockHits(s, layer, expert, blocks - 1, bar);
  }

  lemma UpBlockBand(s: Shape, t: nat, block: nat)
    requires ShapeOk(s)
    ensures DownBlockOf(s, t) == block <==>
      block * UpPerDown(s) <= t < block * UpPerDown(s) + UpPerDown(s)
  {
    TileBand(s.moe.upBm, s.moe.downBm, t, block);
  }

  /** One expert's up tasks fill its row-block counters upTasks at a time. */
  lemma {:induction false} UpExpertHits(s: Shape, layer: nat, expert: nat, blocks: nat, block: nat, first: nat)
    requires ShapeOk(s) && first == block * UpPerDown(s)
    ensures Hits(s, UpExpertTasks(s, layer, expert, blocks), MoeBlockBar(s, layer, expert, block)) ==
      Overlap(blocks, first, UpPerDown(s)) * s.moe.upTasks
  {
    if blocks > 0 {
      UpExpertHits(s, layer, expert, blocks - 1, block, first);
      UpExpertStep(s, layer, expert, blocks, MoeBlockBar(s, layer, expert, block));
      UpBlockBand(s, blocks - 1, block);
      OverlapStep(blocks, first, UpPerDown(s), s.moe.upTasks);
    }
  }

  lemma OverlapStep(n: nat, lo: nat, width: nat, d: nat)
    requires n > 0
    ensures Overlap(n, lo, width) * d ==
      Overlap(n - 1, lo, width) * d + (if lo <= n - 1 < lo + width then d else 0)
  {
    if lo <= n - 1 < lo + width {
      assert Overlap(n, lo, width) == Overlap(n - 1, lo, width) + 1;
      MulStep(Overlap(n - 1, lo, width), d);
    }
  }

  lemma CeilDivBounds(n: nat, d: nat)
    requires d > 0
    ensures var c := CeilDiv(n, d);
      && c * d >= n && (c > 0 ==> c * d - d < n) && (n == 0 <==> c == 0)
  {
    var c := CeilDiv(n, d);
    assert n + d - 1 == c * d + (n + d - 1) % d;
    if n > 0 { DivAtLeast(n + d - 1, d, 1); } else { DivBounds(d - 1, d, 0); }
  }

  lemma CeilDivIs(n: nat, d: nat, c: nat)
    requires d > 0 && c * d >= n && (c > 0 ==> c * d - d < n)
    ensures CeilDiv(n, d) == c
  {
    DivBounds(n + d - 1, d, c);
  }

  /** The up tasks that land in one down block are what its down tasks wait for. */
  lemma UpBlocksForDown(s: Shape, count: nat, block: nat)
    requires ShapeOk(s)
    ensures Overlap(CeilDiv(count, s.moe.upBm), block * UpPerDown(s), UpPerDown(s)) * s.moe.upTasks
      == UpWaitTarget(s, count, block)
  {
    BlockOverlap(count, s.moe.upBm, UpPerDown(s), block);
    assert block * s.moe.downBm == (block * UpPerDown(s)) * s.moe.upBm by {
      MulAssoc(block, UpPerDown(s), s.moe.upBm);
    }
  }

  lemma BlockOverlap(count: nat, u: nat, r: nat, block: nat)
    requires u > 0
    ensures var remaining := count - (block * r) * u;
      var rows := Least(remaining, r * u);
      Overlap(CeilDiv(count, u), block * r, r) == if rows <= 0 then 0 else CeilDiv(rows, u)
  {
    var total := CeilDiv(count, u);
    var first := block * r;
    CeilDivBounds(count, u);
    var remaining := count - first * u;
    if remaining <= 0 {
      if total > first { MulApart(first, total, u); }
    } else if remaining >= r * u {
      DistributeOver(first, r, u);
      if total < first + r { MulApart(total, first + r, u); }
      if r > 0 { CeilDivIs(r * u, u, r); }
    } else {
      if total <= first { MulGrows(total, first, u); }
      var c: nat := total - first;
      DistributeOver(first, c, u);
      CeilDivIs(remaining, u, c);
      if c > r { MulApart(r, c, u); }
    }
  }
}
