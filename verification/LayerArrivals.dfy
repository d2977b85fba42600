/** Arrivals per layer and over the whole schedule, drain queues included. */
module LayerArrivals {
  import opened Wrappers
  import opened Machine
  import opened Schedule
  import opened Arrivals
  import opened WaveArrivals

  /** The queue that a wave of claimers drains, if it is one. */
  function DrainedBy(w: seq<Inst>): Option<QueueId> {
    if w == [] then None else DrainQueue(w[0])
  }

  /** A wave followed by the queue entries its claimers will run. */
  function Expanded(s: Shape, env: Env, w: seq<Inst>): seq<Inst>
    requires ShapeOk(s) && EnvOk(s, env)
  {
    w + (match DrainedBy(w) case Some(q) => QueueTasks(s, env, q) case None => [])
  }

  function Flat(s: Shape, env: Env, waves: seq<seq<Inst>>): seq<Inst>
    requires ShapeOk(s) && EnvOk(s, env)
  {
    if waves == [] then [] else
    Flat(s, env, waves[..|waves| - 1]) + Expanded(s, env, waves[|waves| - 1])
  }

  /** The arrivals of a wave and of the queue entries it drains. */
  function WaveHits(s: Shape, env: Env, w: seq<Inst>, bar: Bar): nat
    requires ShapeOk(s) && EnvOk(s, env)
  {
    Hits(s, w, bar) +
    (match DrainedBy(w) case Some(q) => Hits(s, QueueTasks(s, env, q), bar) case None => 0)
  }

  function FlatHits(s: Shape, env: Env, waves: seq<seq<Inst>>, bar: Bar): nat
    requires ShapeOk(s) && EnvOk(s, env)
  {
    if waves == [] then 0 else
    FlatHits(s, env, waves[..|waves| - 1], bar) + WaveHits(s, env, waves[|waves| - 1], bar)
  }

  lemma {:induction false} FlatHitsAre(s: Shape, env: Env, waves: seq<seq<Inst>>, bar: Bar)
    requires ShapeOk(s) && EnvOk(s, env)
    ensures Hits(s, Flat(s, env, waves), bar) == FlatHits(s, env, waves, bar)
  {
    if waves != [] {
      var init, w := waves[..|waves| - 1], waves[|waves| - 1];
      FlatHitsAre(s, env, init, bar);
      HitsConcat(s, Flat(s, env, init), Expanded(s, env, w), bar);
      ExpandedHits(s, env, w, bar);
    }
  }

  lemma ExpandedHits(s: Shape, env: Env, w: seq<Inst>, bar: Bar)
    requires ShapeOk(s) && EnvOk(s, env)
    ensures Hits(s, Expanded(s, env, w), bar) == WaveHits(s, env, w, bar)
  {
    match DrainedBy(w)
    case Some(q) => HitsConcat(s, w, QueueTasks(s, env, q), bar);
    case None => assert w + [] == w;
  }

  lemma {:induction false} FlatHitsConcat(s: Shape, env: Env, a: seq<seq<Inst>>, b: seq<seq<Inst>>, bar: Bar)
    requires ShapeOk(s) && EnvOk(s, env)
    ensures FlatHits(s, env, a + b, bar) == FlatHits(s, env, a, bar) + FlatHits(s, env, b, bar)
  {
    if b == [] {
      assert a + b == a;
    } else {
      var n := |b| - 1;
      assert (a + b)[..|a + b| - 1] == a + b[..n];
      FlatHitsConcat(s, env, a, b[..n], bar);
    }
  }

  lemma FlatHitsOne(s: Shape, env: Env, w: seq<Inst>, bar: Bar)
    requires ShapeOk(s) && EnvOk(s, env)
    ensures FlatHits(s, env, [w], bar) == WaveHits(s, env, w, bar)
  {
    assert [w][..0] == [];
  }

  lemma FlatHitsCons(s: Shape, env: Env, w: seq<Inst>, rest: seq<seq<Inst>>, bar: Bar)
    requires ShapeOk(s) && EnvOk(s, env)
    ensures FlatHits(s, env, [w] + rest, bar) == WaveHits(s, env, w, bar) + FlatHits(s, env, rest, bar)
  {
    FlatHitsConcat(s, env, [w], rest, bar);
    FlatHitsOne(s, env, w, bar);
  }

  // ---- one layer ----

  function AttnArrivals(s: Shape, env: Env, layer: nat, bar: Bar): nat
    requires ShapeOk(s) && EnvOk(s, env) && layer < s.layers
  {
    if bar.kind == BAttn then
      if InBand(bar, BAttn, layer, s.oprojSplits) then s.batch * KvPerOprojPos(s) else 0
    else if bar.kind != BCombine then 0
    else if s.drain[layer] then Hits(s, AttnQueueTasks(s, env, layer, s.batch), bar)
    else if s.splits[layer] > 1 && InRows(s, layer, s.batch, bar) then s.splits[layer] else 0
  }

  lemma AttnWavesHits(s: Shape, env: Env, layer: nat, bar: Bar)
    requires ShapeOk(s) && EnvOk(s, env) && layer < s.layers
    ensures FlatHits(s, env, AttnWaves(s, layer), bar) == AttnArrivals(s, env, layer, bar)
  {
    if s.drain[layer] {
      var drains := seq(s.attnClaimers, _ => AttnDrain(layer));
      var combine := CombineWave(s, layer, DYNAMIC);
      assert AttnWaves(s, layer) == [drains] + [combine];
      FlatHitsCons(s, env, drains, [combine], bar);
      FlatHitsOne(s, env, drains, bar);
      FlatHitsOne(s, env, combine, bar);
      UniformHits(s, drains, None, bar);
      CombineWaveHits(s, layer, DYNAMIC, bar);
      CombineDrainsNothing(s, layer, DYNAMIC);
      if bar.kind != BCombine { QueueElsewhere(s, env, layer, s.batch, bar); }
    } else {
      var attn := StaticAttnWave(s, layer, s.batch);
      FlatHitsOne(s, env, attn, bar);
      StaticDrainsNothing(s, layer, s.batch);
      if s.splits[layer] > 1 {
        var combine := CombineWave(s, layer, s.splits[layer]);
        assert AttnWaves(s, layer) == [attn] + [combine];
        FlatHitsCons(s, env, attn, [combine], bar);
        FlatHitsOne(s, env, combine, bar);
        CombineWaveHits(s, layer, s.splits[layer], bar);
        CombineDrainsNothing(s, layer, s.splits[layer]);
        StaticCombineHits(s, layer, s.batch, bar);
      } else {
        StaticDirectHits(s, layer, s.batch, bar);
      }
    }
  }

  lemma {:induction false} GridFirst(rows: nat, cols: nat, f: (nat, nat) -> Inst)
    requires rows > 0 && cols > 0
    ensures Grid(rows, cols, f) != [] && Grid(rows, cols, f)[0] == f(0, 0)
  {
    if rows > 1 { GridFirst(rows - 1, cols, f); }
  }

  lemma CombineDrainsNothing(s: Shape, layer: nat, n: nat)
    requires ShapeOk(s)
    ensures DrainedBy(CombineWave(s, layer, n)) == None
  {
    GridFirst(s.batch, s.hkv, CombineTile(s, layer, n));
  }

  lemma {:induction false} RowTasksAreDecodes(s: Shape, layer: nat, row: nat, kvhs: nat, n: nat, w: nat)
    requires ShapeOk(s)
    ensures forall x :: x in AttnRowTasks(s, layer, row, kvhs, n, w) ==> x.AttnDecode?
  {
    if kvhs > 0 { RowTasksAreDecodes(s, layer, row, kvhs - 1, n, w); }
  }

  lemma {:induction false} StaticAreDecodes(s: Shape, layer: nat, rows: nat)
    requires ShapeOk(s) && layer < s.layers
    ensures forall x :: x in StaticAttnWave(s, layer, rows) ==> x.AttnDecode?
  {
    if rows > 0 {
      StaticAreDecodes(s, layer, rows - 1);
      RowTasksAreDecodes(s, layer, rows - 1, s.hkv, s.splits[layer], s.window[layer]);
    }
  }

  lemma StaticDrainsNothing(s: Shape, layer: nat, rows: nat)
    requires ShapeOk(s) && layer < s.layers
    ensures DrainedBy(StaticAttnWave(s, layer, rows)) == None
  {
    StaticAreDecodes(s, layer, rows);
    var w := StaticAttnWave(s, layer, rows);
    if w != [] { assert w[0] in w; }
  }

  function MoeArrivals(s: Shape, env: Env, layer: nat, bar: Bar): nat
    requires ShapeOk(s) && EnvOk(s, env) && layer < s.layers
  {
    match bar.kind
    case BMoeUp => Hits(s, UpQueue(s, env, layer, s.moe.experts), bar)
    case BMoeDown => if bar.idx == layer then DownTaskCount(s, env, layer) else 0
    case BFfnDown => if bar.idx == layer && !s.atomicCombine then s.batch else 0
    case _ => 0
  }

  lemma {:induction false} UpExpertAreUps(s: Shape, layer: nat, expert: nat, blocks: nat)
    requires s.moe.downBm > 0
    ensures forall x :: x in UpExpertTasks(s, layer, expert, blocks) ==> x.MoeUpTask?
  {
    if blocks > 0 { UpExpertAreUps(s, layer, expert, blocks - 1); }
  }

  lemma {:induction false} UpQueueAreUps(s: Shape, env: Env, layer: nat, experts: nat)
    requires s.moe.downBm > 0 && s.moe.upBm > 0
    requires layer < |env.routed| && experts <= |env.routed[layer]|
    ensures forall x :: x in UpQueue(s, env, layer, experts) ==> x.MoeUpTask?
  {
    if experts > 0 {
      UpQueueAreUps(s, env, layer, experts - 1);
      UpExpertAreUps(s, layer, experts - 1, CeilDiv(env.routed[layer][experts - 1], s.moe.upBm));
    }
  }

  lemma {:induction false} DownExpertAreDowns(s: Shape, layer: nat, expert: nat, count: nat, blocks: nat)
    requires s.moe.upBm > 0
    ensures forall x :: x in DownExpertTasks(s, layer, expert, count, blocks) ==>
      x.MoeDownTask? && x.layer == layer
  {
    if blocks > 0 { DownExpertAreDowns(s, layer, expert, count, blocks - 1); }
  }

  lemma {:induction false} DownQueueAreDowns(s: Shape, env: Env, layer: nat, experts: nat)
    requires s.moe.downBm > 0
    requires layer < |env.routed| && experts <= |env.routed[layer]|
    ensures forall x :: x in DownQueue(s, env, layer, experts) ==> x.MoeDownTask? && x.layer == layer
  {
    if experts > 0 {
      DownQueueAreDowns(s, env, layer, experts - 1);
      if s.moe.upBm > 0 {
        DownExpertAreDowns(s, layer, experts - 1, env.routed[layer][experts - 1],
          CeilDiv(env.routed[layer][experts - 1], s.moe.downBm));
      }
    }
  }

  lemma QueueHits(s: Shape, env: Env, layer: nat, bar: Bar)
    requires ShapeOk(s) && EnvOk(s, env) && layer < s.layers
    ensures Hits(s, DownQueue(s, env, layer, s.moe.experts), bar) ==
      if bar == Bar(BMoeDown, layer) then DownTaskCount(s, env, layer) else 0
    ensures bar.kind != BMoeUp ==> Hits(s, UpQueue(s, env, layer, s.moe.experts), bar) == 0
  {
    var down := DownQueue(s, env, layer, s.moe.experts);
    DownQueueAreDowns(s, env, layer, s.moe.experts);
    forall i | 0 <= i < |down| ensures Arrive(s, down[i]) == Some(Bar(BMoeDown, layer)) {
      assert down[i] in down;
    }
    UniformHits(s, down, Some(Bar(BMoeDown, layer)), bar);
    if bar.kind != BMoeUp {
      var up := UpQueue(s, env, layer, s.moe.experts);
      UpQueueAreUps(s, env, layer, s.moe.experts);
      forall i | 0 <= i < |up| ensures Arrive(s, up[i]) != Some(bar) { assert up[i] in up; }
      HitsNone(s, up, bar);
    }
  }

  lemma ClaimerHits(s: Shape, env: Env, layer: nat, bar: Bar)
    requires ShapeOk(s) && EnvOk(s, env) && layer < s.layers
    ensures WaveHits(s, env, seq(s.upClaimers, _ => MoeUpDrain(layer)), bar) ==
      Hits(s, UpQueue(s, env, layer, s.moe.experts), bar)
    ensures WaveHits(s, env, seq(s.downClaimers, _ => MoeDownDrain(layer)), bar) ==
      Hits(s, DownQueue(s, env, layer, s.moe.experts), bar)
  {
    UniformHits(s, seq(s.upClaimers, _ => MoeUpDrain(layer)), None, bar);
    UniformHits(s, seq(s.downClaimers, _ => MoeDownDrain(layer)), None, bar);
  }

  lemma MoeWavesHits(s: Shape, env: Env, layer: nat, bar: Bar)
    requires ShapeOk(s) && EnvOk(s, env) && layer < s.layers
    ensures FlatHits(s, env, MoeWaves(s, layer), bar) == MoeArrivals(s, env, layer, bar)
  {
    hide WaveHits;
    hide UpQueue;
    hide DownQueue;
    var ups := seq(s.upClaimers, _ => MoeUpDrain(layer));
    var downs := seq(s.downClaimers, _ => MoeDownDrain(layer));
    var combine := seq(s.batch, (row: nat) => MoeCombine(layer, row));
    var tail := if s.atomicCombine then [] else [combine];
    assert MoeWaves(s, layer) == [ups] + ([downs] + tail);
    FlatHitsCons(s, env, ups, [downs] + tail, bar);
    FlatHitsCons(s, env, downs, tail, bar);
    FlatHitsOne(s, env, combine, bar);
    PlainHits(s, env, combine, bar);
    ClaimerHits(s, env, layer, bar);
    UniformHits(s, combine, Some(Bar(BFfnDown, layer)), bar);
    QueueHits(s, env, layer, bar);
  }

  function FeedArrivals(s: Shape, env: Env, layer: nat, bar: Bar): nat
    requires ShapeOk(s) && EnvOk(s, env) && layer < s.layers
  {
    if IsMoe(s, layer) then
      match bar.kind
      case BRouter => if bar.idx == layer then s.routerTiles * s.routerSplits else 0
      case BTopk => if bar.idx == layer then s.batch else 0
      case BRoute => if bar.idx == layer then 1 else 0
      case BGather => if bar.idx == layer then s.batch else 0
      case _ => MoeArrivals(s, env, layer, bar)
    else
      match bar.kind
      case BSilu => if InBand(bar, BSilu, layer, s.downSplits) then SiluPerSplit(s) else 0
      case BFfnDown => if bar.idx == layer then |DownWave(s, layer)| else 0
      case _ => 0
  }

  /** The arrivals that layer `layer` makes on `bar`. */
  function OfLayer(s: Shape, env: Env, layer: nat, bar: Bar): nat
    requires ShapeOk(s) && EnvOk(s, env) && layer < s.layers
  {
    match bar.kind
    case BQkv => if InBand(bar, BQkv, layer, s.hkv) then QkvWait(s) else 0
    case BCombine => AttnArrivals(s, env, layer, bar)
    case BAttn => AttnArrivals(s, env, layer, bar)
    case BOproj => if bar.idx == layer then OprojTiles(s) else 0
    case BLayer => if bar.idx == JoinIdx(s, layer) then s.batch else 0
    case _ => FeedArrivals(s, env, layer, bar)
  }

  lemma QkvDrainsNothing(s: Shape, layer: nat)
    requires ShapeOk(s)
    ensures DrainedBy(QkvWave(s, layer)) == None
  {
    var w := QkvWave(s, layer);
    assert forall x :: x in w ==> x.QkvProj?;
    if w != [] { assert w[0] in w; }
  }

  /** The waves before attention: QKV and the start of the feed-forward side. */
  function HeadWaves(s: Shape, layer: nat): seq<seq<Inst>>
    requires ShapeOk(s)
  {
    if IsMoe(s, layer) then
      [QkvWave(s, layer), RouterWave(s, layer), TopkWave(s, layer), [RouteFinalize(layer)],
       GatherWave(s, layer)]
    else [QkvWave(s, layer), UpgateWave(s, layer)]
  }

  lemma PlainHits(s: Shape, env: Env, w: seq<Inst>, bar: Bar)
    requires ShapeOk(s) && EnvOk(s, env) && DrainedBy(w) == None
    ensures WaveHits(s, env, w, bar) == Hits(s, w, bar)
  {
  }

  lemma MoeHeadWavesHits(s: Shape, env: Env, layer: nat, bar: Bar)
    requires ShapeOk(s) && EnvOk(s, env) && layer < s.layers && IsMoe(s, layer)
    ensures FlatHits(s, env, HeadWaves(s, layer), bar) ==
      Hits(s, QkvWave(s, layer), bar) +
      Hits(s, RouterWave(s, layer), bar) + Hits(s, TopkWave(s, layer), bar) +
      Hits(s, [RouteFinalize(layer)], bar) + Hits(s, GatherWave(s, layer), bar)
  {
    var q, r := QkvWave(s, layer), RouterWave(s, layer);
    var t, f, g := TopkWave(s, layer), [RouteFinalize(layer)], GatherWave(s, layer);
    QkvDrainsNothing(s, layer);
    GridFirst(s.routerSplits, s.routerTiles, RouterTile(s, layer));
    PlainHits(s, env, q, bar);
    PlainHits(s, env, r, bar);
    PlainHits(s, env, t, bar);
    PlainHits(s, env, f, bar);
    PlainHits(s, env, g, bar);
    FiveWaves(s, env, q, r, t, f, g, bar);
  }

  lemma FiveWaves(s: Shape, env: Env, q: seq<Inst>, r: seq<Inst>, t: seq<Inst>, f: seq<Inst>, g: seq<Inst>, bar: Bar)
    requires ShapeOk(s) && EnvOk(s, env)
    ensures FlatHits(s, env, [q, r, t, f, g], bar) ==
      WaveHits(s, env, q, bar) + WaveHits(s, env, r, bar) + WaveHits(s, env, t, bar) +
      WaveHits(s, env, f, bar) + WaveHits(s, env, g, bar)
  {
    assert [q, r, t, f, g] == [q] + ([r] + ([t] + ([f] + [g])));
    FlatHitsCons(s, env, q, [r] + ([t] + ([f] + [g])), bar);
    FlatHitsCons(s, env, r, [t] + ([f] + [g]), bar);
    FlatHitsCons(s, env, t, [f] + [g], bar);
    FlatHitsCons(s, env, f, [g], bar);
    FlatHitsOne(s, env, g, bar);
  }

  lemma HeadWavesHits(s: Shape, env: Env, layer: nat, bar: Bar)
    requires ShapeOk(s) && EnvOk(s, env) && layer < s.layers
    ensures FlatHits(s, env, HeadWaves(s, layer), bar) ==
      Hits(s, QkvWave(s, layer), bar) +
      (if IsMoe(s, layer) then
         Hits(s, RouterWave(s, layer), bar) + Hits(s, TopkWave(s, layer), bar) +
         Hits(s, [RouteFinalize(layer)], bar) + Hits(s, GatherWave(s, layer), bar)
       else Hits(s, UpgateWave(s, layer), bar))
  {
    if IsMoe(s, layer) {
      MoeHeadWavesHits(s, env, layer, bar);
    } else {
      var q, u := QkvWave(s, layer), UpgateWave(s, layer);
      QkvDrainsNothing(s, layer);
      assert HeadWaves(s, layer) == [q] + [u];
      FlatHitsCons(s, env, q, [u], bar);
      FlatHitsOne(s, env, u, bar);
    }
  }

  lemma MoeHeadHits(s: Shape, layer: nat, bar: Bar)
    requires ShapeOk(s)
    ensures Hits(s, RouterWave(s, layer), bar) == if bar == Bar(BRouter, layer) then s.routerTiles * s.routerSplits else 0
    ensures Hits(s, TopkWave(s, layer), bar) == if bar == Bar(BTopk, layer) then s.batch else 0
    ensures Hits(s, [RouteFinalize(layer)], bar) == if bar == Bar(BRoute, layer) then 1 else 0
    ensures Hits(s, GatherWave(s, layer), bar) == if bar == Bar(BGather, layer) then s.batch else 0
  {
    RouterHits(s, layer, bar);
    UniformHits(s, TopkWave(s, layer), Some(Bar(BTopk, layer)), bar);
    UniformHits(s, [RouteFinalize(layer)], Some(Bar(BRoute, layer)), bar);
    UniformHits(s, GatherWave(s, layer), Some(Bar(BGather, layer)), bar);
  }

  /** The waves after attention, up to and including the layer join. */
  function TailWaves(s: Shape, layer: nat): seq<seq<Inst>>
    requires ShapeOk(s)
  {
    (if IsMoe(s, layer) then MoeWaves(s, layer) else [DownWave(s, layer)]) +
    [OprojWave(s, layer), RmsNormWave(s, layer)]
  }

  lemma RmsNormHits(s: Shape, layer: nat, bar: Bar)
    requires ShapeOk(s)
    ensures Hits(s, RmsNormWave(s, layer), bar) ==
      if bar == Bar(BLayer, JoinIdx(s, layer)) then s.batch else 0
  {
    UniformHits(s, RmsNormWave(s, layer), Some(Bar(BLayer, JoinIdx(s, layer))), bar);
  }

  lemma TailWavesHits(s: Shape, env: Env, layer: nat, bar: Bar)
    requires ShapeOk(s) && EnvOk(s, env) && layer < s.layers
    ensures FlatHits(s, env, TailWaves(s, layer), bar) ==
      (if IsMoe(s, layer) then MoeArrivals(s, env, layer, bar) else Hits(s, DownWave(s, layer), bar)) +
      Hits(s, OprojWave(s, layer), bar) + Hits(s, RmsNormWave(s, layer), bar)
  {
    hide Hits;
    hide MoeArrivals;
    hide MoeWaves;
    hide FlatHits;
    var o, r := OprojWave(s, layer), RmsNormWave(s, layer);
    GridFirst(s.oprojSplits, s.dTiles, OprojTile(s, layer));
    GridFirst(s.downSplits, s.dTiles, DownTile(s, layer));
    var front := if IsMoe(s, layer) then MoeWaves(s, layer) else [DownWave(s, layer)];
    assert [o, r] == [o] + [r];
    FlatHitsConcat(s, env, front, [o] + [r], bar);
    FlatHitsCons(s, env, o, [r], bar);
    FlatHitsOne(s, env, o, bar);
    FlatHitsOne(s, env, r, bar);
    if IsMoe(s, layer) { MoeWavesHits(s, env, layer, bar); } else { FlatHitsOne(s, env, DownWave(s, layer), bar); }
  }

  lemma LayerSplit(s: Shape, layer: nat)
    requires ShapeOk(s) && layer < s.layers
    ensures LayerWaves(s, layer) == HeadWaves(s, layer) + AttnWaves(s, layer) + TailWaves(s, layer)
  {
  }

  lemma LayerHits(s: Shape, env: Env, layer: nat, bar: Bar)
    requires ShapeOk(s) && EnvOk(s, env) && layer < s.layers
    ensures FlatHits(s, env, LayerWaves(s, layer), bar) == OfLayer(s, env, layer, bar)
  {
    hide HeadWaves;
    hide AttnWaves;
    hide TailWaves;
    hide LayerWaves;
    hide FlatHits;
    hide Hits;
    hide QkvWave;
    hide RouterWave;
    hide TopkWave;
    hide GatherWave;
    hide UpgateWave;
    hide DownWave;
    hide OprojWave;
    hide RmsNormWave;
    hide UpQueue;
    hide DownTaskCount;
    hide AttnQueueTasks;
    LayerSplit(s, layer);
    FlatHitsConcat(s, env, HeadWaves(s, layer) + AttnWaves(s, layer), TailWaves(s, layer), bar);
    FlatHitsConcat(s, env, HeadWaves(s, layer), AttnWaves(s, layer), bar);
    HeadWavesHits(s, env, layer, bar);
    AttnWavesHits(s, env, layer, bar);
    TailWavesHits(s, env, layer, bar);
    QkvHits(s, layer, bar);
    OprojHits(s, layer, bar);
    RmsNormHits(s, layer, bar);
    if IsMoe(s, layer) {
      MoeHeadHits(s, layer, bar);
    } else {
      UpgateHits(s, layer, bar);
      DownHits(s, layer, bar);
    }
  }

  // ---- all layers ----

  /** Arrivals of layers below n. */
  function Below(s: Shape, env: Env, n: nat, bar: Bar): nat
    requires ShapeOk(s) && EnvOk(s, env) && n <= s.layers
  {
    if n == 0 then 0 else Below(s, env, n - 1, bar) + OfLayer(s, env, n - 1, bar)
  }

  lemma {:induction false} LayersHits(s: Shape, env: Env, n: nat, bar: Bar)
    requires ShapeOk(s) && EnvOk(s, env) && n <= s.layers
    ensures FlatHits(s, env, LayersUpTo(s, n), bar) == Below(s, env, n, bar)
  {
    hide LayerWaves;
    hide OfLayer;
    if n > 0 {
      LayersHits(s, env, n - 1, bar);
      LayerHits(s, env, n - 1, bar);
      FlatHitsConcat(s, env, LayersUpTo(s, n - 1), LayerWaves(s, n - 1), bar);
    }
  }

  lemma TotalHits(s: Shape, env: Env, bar: Bar)
    requires ShapeOk(s) && EnvOk(s, env)
    ensures FlatHits(s, env, AllWaves(s), bar) == Below(s, env, s.layers, bar)
  {
    hide LayersUpTo;
    hide Below;
    LayersHits(s, env, s.layers, bar);
    FlatHitsConcat(s, env, LayersUpTo(s, s.layers), [LmHeadWave(s)], bar);
    FlatHitsOne(s, env, LmHeadWave(s), bar);
    UniformHits(s, LmHeadWave(s), None, bar);
  }

  /** A counter that only one layer arrives on: the whole schedule's arrivals are that layer's. */
  lemma {:induction false} BelowOne(s: Shape, env: Env, n: nat, layer: nat, bar: Bar)
    requires ShapeOk(s) && EnvOk(s, env) && n <= s.layers && layer < s.layers
    requires forall l :: 0 <= l < s.layers && l != layer ==> OfLayer(s, env, l, bar) == 0
    ensures Below(s, env, n, bar) == if layer < n then OfLayer(s, env, layer, bar) else 0
  {
    if n > 0 { BelowOne(s, env, n - 1, layer, bar); }
  }
}
