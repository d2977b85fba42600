/** The decode schedule's waves: claimers stand in waves of their own and no queue is
    drained by two waves. */
module DecodeShape {
  import opened Wrappers
  import opened Machine
  import opened Schedule
  import opened WaveArrivals
  import opened LayerArrivals
  import opened MoeQueues
  import opened DecodePlan
  import opened DecodeSupply

  /** An ordinary instruction of a host list: no claimer, no barrier, no expert task. */
  predicate Plain(x: Inst) {
    DrainQueue(x).None? && !x.GridSync? && !x.MoeUpTask? && !x.MoeDownTask?
  }

  predicate PlainWave(w: seq<Inst>) { forall x :: x in w ==> Plain(x) }

  predicate ClaimerWave(w: seq<Inst>, q: QueueId) {
    w != [] && forall x :: x in w ==> DrainQueue(x) == Some(q) && !x.GridSync?
  }

  /** Every wave is plain, or all claimers of one queue of a layer in [lo, hi). */
  ghost predicate Sorted(waves: Waves, lo: nat, hi: nat) {
    && (forall k :: 0 <= k < |waves| ==>
          PlainWave(waves[k]) ||
          (DrainedBy(waves[k]).Some? && ClaimerWave(waves[k], DrainedBy(waves[k]).value)))
    && (forall k :: 0 <= k < |waves| && DrainedBy(waves[k]).Some? ==>
          lo <= DrainedBy(waves[k]).value.layer < hi)
    && (forall a, b :: 0 <= a < b < |waves| && DrainedBy(waves[a]).Some? ==>
          DrainedBy(waves[a]) != DrainedBy(waves[b]))
  }

  lemma PlainDrainsNothing(w: seq<Inst>)
    requires PlainWave(w)
    ensures DrainedBy(w) == None
  {
    if w != [] { assert w[0] in w; }
  }

  lemma SortedConcat(a: Waves, b: Waves, lo: nat, mid: nat, hi: nat)
    requires Sorted(a, lo, mid) && Sorted(b, mid, hi) && lo <= mid <= hi
    ensures Sorted(a + b, lo, hi)
  {
    hide DrainedBy;
    hide PlainWave;
    hide ClaimerWave;
  }

  // ---- which waves are plain ----

  lemma GridPlain(rows: nat, cols: nat, f: (nat, nat) -> Inst)
    requires forall i: nat, j: nat :: i < rows && j < cols ==> Plain(f(i, j))
    ensures PlainWave(Grid(rows, cols, f))
  {
    forall x | x in Grid(rows, cols, f) ensures Plain(x) {
      var i, j := GridElement(rows, cols, f, x);
    }
  }

  lemma PlainRows(s: Shape, layer: nat)
    requires ShapeOk(s)
    ensures PlainWave(QkvWave(s, layer)) && PlainWave(UpgateWave(s, layer)) && PlainWave(TopkWave(s, layer))
    ensures PlainWave([RouteFinalize(layer)]) && PlainWave(GatherWave(s, layer))
    ensures PlainWave(RmsNormWave(s, layer)) && PlainWave(LmHeadWave(s))
    ensures PlainWave(seq(s.batch, (row: nat) => MoeCombine(layer, row)))
  {
    hide DownWave;
  }

  lemma PlainWaves(s: Shape, layer: nat, n: nat)
    requires ShapeOk(s)
    ensures PlainWave(QkvWave(s, layer)) && PlainWave(UpgateWave(s, layer))
    ensures PlainWave(RouterWave(s, layer)) && PlainWave(TopkWave(s, layer))
    ensures PlainWave([RouteFinalize(layer)]) && PlainWave(GatherWave(s, layer))
    ensures PlainWave(CombineWave(s, layer, n)) && PlainWave(DownWave(s, layer))
    ensures PlainWave(OprojWave(s, layer)) && PlainWave(RmsNormWave(s, layer))
    ensures PlainWave(LmHeadWave(s))
    ensures PlainWave(seq(s.batch, (row: nat) => MoeCombine(layer, row)))
  {
    hide PlainWave;
    hide QkvWave;
    hide RmsNormWave;
    PlainRows(s, layer);
    GridPlain(s.routerSplits, s.routerTiles, RouterTile(s, layer));
    GridPlain(s.batch, s.hkv, CombineTile(s, layer, n));
    GridPlain(s.downSplits, s.dTiles, DownTile(s, layer));
    GridPlain(s.oprojSplits, s.dTiles, OprojTile(s, layer));
  }

  lemma StaticPlain(s: Shape, layer: nat)
    requires ShapeOk(s) && layer < s.layers
    ensures PlainWave(StaticAttnWave(s, layer, s.batch))
  {
    StaticAreDecodes(s, layer, s.batch);
  }

  lemma PlainSorted(waves: Waves, n: nat)
    requires forall k :: 0 <= k < |waves| ==> PlainWave(waves[k])
    ensures Sorted(waves, n, n)
  {
    hide DrainedBy;
    hide PlainWave;
    forall k | 0 <= k < |waves| ensures DrainedBy(waves[k]) == None { PlainDrainsNothing(waves[k]); }
  }

  // ---- one layer ----

  lemma SortedWiden(waves: Waves, lo: nat, hi: nat)
    requires Sorted(waves, lo, lo) && lo <= hi
    ensures Sorted(waves, lo, hi)
  {
  }

  /** Plain waves, then claimers of distinct queues of `layer`, mixed with plain waves. */
  lemma LayerSorted(s: Shape, layer: nat)
    requires ShapeOk(s) && layer < s.layers
    ensures Sorted(LayerWaves(s, layer), layer, layer + 1)
  {
    hide QkvWave;
    hide UpgateWave;
    hide RouterWave;
    hide TopkWave;
    hide GatherWave;
    hide CombineWave;
    hide StaticAttnWave;
    hide DownWave;
    hide OprojWave;
    hide RmsNormWave;
    hide PlainWave;
    LayerSplit(s, layer);
    PlainWaves(s, layer, DYNAMIC);
    PlainWaves(s, layer, s.splits[layer]);
    StaticPlain(s, layer);
    var h, a, t := HeadWaves(s, layer), AttnWaves(s, layer), TailWaves(s, layer);
    AttnSorted(s, layer);
    TailSorted(s, layer);
    forall k | 0 <= k < |h| ensures DrainedBy(h[k]) == None && PlainWave(h[k]) { PlainDrainsNothing(h[k]); }
    JoinSorted(h, a, t, layer);
  }

  /** The attention part drains at most the attention queue. */
  lemma AttnSorted(s: Shape, layer: nat)
    requires ShapeOk(s) && layer < s.layers
    ensures Sorted(AttnWaves(s, layer), layer, layer + 1)
    ensures forall k :: 0 <= k < |AttnWaves(s, layer)| && DrainedBy(AttnWaves(s, layer)[k]).Some? ==>
      DrainedBy(AttnWaves(s, layer)[k]).value.kind == AttnQueue
  {
    hide CombineWave;
    hide StaticAttnWave;
    PlainWaves(s, layer, DYNAMIC);
    PlainWaves(s, layer, s.splits[layer]);
    StaticPlain(s, layer);
    PlainDrainsNothing(CombineWave(s, layer, DYNAMIC));
    PlainDrainsNothing(CombineWave(s, layer, s.splits[layer]));
    PlainDrainsNothing(StaticAttnWave(s, layer, s.batch));
    var drains := seq(s.attnClaimers, _ => AttnDrain(layer));
    assert ClaimerWave(drains, QueueId(AttnQueue, layer));
    assert DrainedBy(drains) == Some(QueueId(AttnQueue, layer));
  }

  /** The rest drains the expert queues, once each. */
  lemma TailSorted(s: Shape, layer: nat)
    requires ShapeOk(s) && layer < s.layers
    ensures Sorted(TailWaves(s, layer), layer, layer + 1)
    ensures forall k :: 0 <= k < |TailWaves(s, layer)| && DrainedBy(TailWaves(s, layer)[k]).Some? ==>
      DrainedBy(TailWaves(s, layer)[k]).value.kind != AttnQueue
  {
    hide DownWave;
    hide OprojWave;
    hide RmsNormWave;
    hide PlainWave;
    hide MoeWaves;
    PlainWaves(s, layer, DYNAMIC);
    var ups := seq(s.upClaimers, _ => MoeUpDrain(layer));
    var downs := seq(s.downClaimers, _ => MoeDownDrain(layer));
    var combine := seq(s.batch, (row: nat) => MoeCombine(layer, row));
    assert ClaimerWave(ups, QueueId(MoeUpQueue, layer)) && DrainedBy(ups) == Some(QueueId(MoeUpQueue, layer));
    assert ClaimerWave(downs, QueueId(MoeDownQueue, layer)) && DrainedBy(downs) == Some(QueueId(MoeDownQueue, layer));
    PlainDrainsNothing(combine);
    PlainDrainsNothing(DownWave(s, layer));
    PlainDrainsNothing(OprojWave(s, layer));
    PlainDrainsNothing(RmsNormWave(s, layer));
    TailList(s, layer, ups, downs, combine);
  }

  lemma TailList(s: Shape, layer: nat, ups: seq<Inst>, downs: seq<Inst>, combine: seq<Inst>)
    requires ShapeOk(s) && layer < s.layers
    requires ups == seq(s.upClaimers, _ => MoeUpDrain(layer))
    requires downs == seq(s.downClaimers, _ => MoeDownDrain(layer))
    requires combine == seq(s.batch, (row: nat) => MoeCombine(layer, row))
    ensures TailWaves(s, layer) ==
      if IsMoe(s, layer) then
        (if s.atomicCombine then [ups, downs, OprojWave(s, layer), RmsNormWave(s, layer)]
         else [ups, downs, combine, OprojWave(s, layer), RmsNormWave(s, layer)])
      else [DownWave(s, layer), OprojWave(s, layer), RmsNormWave(s, layer)]
  {
    hide DownWave;
    hide OprojWave;
    hide RmsNormWave;
  }

  lemma JoinSorted(h: Waves, a: Waves, t: Waves, layer: nat)
    requires forall k :: 0 <= k < |h| ==> DrainedBy(h[k]) == None && PlainWave(h[k])
    requires Sorted(a, layer, layer + 1) && Sorted(t, layer, layer + 1)
    requires forall k :: 0 <= k < |a| && DrainedBy(a[k]).Some? ==> DrainedBy(a[k]).value.kind == AttnQueue
    requires forall k :: 0 <= k < |t| && DrainedBy(t[k]).Some? ==> DrainedBy(t[k]).value.kind != AttnQueue
    ensures Sorted(h + a + t, layer, layer + 1)
  {
    hide DrainedBy;
    hide PlainWave;
    hide ClaimerWave;
  }

  // ---- the whole schedule ----

  lemma {:induction false} LayersSorted(s: Shape, n: nat)
    requires ShapeOk(s) && n <= s.layers
    ensures Sorted(LayersUpTo(s, n), 0, n)
  {
    hide LayerWaves;
    if n > 0 {
      LayersSorted(s, n - 1);
      LayerSorted(s, n - 1);
      SortedConcat(LayersUpTo(s, n - 1), LayerWaves(s, n - 1), 0, n - 1, n);
    }
  }

  lemma QueueIsPlain(s: Shape, env: Env, q: QueueId, t: Inst)
    requires ShapeOk(s) && EnvOk(s, env) && t in QueueTasks(s, env, q)
    ensures DrainQueue(t).None? && !t.GridSync?
  {
    match q.kind
    case AttnQueue => QueueElement(s, env, q.layer, s.batch, t);
    case MoeUpQueue => UpQueueLayer(s, env, q.layer, s.moe.experts);
    case MoeDownQueue => DownQueueEntries(s, env, q.layer, s.moe.experts, t);
  }

  lemma SortedIsShaped(s: Shape, env: Env, waves: Waves, n: nat)
    requires ShapeOk(s) && EnvOk(s, env) && Sorted(waves, 0, n)
    ensures WavesShaped(s, env, waves)
  {
    hide QueueTasks;
    forall k, i | 0 <= k < |waves| && 0 <= i < |waves[k]|
      ensures DrainQueue(waves[k][i]) == DrainedBy(waves[k]) && !waves[k][i].GridSync?
    {
      assert waves[k][i] in waves[k];
      if PlainWave(waves[k]) { PlainDrainsNothing(waves[k]); }
    }
    forall k, t | 0 <= k < |waves| && DrainedBy(waves[k]).Some?
      && t in QueueTasks(s, env, DrainedBy(waves[k]).value)
      ensures DrainQueue(t).None? && !t.GridSync?
    {
      QueueIsPlain(s, env, DrainedBy(waves[k]).value, t);
    }
  }

  lemma AllSorted(s: Shape)
    requires ShapeOk(s)
    ensures Sorted(AllWaves(s), 0, s.layers)
  {
    hide LayersUpTo;
    hide LmHeadWave;
    LayersSorted(s, s.layers);
    PlainWaves(s, 0, DYNAMIC);
    PlainSorted([LmHeadWave(s)], s.layers);
    SortedConcat(LayersUpTo(s, s.layers), [LmHeadWave(s)], 0, s.layers, s.layers);
  }

  lemma AllShaped(s: Shape, env: Env)
    requires ShapeOk(s) && EnvOk(s, env)
    ensures WavesShaped(s, env, AllWaves(s))
  {
    hide AllWaves;
    hide WavesShaped;
    AllSorted(s);
    SortedIsShaped(s, env, AllWaves(s), s.layers);
  }

  /** Expert tasks only come off the device-built queues. */
  lemma NoExpertTasks(s: Shape)
    requires ShapeOk(s)
    ensures forall k, x :: 0 <= k < |AllWaves(s)| && x in AllWaves(s)[k] ==> !x.MoeUpTask? && !x.MoeDownTask?
  {
    hide AllWaves;
    AllSorted(s);
    forall k, x | 0 <= k < |AllWaves(s)| && x in AllWaves(s)[k] ensures !x.MoeUpTask? && !x.MoeDownTask? {
      if PlainWave(AllWaves(s)[k]) { assert Plain(x); }
    }
  }
}
