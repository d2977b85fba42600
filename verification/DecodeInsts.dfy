/** Which instructions a decode plan is made of. */
module DecodeInsts {
  import opened Wrappers
  import opened Machine
  import opened Progress
  import opened Schedule
  import opened Arrivals
  import opened WaveArrivals
  import opened LayerArrivals
  import opened MoeQueues
  import opened DecodePlan
  import opened DecodeSupply
  import opened DecodeShape

  function SyncInsts(k: nat, sms: nat, ablation: bool): seq<Inst> {
    if ablation && k > 0 then seq(sms, _ => GridSync) else []
  }

  /** The instruction behind every node of PlanOf, in the same order. */
  function InstsOf(s: Shape, env: Env, waves: Waves, sms: nat, ablation: bool): seq<Inst>
    requires ShapeOk(s) && EnvOk(s, env)
  {
    if waves == [] then [] else
    var k := |waves| - 1;
    InstsOf(s, env, waves[..k], sms, ablation) + SyncInsts(k, sms, ablation) + Expanded(s, env, waves[k])
  }

  ghost predicate Behind(s: Shape, env: Env, plan: seq<Node>, insts: seq<Inst>)
    requires ShapeOk(s)
  {
    |plan| == |insts| && forall y :: 0 <= y < |plan| ==> plan[y].op == Compile(s, env, insts[y])
  }

  lemma BehindConcat(s: Shape, env: Env, a: seq<Node>, x: seq<Inst>, b: seq<Node>, y: seq<Inst>)
    requires ShapeOk(s) && Behind(s, env, a, x) && Behind(s, env, b, y)
    ensures Behind(s, env, a + b, x + y)
  {
    hide Compile;
  }

  lemma BehindSegment(s: Shape, env: Env, w: seq<Inst>, owner: seq<nat>)
    requires ShapeOk(s) && EnvOk(s, env) && |w| == |owner|
    ensures Behind(s, env, WaveNodes(s, env, w, owner) + QueueNodes(s, env, w), Expanded(s, env, w))
  {
    hide Compile;
    hide QueueTasks;
    hide DrainedBy;
    if DrainedBy(w).Some? {
      var q := DrainedBy(w).value;
      BehindConcat(s, env, WaveNodes(s, env, w, owner), w, QueueNodes(s, env, w), QueueTasks(s, env, q));
    } else {
      BehindConcat(s, env, WaveNodes(s, env, w, owner), w, QueueNodes(s, env, w), []);
    }
  }

  lemma BehindSyncs(s: Shape, env: Env, k: nat, sms: nat, ablation: bool)
    requires ShapeOk(s)
    ensures Behind(s, env, SyncsBeforeWave(k, sms, ablation), SyncInsts(k, sms, ablation))
  {
  }

  lemma {:induction false} PlanBehind(s: Shape, env: Env, waves: Waves, owners: Owners, sms: nat, ablation: bool)
    requires ShapeOk(s) && EnvOk(s, env) && OwnersFit(waves, owners, sms)
    ensures Behind(s, env, PlanOf(s, env, waves, owners, sms, ablation), InstsOf(s, env, waves, sms, ablation))
  {
    if waves != [] {
      hide Behind;
      hide WaveNodes;
      hide QueueNodes;
      hide Expanded;
      hide SyncsBeforeWave;
      hide SyncInsts;
      var k := |waves| - 1;
      var before := PlanOf(s, env, waves[..k], owners[..k], sms, ablation);
      var syncs := SyncsBeforeWave(k, sms, ablation);
      PlanBehind(s, env, waves[..k], owners[..k], sms, ablation);
      BehindSyncs(s, env, k, sms, ablation);
      BehindSegment(s, env, waves[k], owners[k]);
      BehindConcat(s, env, before, InstsOf(s, env, waves[..k], sms, ablation),
        syncs, SyncInsts(k, sms, ablation));
      BehindConcat(s, env, before + syncs, InstsOf(s, env, waves[..k], sms, ablation) + SyncInsts(k, sms, ablation),
        WaveNodes(s, env, waves[k], owners[k]) + QueueNodes(s, env, waves[k]), Expanded(s, env, waves[k]));
      assert before + syncs + WaveNodes(s, env, waves[k], owners[k]) + QueueNodes(s, env, waves[k])
        == before + syncs + (WaveNodes(s, env, waves[k], owners[k]) + QueueNodes(s, env, waves[k]));
    }
  }

  /** Every instruction of every wave, and of every queue it drains, is in the plan. */
  lemma {:induction false} InstPresent(s: Shape, env: Env, waves: Waves, sms: nat, ablation: bool, w: seq<Inst>, x: Inst)
    requires ShapeOk(s) && EnvOk(s, env) && w in waves && x in Expanded(s, env, w)
    ensures x in InstsOf(s, env, waves, sms, ablation)
  {
    hide Expanded;
    hide SyncInsts;
    var k := |waves| - 1;
    if w in waves[..k] { InstPresent(s, env, waves[..k], sms, ablation, w, x); }
    else { assert w == waves[k]; }
  }

  /** And nothing else is, apart from barriers. */
  lemma {:induction false} InstSource(s: Shape, env: Env, waves: Waves, sms: nat, ablation: bool, x: Inst)
    returns (w: seq<Inst>)
    requires ShapeOk(s) && EnvOk(s, env) && x in InstsOf(s, env, waves, sms, ablation) && x != GridSync
    ensures w in waves && x in Expanded(s, env, w)
  {
    hide Expanded;
    var k := |waves| - 1;
    if x in Expanded(s, env, waves[k]) {
      w := waves[k];
    } else {
      w := InstSource(s, env, waves[..k], sms, ablation, x);
    }
  }

  // ---- instructions carry the fields their coordinates call for ----

  function AttnSplits(s: Shape, env: Env, layer: nat, row: nat): nat
    requires ShapeOk(s) && EnvOk(s, env) && layer < s.layers && row < s.batch
  {
    if s.drain[layer] then env.rowSplits[row] else s.splits[layer]
  }

  /** An up task: some routed rows of the expert lie in its up block. */
  predicate UpEntry(s: Shape, env: Env, l: nat, x: Inst)
    requires ShapeOk(s) && EnvOk(s, env) && l < s.layers
  {
    && x.MoeUpTask? && x.layer == l && x.expert < s.moe.experts
    && x.up < CeilDiv(env.routed[l][x.expert], s.moe.upBm) && x.tile < s.moe.upTasks
  }

  predicate Built(s: Shape, env: Env, x: Inst)
    requires ShapeOk(s) && EnvOk(s, env)
  {
    match x
    case QkvProj(l, tn, g, idx, t, out) =>
      && l < s.layers && g <= 2 && idx == l && t == InputTarget(s, l)
      && tn < (if g == 0 then QTiles(s) else KvTiles(s))
      && out == l * s.hkv + (if g == 0 then KvOfQTile(s, tn) else HeadOfTile(s, tn))
    case RouterGemm(l, tn, split, idx, t, out) =>
      && l < s.layers && IsMoe(s, l) && tn < s.routerTiles && split < s.routerSplits
      && idx == l && t == InputTarget(s, l) && out == l
    case RouterTopk(l, row, t) =>
      l < s.layers && IsMoe(s, l) && row < s.batch && t == s.routerTiles * s.routerSplits
    case RouteFinalize(l) => l < s.layers && IsMoe(s, l)
    case MoeGather(l, row) => l < s.layers && IsMoe(s, l) && row < s.batch
    case FfnUpgate(l, tn, idx, t, out) =>
      && l < s.layers && !IsMoe(s, l) && tn < s.upTiles && idx == l && t == InputTarget(s, l)
      && out == l * s.downSplits
    case AttnDecode(l, row, kvh, split, n, w, t) =>
      && l < s.layers && DecodeTask(s, l, x) && n == AttnSplits(s, env, l, row)
      && w == (if s.drain[l] then 0 else s.window[l])
    case AttnDrain(l) => l < s.layers
    case AttnCombine(l, row, kvh, n, idx, t, out) =>
      && l < s.layers && row < s.batch && kvh < s.hkv
      && idx == CombineBar(s, l, row, kvh).idx && AttnSplits(s, env, l, row) > 1
      && n == (if s.drain[l] then DYNAMIC else s.splits[l]) && t == n
      && out == HeadBar(s, l, kvh / KvPerOprojPos(s)).idx
    case FfnDown(l, tn, split, idx, t, out) =>
      && l < s.layers && !IsMoe(s, l) && tn < s.dTiles && split < s.downSplits
      && idx == l * s.downSplits + split && t == SiluPerSplit(s) && out == l
    case MoeUpDrain(l) => l < s.layers && IsMoe(s, l)
    case MoeDownDrain(l) => l < s.layers && IsMoe(s, l)
    case MoeCombine(l, row) => l < s.layers && IsMoe(s, l) && !s.atomicCombine && row < s.batch
    case OProj(l, tn, split, idx, t, out) =>
      && l < s.layers && tn < s.dTiles && split < s.oprojSplits && idx == HeadBar(s, l, split).idx
      && t == s.batch * KvPerOprojPos(s) && out == l
    case AddRmsNorm(l, row, ffn, oproj, out) =>
      && l < s.layers && row < s.batch && ffn == FfnTarget(s, l) && oproj == OprojTiles(s)
      && out == JoinIdx(s, l)
    case LmHead(tn, idx, t) => tn < s.lmTiles && idx == s.layers - 1 && t == 2 * s.batch
    case GridSync => true
    case MoeUpTask(l, e, b, up, t) =>
      && l < s.layers && IsMoe(s, l) && UpEntry(s, env, l, x)
      && b == DownBlockOf(s, up) && l < s.layers && IsMoe(s, l) && e < s.moe.experts && b < BlocksPerExpert(s)
      && b < CeilDiv(env.routed[l][e], s.moe.downBm)
    case MoeDownTask(l, e, b, _, t) =>
      && l < s.layers && IsMoe(s, l) && DownEntry(s, env, l, x) && b < BlocksPerExpert(s)
  }

  /** The layer an instruction belongs to; the LM head comes after the last one. */
  function LayerOf(s: Shape, x: Inst): nat {
    if x.LmHead? then s.layers else if x.GridSync? then 0 else x.layer
  }

  /** Everything a wave of layer `l` runs, queue entries included, is built for that layer. */
  ghost predicate BuiltWave(s: Shape, env: Env, l: nat, w: seq<Inst>)
    requires ShapeOk(s) && EnvOk(s, env)
  {
    forall x :: x in Expanded(s, env, w) ==> Built(s, env, x) && LayerOf(s, x) == l
  }

  lemma BuiltPlain(s: Shape, env: Env, l: nat, w: seq<Inst>)
    requires ShapeOk(s) && EnvOk(s, env) && PlainWave(w)
    requires forall x :: x in w ==> Built(s, env, x) && LayerOf(s, x) == l
    ensures BuiltWave(s, env, l, w)
  {
    hide Built;
    PlainDrainsNothing(w);
  }

  lemma BuiltQkv(s: Shape, env: Env, l: nat)
    requires ShapeOk(s) && EnvOk(s, env) && l < s.layers
    ensures BuiltWave(s, env, l, QkvWave(s, l))
  {
    hide KvOfQTile;
    hide HeadOfTile;
    PlainWaves(s, l, DYNAMIC);
    BuiltPlain(s, env, l, QkvWave(s, l));
  }

  lemma BuiltHead(s: Shape, env: Env, l: nat)
    requires ShapeOk(s) && EnvOk(s, env) && l < s.layers
    ensures forall w :: w in HeadWaves(s, l) ==> BuiltWave(s, env, l, w)
  {
    hide QkvWave;
    PlainWaves(s, l, DYNAMIC);
    BuiltQkv(s, env, l);
    if IsMoe(s, l) {
      forall x | x in RouterWave(s, l) ensures Built(s, env, x) && LayerOf(s, x) == l {
        var i, j := GridElement(s.routerSplits, s.routerTiles, RouterTile(s, l), x);
      }
      BuiltPlain(s, env, l, RouterWave(s, l));
      BuiltPlain(s, env, l, TopkWave(s, l));
      BuiltPlain(s, env, l, [RouteFinalize(l)]);
      BuiltPlain(s, env, l, GatherWave(s, l));
    } else {
      BuiltPlain(s, env, l, UpgateWave(s, l));
    }
  }

  lemma BuiltCombine(s: Shape, env: Env, l: nat, n: nat)
    requires ShapeOk(s) && EnvOk(s, env) && l < s.layers
    requires if s.drain[l] then n == DYNAMIC else n == s.splits[l] > 1
    ensures BuiltWave(s, env, l, CombineWave(s, l, n))
  {
    PlainWaves(s, l, n);
    forall x | x in CombineWave(s, l, n) ensures Built(s, env, x) && LayerOf(s, x) == l {
      var row, kvh := GridElement(s.batch, s.hkv, CombineTile(s, l, n), x);
    }
    BuiltPlain(s, env, l, CombineWave(s, l, n));
  }

  lemma QueueBuilt(s: Shape, env: Env, l: nat, x: Inst)
    requires ShapeOk(s) && EnvOk(s, env) && l < s.layers && s.drain[l] && x in AttnQueueTasks(s, env, l, s.batch)
    ensures Built(s, env, x) && LayerOf(s, x) == l
  {
    hide QkvWait;
    QueueElement(s, env, l, s.batch, x);
  }

  lemma StaticBuilt(s: Shape, env: Env, l: nat, x: Inst)
    requires ShapeOk(s) && EnvOk(s, env) && l < s.layers && !s.drain[l] && x in StaticAttnWave(s, l, s.batch)
    ensures Built(s, env, x) && LayerOf(s, x) == l
  {
    hide QkvWait;
    StaticElement(s, l, s.batch, x);
  }

  lemma ClaimerBuilt(s: Shape, env: Env, l: nat)
    requires ShapeOk(s) && EnvOk(s, env) && l < s.layers
    ensures Built(s, env, AttnDrain(l))
    ensures IsMoe(s, l) ==> Built(s, env, MoeUpDrain(l)) && Built(s, env, MoeDownDrain(l))
  {
  }

  lemma BuiltAttn(s: Shape, env: Env, l: nat)
    requires ShapeOk(s) && EnvOk(s, env) && l < s.layers
    ensures forall w :: w in AttnWaves(s, l) ==> BuiltWave(s, env, l, w)
  {
    hide CombineWave;
    hide StaticAttnWave;
    hide AttnQueueTasks;
    hide Built;
    if s.drain[l] {
      BuiltCombine(s, env, l, DYNAMIC);
      var drains := seq(s.attnClaimers, _ => AttnDrain(l));
      ClaimerBuilt(s, env, l);
      forall x | x in Expanded(s, env, drains) ensures Built(s, env, x) && LayerOf(s, x) == l {
        if x in QueueTasks(s, env, QueueId(AttnQueue, l)) { QueueBuilt(s, env, l, x); }
      }
    } else {
      if s.splits[l] > 1 { BuiltCombine(s, env, l, s.splits[l]); }
      StaticPlain(s, l);
      forall x | x in StaticAttnWave(s, l, s.batch) ensures Built(s, env, x) && LayerOf(s, x) == l {
        StaticBuilt(s, env, l, x);
      }
      BuiltPlain(s, env, l, StaticAttnWave(s, l, s.batch));
    }
  }

  lemma {:induction false} UpExpertBlocks(s: Shape, l: nat, e: nat, blocks: nat, count: nat, x: Inst)
    requires ShapeOk(s) && count <= s.batch && blocks <= CeilDiv(count, s.moe.upBm)
    requires x in UpExpertTasks(s, l, e, blocks)
    ensures x.MoeUpTask? && x.layer == l && x.expert == e && x.block < BlocksPerExpert(s)
    ensures x.up < blocks && x.tile < s.moe.upTasks
    ensures x.block == DownBlockOf(s, x.up)
    ensures x.block < CeilDiv(count, s.moe.downBm)
  {
    hide CeilDiv;
    hide BlocksPerExpert;
    hide DownBlockOf;
    if x in UpExpertTasks(s, l, e, blocks - 1) {
      UpExpertBlocks(s, l, e, blocks - 1, count, x);
    } else {
      DownBlockBound(s, count, blocks - 1);
      DownBlockUsed(s, count, blocks - 1);
    }
  }

  lemma {:induction false} UpQueueBlocks(s: Shape, env: Env, l: nat, experts: nat, x: Inst)
    requires ShapeOk(s) && EnvOk(s, env) && l < s.layers && experts <= s.moe.experts
    requires x in UpQueue(s, env, l, experts)
    ensures x.MoeUpTask? && x.layer == l && x.expert < experts && x.block < BlocksPerExpert(s)
    ensures UpEntry(s, env, l, x)
    ensures x.block == DownBlockOf(s, x.up)
    ensures x.block < CeilDiv(env.routed[l][x.expert], s.moe.downBm)
  {
    hide CeilDiv;
    hide BlocksPerExpert;
    if x in UpQueue(s, env, l, experts - 1) {
      UpQueueBlocks(s, env, l, experts - 1, x);
    } else {
      UpExpertBlocks(s, l, experts - 1, CeilDiv(env.routed[l][experts - 1], s.moe.upBm),
        env.routed[l][experts - 1], x);
    }
  }

  lemma ExpertBuilt(s: Shape, env: Env, l: nat, x: Inst)
    requires ShapeOk(s) && EnvOk(s, env) && l < s.layers && IsMoe(s, l)
    requires x in UpQueue(s, env, l, s.moe.experts) || x in DownQueue(s, env, l, s.moe.experts)
    ensures Built(s, env, x) && LayerOf(s, x) == l
  {
    hide BlocksPerExpert;
    hide DownBlockOf;
    hide CeilDiv;
    hide UpQueue;
    hide DownQueue;
    hide UpWaitTarget;
    if x in UpQueue(s, env, l, s.moe.experts) {
      UpQueueBlocks(s, env, l, s.moe.experts, x);
    } else {
      DownTaskSupply(s, env, l, x);
    }
  }

  lemma BuiltMoe(s: Shape, env: Env, l: nat)
    requires ShapeOk(s) && EnvOk(s, env) && l < s.layers && IsMoe(s, l)
    ensures forall w :: w in MoeWaves(s, l) ==> BuiltWave(s, env, l, w)
  {
    hide UpQueue;
    hide DownQueue;
    hide Built;
    var ups := seq(s.upClaimers, _ => MoeUpDrain(l));
    var downs := seq(s.downClaimers, _ => MoeDownDrain(l));
    var combine := seq(s.batch, (row: nat) => MoeCombine(l, row));
    ClaimerBuilt(s, env, l);
    forall x | x in Expanded(s, env, ups) ensures Built(s, env, x) && LayerOf(s, x) == l {
      if x in UpQueue(s, env, l, s.moe.experts) { ExpertBuilt(s, env, l, x); }
    }
    forall x | x in Expanded(s, env, downs) ensures Built(s, env, x) && LayerOf(s, x) == l {
      if x in DownQueue(s, env, l, s.moe.experts) { ExpertBuilt(s, env, l, x); }
    }
    if !s.atomicCombine {
      PlainWaves(s, l, DYNAMIC);
      CombineBuilt(s, env, l);
      BuiltPlain(s, env, l, combine);
    }
  }

  lemma CombineBuilt(s: Shape, env: Env, l: nat)
    requires ShapeOk(s) && EnvOk(s, env) && l < s.layers && IsMoe(s, l) && !s.atomicCombine
    ensures forall x :: x in seq(s.batch, (row: nat) => MoeCombine(l, row)) ==> Built(s, env, x) && LayerOf(s, x) == l
  {
  }

  lemma BuiltTail(s: Shape, env: Env, l: nat)
    requires ShapeOk(s) && EnvOk(s, env) && l < s.layers
    ensures forall w :: w in TailWaves(s, l) ==> BuiltWave(s, env, l, w)
  {
    hide BuiltWave;
    hide MoeWaves;
    PlainWaves(s, l, DYNAMIC);
    BuiltPlain(s, env, l, RmsNormWave(s, l));
    forall x | x in OprojWave(s, l) ensures Built(s, env, x) && LayerOf(s, x) == l {
      var i, j := GridElement(s.oprojSplits, s.dTiles, OprojTile(s, l), x);
    }
    BuiltPlain(s, env, l, OprojWave(s, l));
    if IsMoe(s, l) {
      BuiltMoe(s, env, l);
    } else {
      forall x | x in DownWave(s, l) ensures Built(s, env, x) && LayerOf(s, x) == l {
        var i, j := GridElement(s.downSplits, s.dTiles, DownTile(s, l), x);
      }
      BuiltPlain(s, env, l, DownWave(s, l));
    }
  }

  lemma BuiltLayer(s: Shape, env: Env, l: nat)
    requires ShapeOk(s) && EnvOk(s, env) && l < s.layers
    ensures forall w :: w in LayerWaves(s, l) ==> BuiltWave(s, env, l, w)
  {
    LayerSplit(s, l);
    JoinBuilt(s, env, l);
  }

  lemma JoinBuilt(s: Shape, env: Env, l: nat)
    requires ShapeOk(s) && EnvOk(s, env) && l < s.layers
    ensures forall w :: w in HeadWaves(s, l) + AttnWaves(s, l) + TailWaves(s, l) ==> BuiltWave(s, env, l, w)
  {
    hide BuiltWave;
    hide HeadWaves;
    hide AttnWaves;
    hide TailWaves;
    BuiltHead(s, env, l);
    BuiltAttn(s, env, l);
    BuiltTail(s, env, l);
  }

  lemma {:induction false} BuiltLayers(s: Shape, env: Env, n: nat)
    requires ShapeOk(s) && EnvOk(s, env) && n <= s.layers
    ensures forall w :: w in LayersUpTo(s, n) ==> exists l: nat :: l < n && BuiltWave(s, env, l, w)
  {
    hide BuiltWave;
    hide LayerWaves;
    if n > 0 {
      BuiltLayers(s, env, n - 1);
      BuiltLayer(s, env, n - 1);
      forall w | w in LayersUpTo(s, n) ensures exists l: nat :: l < n && BuiltWave(s, env, l, w) {
        if w in LayersUpTo(s, n - 1) {
          var l: nat :| l < n - 1 && BuiltWave(s, env, l, w);
        } else {
          assert BuiltWave(s, env, n - 1, w);
        }
      }
    }
  }

  lemma BuiltAll(s: Shape, env: Env, sms: nat, ablation: bool, x: Inst)
    requires ShapeOk(s) && EnvOk(s, env) && x in InstsOf(s, env, AllWaves(s), sms, ablation)
    ensures Built(s, env, x)
  {
    hide LayersUpTo;
    hide InstsOf;
    if x != GridSync {
      var w := InstSource(s, env, AllWaves(s), sms, ablation, x);
      BuiltLayers(s, env, s.layers);
      PlainWaves(s, 0, DYNAMIC);
      BuiltPlain(s, env, s.layers, LmHeadWave(s));
    }
  }
}
