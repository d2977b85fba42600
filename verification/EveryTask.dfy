/** The schedule is complete: every task that the shape and the routing call for stands in the
    plan, and nothing else does (decode/schedule.py, and the device-built queues). */
module EveryTask {
  import opened Wrappers
  import opened Machine
  import opened Schedule
  import opened Arrivals
  import opened WaveArrivals
  import opened LayerArrivals
  import opened MoeQueues
  import opened DecodePlan
  import opened DecodeSupply
  import opened DecodeShape
  import opened DecodeInsts
  import opened Producers
  import opened AttnEntry
  import opened LayerComplete
  import opened KSplits
  import opened OneOfEach

  /** Some wave of layer x.layer runs x, or a queue that the wave drains holds it. */
  ghost predicate Runs(s: Shape, env: Env, l: nat, x: Inst)
    requires ShapeOk(s) && EnvOk(s, env) && l < s.layers
  {
    exists w :: w in LayerWaves(s, l) && x in Expanded(s, env, w)
  }

  lemma InWave(s: Shape, env: Env, l: nat, w: seq<Inst>, x: Inst)
    requires ShapeOk(s) && EnvOk(s, env) && l < s.layers && w in LayerWaves(s, l)
    requires x in w || (DrainedBy(w).Some? && x in QueueTasks(s, env, DrainedBy(w).value))
    ensures Runs(s, env, l, x)
  {
    hide LayerWaves;
    hide QueueTasks;
  }

  // ---- the waves before attention ----

  lemma QkvRuns(s: Shape, env: Env, x: Inst)
    requires ShapeOk(s) && EnvOk(s, env) && Built(s, env, x) && x.QkvProj?
    ensures Runs(s, env, x.layer, x)
  {
    hide Runs;
    hide LayerWaves;
    QkvIn(s, env, x);
    var l, w := x.layer, QkvWave(s, x.layer);
    assert HeadWaves(s, l)[0] == w;
    HeadWaveOfLayer(s, l, w);
    InWave(s, env, l, w, x);
  }

  lemma QkvIn(s: Shape, env: Env, x: Inst)
    requires ShapeOk(s) && EnvOk(s, env) && Built(s, env, x) && x.QkvProj?
    ensures x in QkvWave(s, x.layer)
  {
    hide KvOfQTile;
    hide HeadOfTile;
    hide QTiles;
    hide KvTiles;
    var w, q, k := QkvWave(s, x.layer), QTiles(s), KvTiles(s);
    var i := x.tileN + if x.gemm == 0 then 0 else if x.gemm == 1 then q else q + k;
    assert w[i] == x;
  }

  lemma HeadRuns(s: Shape, env: Env, x: Inst)
    requires ShapeOk(s) && EnvOk(s, env) && Built(s, env, x)
    requires x.RouterGemm? || x.RouterTopk? || x.RouteFinalize? || x.MoeGather? || x.FfnUpgate?
    ensures Runs(s, env, x.layer, x)
  {
    hide Runs;
    hide LayerWaves;
    hide QkvWave;
    var l := x.layer;
    var heads := HeadWaves(s, l);
    if x.RouterGemm? {
      GridHas(s.routerSplits, s.routerTiles, RouterTile(s, l), x.split, x.tileN);
    } else if x.RouterTopk? {
      assert TopkWave(s, l)[x.row] == x;
    } else if x.MoeGather? {
      assert GatherWave(s, l)[x.row] == x;
    } else if x.FfnUpgate? {
      assert UpgateWave(s, l)[x.tileN] == x;
    }
    hide RouterWave;
    hide TopkWave;
    hide GatherWave;
    hide UpgateWave;
    var k := if x.RouterGemm? then 1 else if x.RouterTopk? then 2 else if x.RouteFinalize? then 3 else if x.MoeGather? then 4 else 1;
    assert heads[k] in heads && x in heads[k];
    HeadWaveOfLayer(s, l, heads[k]);
    InWave(s, env, l, heads[k], x);
  }

  // ---- attention ----

  lemma DecodeRuns(s: Shape, env: Env, x: Inst)
    requires ShapeOk(s) && EnvOk(s, env) && Built(s, env, x) && x.AttnDecode?
    ensures Runs(s, env, x.layer, x)
  {
    hide Runs;
    hide LayerWaves;
    hide QkvWait;
    hide StaticAttnWave;
    hide AttnQueueTasks;
    hide CombineWave;
    var l := x.layer;
    var w := if s.drain[l] then seq(s.attnClaimers, _ => AttnDrain(l)) else StaticAttnWave(s, l, s.batch);
    assert AttnWaves(s, l)[0] == w;
    AttnWaveOfLayer(s, l, w);
    if s.drain[l] {
      QueueTaskIn(s, env, l, s.batch, x.row, x.kvh, x.split);
      assert DrainedBy(w) == Some(QueueId(AttnQueue, l));
    } else {
      StaticTaskIn(s, l, s.batch, x.row, x.kvh, x.split);
    }
    InWave(s, env, l, w, x);
  }

  lemma CombineRuns(s: Shape, env: Env, x: Inst)
    requires ShapeOk(s) && EnvOk(s, env) && Built(s, env, x) && x.AttnCombine?
    ensures Runs(s, env, x.layer, x)
  {
    hide Runs;
    hide LayerWaves;
    hide CombineWave;
    hide StaticAttnWave;
    var l := x.layer;
    var n := if s.drain[l] then DYNAMIC else s.splits[l];
    CombineIn(s, l, n, x.row, x.kvh);
    assert AttnWaves(s, l)[1] == CombineWave(s, l, n);
    AttnWaveOfLayer(s, l, CombineWave(s, l, n));
    assert CombineTile(s, l, n)(x.row, x.kvh) == x;
    InWave(s, env, l, CombineWave(s, l, n), x);
  }

  // ---- the experts ----

  lemma {:induction false} UpExpertHas(s: Shape, l: nat, e: nat, blocks: nat, up: nat, t: nat)
    requires ShapeOk(s) && up < blocks && t < s.moe.upTasks
    ensures MoeUpTask(l, e, DownBlockOf(s, up), up, t) in UpExpertTasks(s, l, e, blocks)
  {
    hide DownBlockOf;
    if up < blocks - 1 {
      UpExpertHas(s, l, e, blocks - 1, up, t);
    } else {
      assert UpBlockTasks(s, l, e, up)[t] == MoeUpTask(l, e, DownBlockOf(s, up), up, t);
    }
  }

  lemma {:induction false} UpQueueHas(s: Shape, env: Env, l: nat, experts: nat, e: nat, up: nat, t: nat)
    requires ShapeOk(s) && EnvOk(s, env) && l < s.layers && e < experts <= s.moe.experts
    requires up < CeilDiv(env.routed[l][e], s.moe.upBm) && t < s.moe.upTasks
    ensures MoeUpTask(l, e, DownBlockOf(s, up), up, t) in UpQueue(s, env, l, experts)
  {
    hide CeilDiv;
    hide DownBlockOf;
    if e < experts - 1 {
      UpQueueHas(s, env, l, experts - 1, e, up, t);
    } else {
      UpExpertHas(s, l, e, CeilDiv(env.routed[l][e], s.moe.upBm), up, t);
    }
  }

  lemma {:induction false} DownExpertHas(s: Shape, l: nat, e: nat, count: nat, blocks: nat, b: nat, t: nat)
    requires ShapeOk(s) && b < blocks && t < s.moe.downTasks
    ensures MoeDownTask(l, e, b, t, UpWaitTarget(s, count, b)) in DownExpertTasks(s, l, e, count, blocks)
  {
    hide UpWaitTarget;
    if b < blocks - 1 {
      DownExpertHas(s, l, e, count, blocks - 1, b, t);
    } else {
      var last := seq(s.moe.downTasks, (t: nat) => MoeDownTask(l, e, b, t, UpWaitTarget(s, count, b)));
      assert last[t] == MoeDownTask(l, e, b, t, UpWaitTarget(s, count, b));
    }
  }

  lemma {:induction false} DownQueueHas(s: Shape, env: Env, l: nat, experts: nat, e: nat, b: nat, t: nat)
    requires ShapeOk(s) && EnvOk(s, env) && l < s.layers && e < experts <= s.moe.experts
    requires b < CeilDiv(env.routed[l][e], s.moe.downBm) && t < s.moe.downTasks
    ensures MoeDownTask(l, e, b, t, UpWaitTarget(s, env.routed[l][e], b)) in DownQueue(s, env, l, experts)
  {
    hide UpWaitTarget;
    hide CeilDiv;
    if e < experts - 1 {
      DownQueueHas(s, env, l, experts - 1, e, b, t);
    } else {
      DownExpertHas(s, l, e, env.routed[l][e], CeilDiv(env.routed[l][e], s.moe.downBm), b, t);
    }
  }

  lemma ExpertRuns(s: Shape, env: Env, x: Inst)
    requires ShapeOk(s) && EnvOk(s, env) && Built(s, env, x) && (x.MoeUpTask? || x.MoeDownTask? || x.MoeCombine?)
    ensures Runs(s, env, x.layer, x)
  {
    hide Runs;
    hide LayerWaves;
    hide TailWaves;
    hide UpQueue;
    hide DownQueue;
    hide CeilDiv;
    hide UpWaitTarget;
    hide DownBlockOf;
    hide BlocksPerExpert;
    var l := x.layer;
    TailMembers(s, l);
    var ups := seq(s.upClaimers, _ => MoeUpDrain(l));
    var downs := seq(s.downClaimers, _ => MoeDownDrain(l));
    var combine := seq(s.batch, (row: nat) => MoeCombine(l, row));
    var w := if x.MoeUpTask? then ups else if x.MoeDownTask? then downs else combine;
    TailWaveOfLayer(s, l, w);
    match x {
      case MoeUpTask(_, e, _, up, t) =>
        UpQueueHas(s, env, l, s.moe.experts, e, up, t);
        assert DrainedBy(ups) == Some(QueueId(MoeUpQueue, l));
      case MoeDownTask(_, e, b, t, _) =>
        DownQueueHas(s, env, l, s.moe.experts, e, b, t);
        assert DrainedBy(downs) == Some(QueueId(MoeDownQueue, l));
      case MoeCombine(_, row) => assert combine[row] == x;
    }
    InWave(s, env, l, w, x);
  }

  lemma TailRuns(s: Shape, env: Env, x: Inst)
    requires ShapeOk(s) && EnvOk(s, env) && Built(s, env, x) && (x.FfnDown? || x.OProj? || x.AddRmsNorm?)
    ensures Runs(s, env, x.layer, x)
  {
    hide Runs;
    hide LayerWaves;
    hide TailWaves;
    hide FfnTarget;
    var l := x.layer;
    TailMembers(s, l);
    var w := if x.FfnDown? then DownWave(s, l) else if x.OProj? then OprojWave(s, l) else RmsNormWave(s, l);
    TailWaveOfLayer(s, l, w);
    if x.FfnDown? {
      GridHas(s.downSplits, s.dTiles, DownTile(s, l), x.split, x.tileN);
      assert DownTile(s, l)(x.split, x.tileN) == x;
    } else if x.OProj? {
      GridHas(s.oprojSplits, s.dTiles, OprojTile(s, l), x.split, x.tileN);
      assert OprojTile(s, l)(x.split, x.tileN) == x;
    } else {
      assert RmsNormWave(s, l)[x.row] == x;
    }
    InWave(s, env, l, w, x);
  }

  // ---- the whole schedule ----

  lemma LmHeadRuns(s: Shape, env: Env, sms: nat, ablation: bool, x: Inst)
    requires ShapeOk(s) && EnvOk(s, env) && Built(s, env, x) && x.LmHead?
    ensures x in InstsOf(s, env, AllWaves(s), sms, ablation)
  {
    hide LayersUpTo;
    hide InstsOf;
    assert LmHeadWave(s)[x.tileN] == x;
    InstPresent(s, env, AllWaves(s), sms, ablation, LmHeadWave(s), x);
  }

  lemma RunsIsPresent(s: Shape, env: Env, sms: nat, ablation: bool, l: nat, x: Inst)
    requires ShapeOk(s) && EnvOk(s, env) && l < s.layers && Runs(s, env, l, x)
    ensures x in InstsOf(s, env, AllWaves(s), sms, ablation)
  {
    hide LayersUpTo;
    hide InstsOf;
    hide LayerWaves;
    hide Expanded;
    hide LmHeadWave;
    var w :| w in LayerWaves(s, l) && x in Expanded(s, env, w);
    WaveOfLayer(s, s.layers, l, w);
    InstPresent(s, env, AllWaves(s), sms, ablation, w, x);
  }

  /** What the plan runs, queue entries included, is exactly what is called for: every tile of
      every projection, router, feed-forward and LM-head GEMM in each of its K splits, every
      split of every attention row and head and its combine, every up and down tile of every
      block of rows an expert is routed, and one join for every row of every layer. */
  lemma PlanIsComplete(s: Shape, env: Env, sms: nat, ablation: bool, x: Inst)
    requires ShapeOk(s) && EnvOk(s, env) && Real(x)
    ensures x in InstsOf(s, env, AllWaves(s), sms, ablation) <==> Built(s, env, x)
  {
    hide InstsOf;
    hide AllWaves;
    hide Built;
    hide Runs;
    if x in InstsOf(s, env, AllWaves(s), sms, ablation) { BuiltAll(s, env, sms, ablation, x); }
    if Built(s, env, x) {
      if x.LmHead? {
        LmHeadRuns(s, env, sms, ablation, x);
      } else {
        InSomeLayer(s, env, x);
        RunsIsPresent(s, env, sms, ablation, x.layer, x);
      }
    }
  }

  lemma InSomeLayer(s: Shape, env: Env, x: Inst)
    requires ShapeOk(s) && EnvOk(s, env) && Real(x) && Built(s, env, x) && !x.LmHead?
    ensures x.layer < s.layers && Runs(s, env, x.layer, x)
  {
    hide Runs;
    match x {
      case QkvProj(_, _, _, _, _, _) => QkvRuns(s, env, x);
      case AttnDecode(_, _, _, _, _, _, _) => DecodeRuns(s, env, x);
      case AttnCombine(_, _, _, _, _, _, _) => CombineRuns(s, env, x);
      case MoeUpTask(_, _, _, _, _) => ExpertRuns(s, env, x);
      case MoeDownTask(_, _, _, _, _) => ExpertRuns(s, env, x);
      case MoeCombine(_, _) => ExpertRuns(s, env, x);
      case FfnDown(_, _, _, _, _, _) => TailRuns(s, env, x);
      case OProj(_, _, _, _, _, _) => TailRuns(s, env, x);
      case AddRmsNorm(_, _, _, _, _) => TailRuns(s, env, x);
      case _ => HeadRuns(s, env, x);
    }
  }

  // ---- how often ----

  lemma {:induction false} CountOnce(w: seq<Inst>, x: Inst)
    requires Once(w) && Real(x)
    ensures multiset(w)[x] == if x in w then 1 else 0
  {
    if w != [] {
      var n := |w| - 1;
      assert w == w[..n] + [w[n]];
      CountOnce(w[..n], x);
    }
  }

  /** Each task that is called for is one node of the plan, and no other task is. */
  lemma TasksExactlyOnce(s: Shape, env: Env, sms: nat, ablation: bool, x: Inst)
    requires ShapeOk(s) && EnvOk(s, env) && Real(x)
    ensures multiset(InstsOf(s, env, AllWaves(s), sms, ablation))[x] == if Built(s, env, x) then 1 else 0
  {
    hide InstsOf;
    hide AllWaves;
    hide Built;
    hide Once;
    EachTaskOnce(s, env, sms, ablation);
    PlanIsComplete(s, env, sms, ablation, x);
    CountOnce(InstsOf(s, env, AllWaves(s), sms, ablation), x);
  }

  lemma {:induction false} WaveCounted(s: Shape, env: Env, waves: Waves, sms: nat, ablation: bool, w: seq<Inst>)
    requires ShapeOk(s) && EnvOk(s, env) && w in waves
    ensures multiset(w) <= multiset(InstsOf(s, env, waves, sms, ablation))
  {
    hide SyncInsts;
    hide QueueTasks;
    hide DrainedBy;
    var k := |waves| - 1;
    if w in waves[..k] { WaveCounted(s, env, waves[..k], sms, ablation, w); } else { assert w == waves[k]; }
  }

  lemma {:induction false} Copies(n: nat, x: Inst)
    ensures multiset(seq(n, _ => x))[x] == n
  {
    if n > 0 {
      Copies(n - 1, x);
      assert seq(n, _ => x) == seq(n - 1, _ => x) + [x];
    }
  }

  /** Each queue of a layer has all of its claimers. */
  lemma ClaimersStand(s: Shape, env: Env, sms: nat, ablation: bool, l: nat)
    requires ShapeOk(s) && EnvOk(s, env) && l < s.layers
    ensures var m := multiset(InstsOf(s, env, AllWaves(s), sms, ablation));
      && (s.drain[l] ==> m[AttnDrain(l)] >= s.attnClaimers)
      && (IsMoe(s, l) ==> m[MoeUpDrain(l)] >= s.upClaimers && m[MoeDownDrain(l)] >= s.downClaimers)
  {
    hide InstsOf;
    hide LayersUpTo;
    hide LayerWaves;
    hide LmHeadWave;
    hide TailWaves;
    hide CombineWave;
    if s.drain[l] {
      var w := seq(s.attnClaimers, _ => AttnDrain(l));
      assert AttnWaves(s, l)[0] == w;
      AttnWaveOfLayer(s, l, w);
      CopiesStand(s, env, sms, ablation, l, s.attnClaimers, AttnDrain(l));
    }
    if IsMoe(s, l) {
      TailMembers(s, l);
      TailWaveOfLayer(s, l, seq(s.upClaimers, _ => MoeUpDrain(l)));
      TailWaveOfLayer(s, l, seq(s.downClaimers, _ => MoeDownDrain(l)));
      CopiesStand(s, env, sms, ablation, l, s.upClaimers, MoeUpDrain(l));
      CopiesStand(s, env, sms, ablation, l, s.downClaimers, MoeDownDrain(l));
    }
  }

  lemma CopiesStand(s: Shape, env: Env, sms: nat, ablation: bool, l: nat, n: nat, x: Inst)
    requires ShapeOk(s) && EnvOk(s, env) && l < s.layers && seq(n, _ => x) in LayerWaves(s, l)
    ensures multiset(InstsOf(s, env, AllWaves(s), sms, ablation))[x] >= n
  {
    hide InstsOf;
    hide LayersUpTo;
    hide LayerWaves;
    hide LmHeadWave;
    var w := seq(n, _ => x);
    WaveOfLayer(s, s.layers, l, w);
    WaveCounted(s, env, AllWaves(s), sms, ablation, w);
    Copies(n, x);
  }
}
