/** When a layer joins, everything in it has finished. */
module LayerComplete {
  import opened Arithmetic
  import opened Wrappers
  import opened Machine
  import opened Schedule
  import opened Arrivals
  import opened WaveArrivals
  import opened LayerArrivals
  import opened MoeQueues
  import opened DecodePlan
  import opened DecodeSupply
  import opened DecodeInsts
  import opened DecodeProgress
  import opened HappensBefore
  import opened Producers
  import opened LayerEntry
  import opened AttnEntry
  import opened SplitBlocks

  lemma TailWaveOfLayer(s: Shape, l: nat, w: seq<Inst>)
    requires ShapeOk(s) && l < s.layers && w in TailWaves(s, l)
    ensures w in LayerWaves(s, l)
  {
    hide AttnWaves;
    hide HeadWaves;
    hide TailWaves;
    hide LayerWaves;
    LayerSplit(s, l);
    assert w in HeadWaves(s, l) + AttnWaves(s, l) + TailWaves(s, l);
  }

  lemma TailMembers(s: Shape, l: nat)
    requires ShapeOk(s) && l < s.layers
    ensures OprojWave(s, l) in TailWaves(s, l) && RmsNormWave(s, l) in TailWaves(s, l)
    ensures !IsMoe(s, l) ==> DownWave(s, l) in TailWaves(s, l)
    ensures IsMoe(s, l) ==> seq(s.upClaimers, _ => MoeUpDrain(l)) in TailWaves(s, l)
    ensures IsMoe(s, l) ==> seq(s.downClaimers, _ => MoeDownDrain(l)) in TailWaves(s, l)
    ensures IsMoe(s, l) && !s.atomicCombine ==>
      seq(s.batch, (row: nat) => MoeCombine(l, row)) in TailWaves(s, l)
  {
    hide OprojWave;
    hide RmsNormWave;
    hide DownWave;
    var front := if IsMoe(s, l) then MoeWaves(s, l) else [DownWave(s, l)];
    var back := [OprojWave(s, l), RmsNormWave(s, l)];
    assert TailWaves(s, l) == front + back;
    assert back[0] in back && back[1] in back;
    if IsMoe(s, l) {
      assert front[0] in front && front[1] in front;
      if !s.atomicCombine { assert front[2] in front; }
    } else {
      assert front[0] in front;
    }
  }

  // ---- the instructions that stand for a whole counter ----

  lemma OprojHere(r: Run, l: nat, g: nat) returns (z: nat)
    requires RunOk(r) && l < r.s.layers && g < r.s.oprojSplits
    ensures z < |Insts(r)|
    ensures var x := Insts(r)[z]; x.OProj? && x.layer == l && x.split == g
  {
    hide InstsOf;
    hide Decode;
    hide Exec;
    hide OprojWave;
    hide LayerWaves;
    hide TailWaves;
    TailMembers(r.s, l);
    TailWaveOfLayer(r.s, l, OprojWave(r.s, l));
    OprojIn(r.s, l, g);
    z := Find(r, l, OprojWave(r.s, l), OprojTile(r.s, l)(g, 0));
  }

  lemma OprojIn(s: Shape, l: nat, g: nat)
    requires ShapeOk(s) && g < s.oprojSplits
    ensures OprojTile(s, l)(g, 0) in OprojWave(s, l)
  {
    GridHas(s.oprojSplits, s.dTiles, OprojTile(s, l), g, 0);
  }

  lemma DownHere(r: Run, l: nat, split: nat) returns (z: nat)
    requires RunOk(r) && l < r.s.layers && !IsMoe(r.s, l) && split < r.s.downSplits
    ensures z < |Insts(r)|
    ensures var x := Insts(r)[z]; x.FfnDown? && x.layer == l && x.split == split
  {
    hide InstsOf;
    hide Decode;
    hide Exec;
    hide DownWave;
    hide LayerWaves;
    hide TailWaves;
    TailMembers(r.s, l);
    TailWaveOfLayer(r.s, l, DownWave(r.s, l));
    DownIn(r.s, l, split);
    z := Find(r, l, DownWave(r.s, l), DownTile(r.s, l)(split, 0));
  }

  lemma DownIn(s: Shape, l: nat, split: nat)
    requires ShapeOk(s) && split < s.downSplits
    ensures DownTile(s, l)(split, 0) in DownWave(s, l)
  {
    GridHas(s.downSplits, s.dTiles, DownTile(s, l), split, 0);
  }

  lemma NormHere(r: Run, l: nat, row: nat) returns (z: nat)
    requires RunOk(r) && l < r.s.layers && row < r.s.batch
    ensures z < |Insts(r)|
    ensures var x := Insts(r)[z]; x.AddRmsNorm? && x.layer == l && x.row == row
  {
    hide InstsOf;
    hide Decode;
    hide Exec;
    hide LayerWaves;
    hide TailWaves;
    hide DownWave;
    TailMembers(r.s, l);
    TailWaveOfLayer(r.s, l, RmsNormWave(r.s, l));
    var x := RmsNormWave(r.s, l)[row];
    assert x in RmsNormWave(r.s, l);
    z := Find(r, l, RmsNormWave(r.s, l), x);
  }

  lemma MoeCombineHere(r: Run, l: nat, row: nat) returns (z: nat)
    requires RunOk(r) && l < r.s.layers && IsMoe(r.s, l) && !r.s.atomicCombine && row < r.s.batch
    ensures z < |Insts(r)| && Insts(r)[z] == MoeCombine(l, row)
  {
    hide InstsOf;
    hide Decode;
    hide Exec;
    hide LayerWaves;
    hide TailWaves;
    TailMembers(r.s, l);
    var w := seq(r.s.batch, (i: nat) => MoeCombine(l, i));
    TailWaveOfLayer(r.s, l, w);
    assert w[row] in w;
    z := Find(r, l, w, MoeCombine(l, row));
  }

  lemma {:induction false} DownExpertIn(s: Shape, l: nat, e: nat, count: nat, blocks: nat, b: nat)
    requires ShapeOk(s) && b < blocks
    ensures MoeDownTask(l, e, b, 0, UpWaitTarget(s, count, b)) in DownExpertTasks(s, l, e, count, blocks)
  {
    hide UpWaitTarget;
    if b < blocks - 1 {
      DownExpertIn(s, l, e, count, blocks - 1, b);
    } else {
      var last := seq(s.moe.downTasks, (t: nat) => MoeDownTask(l, e, b, t, UpWaitTarget(s, count, b)));
      assert last[0] == MoeDownTask(l, e, b, 0, UpWaitTarget(s, count, b));
    }
  }

  lemma {:induction false} DownQueueIn(s: Shape, env: Env, l: nat, experts: nat, e: nat, b: nat)
    requires ShapeOk(s) && EnvOk(s, env) && l < s.layers && e < experts <= s.moe.experts
    requires b < CeilDiv(env.routed[l][e], s.moe.downBm)
    ensures MoeDownTask(l, e, b, 0, UpWaitTarget(s, env.routed[l][e], b)) in DownQueue(s, env, l, experts)
  {
    hide UpWaitTarget;
    hide CeilDiv;
    if e < experts - 1 {
      DownQueueIn(s, env, l, experts - 1, e, b);
    } else {
      DownExpertIn(s, l, e, env.routed[l][e], CeilDiv(env.routed[l][e], s.moe.downBm), b);
    }
  }

  lemma DownTaskHere(r: Run, l: nat, e: nat, b: nat) returns (z: nat)
    requires RunOk(r) && l < r.s.layers && IsMoe(r.s, l) && e < r.s.moe.experts
    requires b < CeilDiv(r.env.routed[l][e], r.s.moe.downBm)
    ensures z < |Insts(r)|
    ensures Insts(r)[z] == MoeDownTask(l, e, b, 0, UpWaitTarget(r.s, r.env.routed[l][e], b))
  {
    hide InstsOf;
    hide Decode;
    hide Exec;
    hide LayerWaves;
    hide TailWaves;
    hide CeilDiv;
    hide UpWaitTarget;
    hide DownQueue;
    TailMembers(r.s, l);
    var w := seq(r.s.downClaimers, _ => MoeDownDrain(l));
    TailWaveOfLayer(r.s, l, w);
    DownQueueIn(r.s, r.env, l, r.s.moe.experts, e, b);
    z := Find(r, l, w, MoeDownTask(l, e, b, 0, UpWaitTarget(r.s, r.env.routed[l][e], b)));
  }

  // ---- attention ----

  ghost predicate Projected(r: Run, l: nat)
    requires RunOk(r)
  {
    forall z: nat :: z < |Insts(r)| && Insts(r)[z].OProj? && Insts(r)[z].layer == l ==> Done(r, z)
  }

  lemma HeadsSatisfied(r: Run, l: nat, g: nat)
    requires RunOk(r) && l < r.s.layers && Projected(r, l) && g < r.s.oprojSplits
    ensures Satisfied(St(r), [HeadWait(r.s, l, g)])
  {
    hide InstsOf;
    hide Decode;
    hide Exec;
    hide Done;
    hide Satisfied;
    hide Waits;
    var o := OprojHere(r, l, g);
    BuiltAt(r, o);
    OprojWaits(r.s, r.env, Insts(r)[o]);
    DoneWaited(r, o, HeadWait(r.s, l, g));
  }

  lemma LastArrives(s: Shape, env: Env, x: Inst) returns (g: nat)
    requires ShapeOk(s) && EnvOk(s, env) && Built(s, env, x)
    requires x.AttnCombine? || (x.AttnDecode? && x.numSplits <= 1)
    ensures g < s.oprojSplits && Arrive(s, x) == Some(HeadBar(s, x.layer, g))
  {
    hide QkvWait;
    hide KvPerOproj;
    hide KvPerOprojPos;
    g := x.kvh / KvPerOprojPos(s);
    HeadInBand(s, x.kvh);
  }

  lemma LastOfHeadDone(r: Run, l: nat, z: nat)
    requires RunOk(r) && l < r.s.layers && Projected(r, l) && z < |Insts(r)|
    requires var x := Insts(r)[z]; (x.AttnCombine? || (x.AttnDecode? && x.numSplits <= 1)) && x.layer == l
    ensures Done(r, z)
  {
    hide InstsOf;
    hide Decode;
    hide Exec;
    hide Done;
    hide Satisfied;
    hide Projected;
    hide Built;
    hide Arrive;
    BuiltAt(r, z);
    var g := LastArrives(r.s, r.env, Insts(r)[z]);
    HeadsSatisfied(r, l, g);
    HeadsDone(r, l, g, z);
  }

  lemma DecodeDone(r: Run, l: nat, z: nat)
    requires RunOk(r) && l < r.s.layers && Projected(r, l) && z < |Insts(r)|
    requires var x := Insts(r)[z]; x.AttnDecode? && x.layer == l
    ensures Done(r, z)
  {
    hide InstsOf;
    hide Decode;
    hide Exec;
    hide Done;
    hide Satisfied;
    hide Waits;
    hide QkvWait;
    hide OfLayer;
    hide OwnedBy;
    hide Projected;
    var x := Insts(r)[z];
    BuiltAt(r, z);
    if x.numSplits <= 1 {
      LastOfHeadDone(r, l, z);
    } else {
      var c := CombineHere(r, l, x.row, x.kvh);
      LastOfHeadDone(r, l, c);
      BuiltAt(r, c);
      CombineWaits(r.s, r.env, Insts(r)[c]);
      DoneWaited(r, c, CombineWait(r.s, r.env, l, x.row, x.kvh));
      CombineTotal(r.s, r.env, l, x.row, x.kvh);
      LayerProducersDone(r, CombineWait(r.s, r.env, l, x.row, x.kvh), l, z);
    }
  }

  lemma QkvSlot(s: Shape, env: Env, x: Inst) returns (kvh: nat)
    requires ShapeOk(s) && EnvOk(s, env) && Built(s, env, x) && x.QkvProj?
    ensures kvh < s.hkv && Arrive(s, x) == Some(Bar(BQkv, x.layer * s.hkv + kvh))
    ensures OwnedBy(s, Bar(BQkv, x.layer * s.hkv + kvh), x.layer)
    ensures OfLayer(s, env, x.layer, Bar(BQkv, x.layer * s.hkv + kvh)) == QkvWait(s)
  {
    hide QTiles;
    hide KvTiles;
    hide KvOfQTile;
    hide HeadOfTile;
    if x.gemm == 0 { QTileInRange(s, x.tileN); } else { KvTileInRange(s, x.tileN); }
    kvh := if x.gemm == 0 then KvOfQTile(s, x.tileN) else HeadOfTile(s, x.tileN);
  }

  lemma QkvDone(r: Run, l: nat, z: nat)
    requires RunOk(r) && l < r.s.layers && Projected(r, l) && z < |Insts(r)|
    requires Insts(r)[z].QkvProj? && Insts(r)[z].layer == l
    ensures Done(r, z)
  {
    hide InstsOf;
    hide Decode;
    hide Exec;
    hide Done;
    hide Satisfied;
    hide QkvWait;
    hide OfLayer;
    hide OwnedBy;
    hide Projected;
    hide Idle;
    BuiltAt(r, z);
    var kvh := QkvSlot(r.s, r.env, Insts(r)[z]);
    var row :| 0 <= row < r.s.batch && r.env.active[row];
    var d := DecodeHere(r, l, row, kvh);
    DecodeDone(r, l, d);
    BuiltAt(r, d);
    FirstSplitReads(r.env, Insts(r)[d]);
    var w := Wait(Bar(BQkv, l * r.s.hkv + kvh), QkvWait(r.s));
    assert Waits(r.s, r.env, Insts(r)[d]) == [w];
    DoneWaited(r, d, w);
    LayerProducersDone(r, w, l, z);
  }

  // ---- the feed-forward side ----

  lemma DownsDone(r: Run, l: nat, z: nat)
    requires RunOk(r) && l < r.s.layers && !IsMoe(r.s, l) && z < |Insts(r)|
    requires Satisfied(St(r), [Wait(Bar(BFfnDown, l), |DownWave(r.s, l)|)])
    requires Insts(r)[z].FfnDown? && Insts(r)[z].layer == l
    ensures Done(r, z)
  {
    hide InstsOf;
    hide Decode;
    hide Exec;
    hide Done;
    hide Satisfied;
    hide DownWave;
    BuiltAt(r, z);
    LayerProducersDone(r, Wait(Bar(BFfnDown, l), |DownWave(r.s, l)|), l, z);
  }

  /** The wait of FFN_DOWN split g, and that it asks for all the up/gate tiles of the split. */
  function SiluWait(s: Shape, l: nat, g: nat): Wait
    requires ShapeOk(s)
  {
    Wait(Bar(BSilu, l * s.downSplits + g), SiluPerSplitPos(s))
  }

  lemma SiluFacts(s: Shape, env: Env, x: Inst) returns (g: nat)
    requires ShapeOk(s) && EnvOk(s, env) && Built(s, env, x) && x.FfnUpgate?
    ensures g < s.downSplits && Arrive(s, x) == Some(SiluWait(s, x.layer, g).bar)
    ensures OwnedBy(s, SiluWait(s, x.layer, g).bar, x.layer)
    ensures OfLayer(s, env, x.layer, SiluWait(s, x.layer, g).bar) == SiluWait(s, x.layer, g).target
  {
    g := x.tileN / SiluPerSplitPos(s);
    SiluSlot(s, x.tileN);
  }

  lemma DownWaits(s: Shape, env: Env, x: Inst)
    requires ShapeOk(s) && EnvOk(s, env) && Built(s, env, x) && x.FfnDown?
    ensures Waits(s, env, x) == [SiluWait(s, x.layer, x.split)]
  {
  }

  lemma UpgatesDone(r: Run, l: nat, z: nat)
    requires RunOk(r) && l < r.s.layers && !IsMoe(r.s, l) && z < |Insts(r)|
    requires Satisfied(St(r), [Wait(Bar(BFfnDown, l), |DownWave(r.s, l)|)])
    requires Insts(r)[z].FfnUpgate? && Insts(r)[z].layer == l
    ensures Done(r, z)
  {
    hide InstsOf;
    hide Decode;
    hide Exec;
    hide Done;
    hide Satisfied;
    hide DownWave;
    hide Waits;
    hide Built;
    hide OfLayer;
    hide OwnedBy;
    hide SiluWait;
    BuiltAt(r, z);
    var g := SiluFacts(r.s, r.env, Insts(r)[z]);
    var d := DownHere(r, l, g);
    DownsDone(r, l, d);
    BuiltAt(r, d);
    DownWaits(r.s, r.env, Insts(r)[d]);
    DoneWaited(r, d, SiluWait(r.s, l, g));
    LayerProducersDone(r, SiluWait(r.s, l, g), l, z);
  }

  /** Routing is done: the top-k rows, the router tiles and the finalize itself. */
  lemma RoutingDone(r: Run, l: nat, z: nat)
    requires RunOk(r) && l < r.s.layers && IsMoe(r.s, l) && z < |Insts(r)|
    requires Satisfied(St(r), [Wait(Bar(BRoute, l), 1)])
    requires var x := Insts(r)[z]; (x.RouteFinalize? || x.RouterTopk? || x.RouterGemm?) && x.layer == l
    ensures Done(r, z)
  {
    hide InstsOf;
    hide Decode;
    hide Exec;
    hide Done;
    hide Satisfied;
    BuiltAt(r, z);
    if Insts(r)[z].RouteFinalize? {
      LayerProducersDone(r, Wait(Bar(BRoute, l), 1), l, z);
    } else {
      var f := SomeProducer(r, Wait(Bar(BRoute, l), 1));
      var w := Wait(Bar(BTopk, l), r.s.batch);
      DoneWaited(r, f, w);
      if Insts(r)[z].RouterTopk? {
        LayerProducersDone(r, w, l, z);
      } else {
        var t := SomeProducer(r, w);
        BuiltAt(r, t);
        var u := Wait(Bar(BRouter, l), r.s.routerTiles * r.s.routerSplits);
        DoneWaited(r, t, u);
        LayerProducersDone(r, u, l, z);
      }
    }
  }

  ghost predicate ExpertsDone(r: Run, l: nat)
    requires RunOk(r)
  {
    Satisfied(St(r), [Wait(Bar(BMoeDown, l), DownTaskCount(r.s, r.env, l))])
  }

  lemma DownTasksDone(r: Run, l: nat, z: nat)
    requires RunOk(r) && l < r.s.layers && IsMoe(r.s, l) && z < |Insts(r)| && ExpertsDone(r, l)
    requires Insts(r)[z].MoeDownTask? && Insts(r)[z].layer == l
    ensures Done(r, z)
  {
    hide InstsOf;
    hide Decode;
    hide Exec;
    hide Done;
    hide Satisfied;
    hide DownTaskCount;
    LayerProducersDone(r, Wait(Bar(BMoeDown, l), DownTaskCount(r.s, r.env, l)), l, z);
  }

  /** The wait of the down tasks of one block, once they have finished. */
  lemma BlockSatisfied(r: Run, l: nat, e: nat, b: nat)
    requires RunOk(r) && l < r.s.layers && IsMoe(r.s, l) && ExpertsDone(r, l)
    requires e < r.s.moe.experts && b < CeilDiv(r.env.routed[l][e], r.s.moe.downBm)
    ensures Satisfied(St(r), [Wait(MoeBlockBar(r.s, l, e, b), UpWaitTarget(r.s, r.env.routed[l][e], b))])
  {
    hide InstsOf;
    hide Decode;
    hide Exec;
    hide Done;
    hide Satisfied;
    hide UpWaitTarget;
    hide CeilDiv;
    hide MoeBlockBar;
    hide ExpertsDone;
    var d := DownTaskHere(r, l, e, b);
    DownTasksDone(r, l, d);
    DoneWaited(r, d, Wait(MoeBlockBar(r.s, l, e, b), UpWaitTarget(r.s, r.env.routed[l][e], b)));
  }

  lemma UpTasksDone(r: Run, l: nat, z: nat)
    requires RunOk(r) && l < r.s.layers && IsMoe(r.s, l) && z < |Insts(r)| && ExpertsDone(r, l)
    requires Insts(r)[z].MoeUpTask? && Insts(r)[z].layer == l
    ensures Done(r, z)
  {
    hide InstsOf;
    hide Decode;
    hide Exec;
    hide Done;
    hide Satisfied;
    hide UpWaitTarget;
    hide CeilDiv;
    hide MoeBlockBar;
    hide ExpertsDone;
    hide BlocksPerExpert;
    hide FlatHits;
    BuiltAt(r, z);
    var x := Insts(r)[z];
    BlockSatisfied(r, l, x.expert, x.block);
    TotalOnBlock(r.s, r.env, l, x.expert, x.block);
    ProducersDone(r, Wait(MoeBlockBar(r.s, l, x.expert, x.block),
      UpWaitTarget(r.s, r.env.routed[l][x.expert], x.block)), z);
  }

  lemma FirstBlockTarget(s: Shape, count: nat)
    requires ShapeOk(s) && count > 0
    ensures UpWaitTarget(s, count, 0) >= 1 && 0 < CeilDiv(count, s.moe.downBm) && 0 < BlocksPerExpert(s)
  {
    hide CeilDiv;
    var rows := if count < s.moe.downBm then count else s.moe.downBm;
    CeilDivBounds(rows, s.moe.upBm);
    CeilDivBounds(count, s.moe.downBm);
    CeilDivBounds(s.batch, s.moe.downBm);
    MulGrows(1, CeilDiv(rows, s.moe.upBm), s.moe.upTasks);
  }

  lemma BlockOwner(s: Shape, env: Env, x: Inst, l: nat, e: nat, b: nat)
    requires ShapeOk(s) && EnvOk(s, env) && Built(s, env, x) && e < s.moe.experts && b < BlocksPerExpert(s)
    requires Arrive(s, x) == Some(MoeBlockBar(s, l, e, b))
    ensures x.MoeUpTask? && x.layer == l
  {
    hide BlocksPerExpert;
    hide CeilDiv;
    BlockBand(s, l, e, b);
    BlockBand(s, x.layer, x.expert, x.block);
    if x.layer != l {
      BandUnique(MoeBlockBar(s, l, e, b), BMoeUp, l, x.layer, s.moe.experts * BlocksPerExpert(s));
    }
  }

  lemma GathersDone(r: Run, l: nat, z: nat)
    requires RunOk(r) && l < r.s.layers && IsMoe(r.s, l) && z < |Insts(r)| && ExpertsDone(r, l)
    requires RoutesSome(r.s, r.env)
    requires Insts(r)[z].MoeGather? && Insts(r)[z].layer == l
    ensures Done(r, z)
  {
    hide InstsOf;
    hide Decode;
    hide Exec;
    hide Done;
    hide Satisfied;
    hide UpWaitTarget;
    hide CeilDiv;
    hide MoeBlockBar;
    hide ExpertsDone;
    hide BlocksPerExpert;
    var e :| 0 <= e < r.s.moe.experts && r.env.routed[l][e] > 0;
    FirstBlockTarget(r.s, r.env.routed[l][e]);
    BlockSatisfied(r, l, e, 0);
    var u := SomeProducer(r, Wait(MoeBlockBar(r.s, l, e, 0), UpWaitTarget(r.s, r.env.routed[l][e], 0)));
    BuiltAt(r, u);
    BlockOwner(r.s, r.env, Insts(r)[u], l, e, 0);
    DoneWaited(r, u, Wait(Bar(BGather, l), r.s.batch));
    LayerProducersDone(r, Wait(Bar(BGather, l), r.s.batch), l, z);
  }

  // ---- the join ----

  /** What the join of an active row has waited for on the expert side. */
  lemma ExpertsJoined(r: Run, l: nat, y: nat)
    requires RunOk(r) && l < r.s.layers && IsMoe(r.s, l) && y < |Insts(r)| && MayStart(r, y)
    requires var x := Insts(r)[y]; x.AddRmsNorm? && x.layer == l && Active(r.env, x.row)
    ensures Satisfied(St(r), [Wait(Bar(BRoute, l), 1)]) && ExpertsDone(r, l)
    ensures !r.s.atomicCombine ==> Satisfied(St(r), [Wait(Bar(BFfnDown, l), r.s.batch)])
  {
    hide InstsOf;
    hide Decode;
    hide Exec;
    hide Done;
    hide Satisfied;
    hide MayStart;
    hide DownTaskCount;
    BuiltAt(r, y);
    var x := Insts(r)[y];
    NormWaits(r.s, r.env, x);
    if r.s.atomicCombine {
      Waited(r, y, Wait(Bar(BRoute, l), 1));
      Waited(r, y, Wait(Bar(BMoeDown, l), DownTaskCount(r.s, r.env, l)));
    } else {
      var w := Wait(Bar(BFfnDown, l), r.s.batch);
      Waited(r, y, w);
      var c := MoeCombineHere(r, l, x.row);
      LayerProducersDone(r, w, l, c);
      CombinedWaits(r.s, r.env, l, x.row);
      DoneWaited(r, c, Wait(Bar(BRoute, l), 1));
      DoneWaited(r, c, Wait(Bar(BMoeDown, l), DownTaskCount(r.s, r.env, l)));
    }
  }

  lemma CombinedWaits(s: Shape, env: Env, l: nat, row: nat)
    requires ShapeOk(s) && Active(env, row)
    ensures Waits(s, env, MoeCombine(l, row)) ==
      [Wait(Bar(BRoute, l), 1), Wait(Bar(BMoeDown, l), DownTaskCount(s, env, l))]
  {
    hide DownTaskCount;
  }

  lemma ExpertSideDone(r: Run, l: nat, y: nat, z: nat)
    requires RunOk(r) && l < r.s.layers && IsMoe(r.s, l) && RoutesSome(r.s, r.env)
    requires y < |Insts(r)| && MayStart(r, y)
    requires var x := Insts(r)[y]; x.AddRmsNorm? && x.layer == l && Active(r.env, x.row)
    requires z < |Insts(r)| && LayerOf(r.s, Insts(r)[z]) == l
    requires match Insts(r)[z]
      case RouterGemm(_, _, _, _, _, _) => true
      case RouterTopk(_, _, _) => true
      case RouteFinalize(_) => true
      case MoeGather(_, _) => true
      case MoeUpTask(_, _, _, _, _) => true
      case MoeDownTask(_, _, _, _, _) => true
      case MoeCombine(_, _) => true
      case _ => false
    ensures Done(r, z)
  {
    hide InstsOf;
    hide Decode;
    hide Exec;
    hide Done;
    hide Satisfied;
    hide MayStart;
    hide ExpertsDone;
    ExpertsJoined(r, l, y);
    match Insts(r)[z] {
      case RouterGemm(_, _, _, _, _, _) => RoutingDone(r, l, z);
      case RouterTopk(_, _, _) => RoutingDone(r, l, z);
      case RouteFinalize(_) => RoutingDone(r, l, z);
      case MoeGather(_, _) => GathersDone(r, l, z);
      case MoeUpTask(_, _, _, _, _) => UpTasksDone(r, l, z);
      case MoeDownTask(_, _, _, _, _) => DownTasksDone(r, l, z);
      case MoeCombine(_, _) =>
        BuiltAt(r, z);
        LayerProducersDone(r, Wait(Bar(BFfnDown, l), r.s.batch), l, z);
    }
  }

  /** Once the projection tiles a join waits for are done, so is all of attention. */
  lemma ProjectionJoined(r: Run, l: nat, y: nat)
    requires RunOk(r) && l < r.s.layers && y < |Insts(r)| && MayStart(r, y)
    requires Insts(r)[y].AddRmsNorm? && Insts(r)[y].layer == l
    ensures Projected(r, l)
  {
    hide InstsOf;
    hide Decode;
    hide Exec;
    hide Done;
    hide Satisfied;
    hide MayStart;
    hide OprojTiles;
    BuiltAt(r, y);
    NormWaits(r.s, r.env, Insts(r)[y]);
    var w := Wait(Bar(BOproj, l), OprojTiles(r.s));
    Waited(r, y, w);
    forall z: nat | z < |Insts(r)| && Insts(r)[z].OProj? && Insts(r)[z].layer == l ensures Done(r, z) {
      BuiltAt(r, z);
      LayerProducersDone(r, w, l, z);
    }
  }

  /** When the join of an active row may start, every other task of its layer has finished. */
  lemma LayerJoined(r: Run, l: nat, y: nat, z: nat)
    requires RunOk(r) && l < r.s.layers && RoutesSome(r.s, r.env)
    requires y < |Insts(r)| && MayStart(r, y)
    requires var x := Insts(r)[y]; x.AddRmsNorm? && x.layer == l && Active(r.env, x.row)
    requires z < |Insts(r)| && Real(Insts(r)[z]) && LayerOf(r.s, Insts(r)[z]) == l && !Insts(r)[z].AddRmsNorm?
    ensures Done(r, z)
  {
    hide InstsOf;
    hide Decode;
    hide Exec;
    hide Done;
    hide Satisfied;
    hide MayStart;
    hide Projected;
    hide Waits;
    hide DownWave;
    BuiltAt(r, z);
    BuiltAt(r, y);
    ProjectionJoined(r, l, y);
    match Insts(r)[z] {
      case QkvProj(_, _, _, _, _, _) => QkvDone(r, l, z);
      case AttnDecode(_, _, _, _, _, _, _) => DecodeDone(r, l, z);
      case AttnCombine(_, _, _, _, _, _, _) => LastOfHeadDone(r, l, z);
      case OProj(_, _, _, _, _, _) => ProjectedDone(r, l, z);
      case FfnUpgate(_, _, _, _, _) => DenseJoined(r, l, y, z);
      case FfnDown(_, _, _, _, _, _) => DenseJoined(r, l, y, z);
      case _ => ExpertSideDone(r, l, y, z);
    }
  }

  lemma ProjectedDone(r: Run, l: nat, z: nat)
    requires RunOk(r) && Projected(r, l) && z < |Insts(r)| && Insts(r)[z].OProj? && Insts(r)[z].layer == l
    ensures Done(r, z)
  {
    hide Done;
    hide InstsOf;
  }

  lemma DenseJoined(r: Run, l: nat, y: nat, z: nat)
    requires RunOk(r) && l < r.s.layers && !IsMoe(r.s, l) && y < |Insts(r)| && MayStart(r, y)
    requires Insts(r)[y].AddRmsNorm? && Insts(r)[y].layer == l
    requires z < |Insts(r)|
    requires var x := Insts(r)[z]; (x.FfnDown? || x.FfnUpgate?) && x.layer == l
    ensures Done(r, z)
  {
    hide InstsOf;
    hide Decode;
    hide Exec;
    hide Done;
    hide Satisfied;
    hide MayStart;
    hide DownWave;
    BuiltAt(r, y);
    NormWaits(r.s, r.env, Insts(r)[y]);
    Waited(r, y, Wait(Bar(BFfnDown, l), |DownWave(r.s, l)|));
    if Insts(r)[z].FfnDown? { DownsDone(r, l, z); } else { UpgatesDone(r, l, z); }
  }
}
