/** GEMMs whose reduction is split over K. A split that is left without a K tile finishes
    without an arrival (InstructionTileScheduler of decode/megakernel.cuh), so the schedule can
    run to the end exactly when no split is left without. */
module KSplits {
  import opened Arithmetic
  import opened Wrappers
  import opened Machine
  import opened Progress
  import opened History
  import opened Schedule
  import opened Arrivals
  import opened WaveArrivals
  import opened LayerArrivals
  import opened DecodePlan
  import opened DecodeSupply
  import opened DecodeShape
  import opened DecodeInsts
  import opened DecodeProgress
  import opened HappensBefore
  import opened Producers
  import opened AttnEntry
  import opened LayerComplete
  import opened LayerOrder

  /** K tiles of the split GEMMs. The expert GEMMs are not split. */
  datatype KTiles = KTiles(router: nat, oproj: nat, down: nat)

  /** Split `split` of `splits` begins at or behind its end. */
  predicate NoTile(total: nat, splits: nat, split: nat) {
    splits > 0 &&
    var size := CeilDiv(total, splits);
    var begin := split * size;
    (if begin + size < total then begin + size else total) <= begin
  }

  predicate Silent(s: Shape, kt: KTiles, x: Inst) {
    match x
    case RouterGemm(_, _, split, _, _, _) => NoTile(kt.router, s.routerSplits, split)
    case OProj(_, _, split, _, _, _) => NoTile(kt.oproj, s.oprojSplits, split)
    case FfnDown(_, _, split, _, _, _) => NoTile(kt.down, s.downSplits, split)
    case _ => false
  }

  predicate AllReduce(total: nat, splits: nat) { forall g: nat :: g < splits ==> !NoTile(total, splits, g) }

  /** Every split that the schedule uses has a K tile. */
  predicate KFits(s: Shape, kt: KTiles) {
    && AllReduce(kt.oproj, s.oprojSplits)
    && (s.denseLayers < s.layers ==> AllReduce(kt.router, s.routerSplits))
    && (s.denseLayers > 0 ==> AllReduce(kt.down, s.downSplits))
  }

  // ---- the program with silent instructions ----

  /** `early`: whether a silent instruction skips the wait for its input, as the kernel does
      when it prefetches weights. */
  function Muted(node: Node, early: bool): Node {
    if node.Placed? && node.op.Task? then Placed(node.sm, Task(if early then [] else node.op.waits, None)) else node
  }

  function MutedPlan(s: Shape, kt: KTiles, early: bool, plan: seq<Node>, insts: seq<Inst>): (r: seq<Node>)
    requires |plan| == |insts|
    ensures |r| == |plan|
  {
    seq(|plan|, y requires 0 <= y < |plan| => if Silent(s, kt, insts[y]) then Muted(plan[y], early) else plan[y])
  }

  function Relisted(p: Program, plan: seq<Node>): Program {
    Program(seq(|p.lists|, (j: nat) => ListOf(plan, j)), p.queues)
  }

  lemma MutedIsWellFormed(p: Program, s: Shape, kt: KTiles, early: bool, plan: seq<Node>, insts: seq<Inst>)
    requires Realises(p, plan) && |plan| == |insts|
    ensures WellFormed(Relisted(p, MutedPlan(s, kt, early, plan, insts)))
  {
    hide Silent;
    var plan' := MutedPlan(s, kt, early, plan, insts);
    var p' := Relisted(p, plan');
    forall j, k | 0 <= j < |p'.lists| && 0 <= k < |p'.lists[j]| && p'.lists[j][k].Drain?
      ensures p'.lists[j][k].queue in p'.queues
    {
      var y := NodeOfRank(plan', j, k);
      RankInList(plan', y);
      RankInList(plan, y);
    }
  }

  lemma MutedRealised(p: Program, s: Shape, kt: KTiles, early: bool, plan: seq<Node>, insts: seq<Inst>)
    requires Realises(p, plan) && |plan| == |insts|
    ensures var plan' := MutedPlan(s, kt, early, plan, insts); Realises(Relisted(p, plan'), plan')
  {
    hide Silent;
    var plan' := MutedPlan(s, kt, early, plan, insts);
    var p' := Relisted(p, plan');
    assert forall y :: 0 <= y < |plan| ==>
      if plan[y].Queued? then plan'[y] == plan[y] else plan'[y].Placed? && plan'[y].sm == plan[y].sm;
    MutedIsWellFormed(p, s, kt, early, plan, insts);
    forall q, e | q in p'.queues && 0 <= e < |p'.queues[q]|
      ensures exists y :: 0 <= y < |plan'| && plan'[y] == Queued(q, e, p'.queues[q][e])
    {
      var y :| 0 <= y < |plan| && plan[y] == Queued(q, e, p.queues[q][e]);
      assert plan'[y] == plan[y];
    }
  }

  lemma {:induction false} MutedTally(s: Shape, kt: KTiles, early: bool, plan: seq<Node>, insts: seq<Inst>, bar: Bar)
    requires |plan| == |insts|
    ensures Tally(MutedPlan(s, kt, early, plan, insts), bar) <= Tally(plan, bar)
    ensures (exists x :: 0 <= x < |plan| && Silent(s, kt, insts[x]) && plan[x].Placed? && Arrival(plan[x].op) == Some(bar)) ==>
      Tally(MutedPlan(s, kt, early, plan, insts), bar) < Tally(plan, bar)
  {
    hide Silent;
    if plan != [] {
      var n := |plan| - 1;
      MutedTally(s, kt, early, plan[..n], insts[..n], bar);
      var plan' := MutedPlan(s, kt, early, plan, insts);
      assert plan'[..n] == MutedPlan(s, kt, early, plan[..n], insts[..n]);
    }
  }

  /** A task that waits for more arrivals than the plan makes keeps every run from finishing. */
  lemma Starves(p: Program, plan: seq<Node>, choices: seq<nat>, y: nat, w: Wait)
    requires Realises(p, plan) && Exec(p, choices).Some? && y < |plan| && plan[y].Placed? && plan[y].op.Task?
    requires w in plan[y].op.waits && Tally(plan, w.bar) < w.target
    ensures !Finished(p, Exec(p, choices).value)
  {
    hide Exec;
    var m := Exec(p, choices).value;
    RunInv(p, choices);
    RunHistory(p, choices);
    RankInList(plan, y);
    PlanEventsValid(p, plan, y);
    CountBound(p, plan, m, w.bar);
    if EventAt(plan, y) in m.fired { assert false; }
  }

  // ---- the decode program ----

  /** The program before its first step. */
  function Fresh(s: Shape, env: Env, owners: Owners, sms: nat, ablation: bool): Run {
    Run(s, env, owners, sms, ablation, [])
  }

  ghost function SplitPlan(r: Run, kt: KTiles, early: bool): seq<Node>
    requires RunOk(r)
  {
    Facts(r);
    MutedPlan(r.s, kt, early, Plan(r), Insts(r))
  }

  /** The decode program with the K tiles of its GEMMs. */
  ghost function SplitProgram(r: Run, kt: KTiles, early: bool): (p: Program)
    requires RunOk(r)
    ensures WellFormed(p)
  {
    Facts(r);
    MutedRealised(Prog(r), r.s, kt, early, Plan(r), Insts(r));
    Relisted(Prog(r), SplitPlan(r, kt, early))
  }

  lemma SplitRealised(r: Run, kt: KTiles, early: bool)
    requires RunOk(r)
    ensures Realises(SplitProgram(r, kt, early), SplitPlan(r, kt, early))
  {
    hide Decode;
    hide DecodePlanOf;
    hide InstsOf;
    hide Exec;
    hide Realises;
    hide MutedPlan;
    hide Relisted;
    Facts(r);
    MutedRealised(Prog(r), r.s, kt, early, Plan(r), Insts(r));
  }

  /** A silent producer of a counter of which all arrivals are waited for keeps every run from
      finishing. */
  lemma Hangs(r: Run, kt: KTiles, early: bool, choices: seq<nat>, x: nat, y: nat, w: Wait)
    requires RunOk(r) && x < |Insts(r)| && y < |Insts(r)| && x < |Plan(r)| && y < |Plan(r)|
    requires Plan(r)[x].Placed? && Silent(r.s, kt, Insts(r)[x]) && Arrive(r.s, Insts(r)[x]) == Some(w.bar)
    requires Plan(r)[y].Placed? && !Silent(r.s, kt, Insts(r)[y]) && Real(Insts(r)[y]) && w in Waits(r.s, r.env, Insts(r)[y])
    requires FlatHits(r.s, r.env, AllWaves(r.s), w.bar) <= w.target
    requires Exec(SplitProgram(r, kt, early), choices).Some?
    ensures !Finished(SplitProgram(r, kt, early), Exec(SplitProgram(r, kt, early), choices).value)
  {
    hide Decode;
    hide InstsOf;
    hide Exec;
    hide Realises;
    hide Waits;
    hide Arrive;
    hide Silent;
    hide PlanOf;
    hide AllWaves;
    Facts(r);
    SplitRealised(r, kt, early);
    ArrivalOfCompile(r.s, r.env, Insts(r)[x]);
    CompileShape(r.s, r.env, Insts(r)[y]);
    PlanTally(r.s, r.env, AllWaves(r.s), r.owners, r.sms, r.ablation, w.bar);
    MutedTally(r.s, kt, early, Plan(r), Insts(r), w.bar);
    assert SplitPlan(r, kt, early)[y] == Plan(r)[y];
    Starves(SplitProgram(r, kt, early), SplitPlan(r, kt, early), choices, y, w);
  }

  /** Only attention and expert tasks come off queues. */
  lemma ListedIsPlaced(r: Run, z: nat)
    requires RunOk(r) && z < |Insts(r)| && z < |Plan(r)|
    requires var x := Insts(r)[z]; x.RouterGemm? || x.RouterTopk? || x.OProj? || x.FfnDown? || x.AddRmsNorm?
    ensures Plan(r)[z].Placed?
  {
    hide InstsOf;
    hide PlanOf;
    hide Decode;
    hide Exec;
    hide AllWaves;
    if Plan(r)[z].Queued? {
      QueuedFromQueue(r.s, r.env, AllWaves(r.s), r.owners, r.sms, r.ablation, z);
      QueueTasksAreTasks(r.s, r.env, Plan(r)[z].queue, Insts(r)[z]);
      assert false;
    }
  }

  lemma RouterHere(r: Run, l: nat, g: nat) returns (z: nat)
    requires RunOk(r) && l < r.s.layers && IsMoe(r.s, l) && g < r.s.routerSplits
    ensures z < |Insts(r)| && Insts(r)[z] == RouterTile(r.s, l)(g, 0)
  {
    hide InstsOf;
    hide Decode;
    hide Exec;
    hide RouterWave;
    hide LayerWaves;
    HeadWaveOfLayer(r.s, l, RouterWave(r.s, l));
    RouterIn(r.s, l, g);
    z := Find(r, l, RouterWave(r.s, l), RouterTile(r.s, l)(g, 0));
  }

  lemma RouterIn(s: Shape, l: nat, g: nat)
    requires ShapeOk(s) && g < s.routerSplits
    ensures RouterTile(s, l)(g, 0) in RouterWave(s, l)
  {
    GridHas(s.routerSplits, s.routerTiles, RouterTile(s, l), g, 0);
  }

  lemma TopkHere(r: Run, l: nat) returns (z: nat)
    requires RunOk(r) && l < r.s.layers && IsMoe(r.s, l)
    ensures z < |Insts(r)| && Insts(r)[z] == RouterTopk(l, 0, r.s.routerTiles * r.s.routerSplits)
  {
    hide InstsOf;
    hide Decode;
    hide Exec;
    hide LayerWaves;
    HeadWaveOfLayer(r.s, l, TopkWave(r.s, l));
    assert TopkWave(r.s, l)[0] == RouterTopk(l, 0, r.s.routerTiles * r.s.routerSplits);
    z := Find(r, l, TopkWave(r.s, l), TopkWave(r.s, l)[0]);
  }

  lemma HeadWaveOfLayer(s: Shape, l: nat, w: seq<Inst>)
    requires ShapeOk(s) && l < s.layers && w in HeadWaves(s, l)
    ensures w in LayerWaves(s, l)
  {
    hide AttnWaves;
    hide HeadWaves;
    hide TailWaves;
    hide LayerWaves;
    LayerSplit(s, l);
  }

  // ---- each kind of silent split hangs ----

  lemma RouterHangs(r: Run, kt: KTiles, early: bool, choices: seq<nat>, l: nat, g: nat)
    requires RunOk(r) && l < r.s.layers && IsMoe(r.s, l) && g < r.s.routerSplits && NoTile(kt.router, r.s.routerSplits, g)
    requires Exec(SplitProgram(r, kt, early), choices).Some?
    ensures !Finished(SplitProgram(r, kt, early), Exec(SplitProgram(r, kt, early), choices).value)
  {
    hide InstsOf;
    hide PlanOf;
    hide Decode;
    hide Exec;
    hide AllWaves;
    hide SplitProgram;
    hide NoTile;
    Facts(r);
    var x := RouterHere(r, l, g);
    var y := TopkHere(r, l);
    var w := Wait(Bar(BRouter, l), r.s.routerTiles * r.s.routerSplits);
    ListedIsPlaced(r, x);
    ListedIsPlaced(r, y);
    TotalIsLayers(r.s, r.env, w.bar, l);
    Hangs(r, kt, early, choices, x, y, w);
  }

  lemma OprojHangs(r: Run, kt: KTiles, early: bool, choices: seq<nat>, g: nat)
    requires RunOk(r) && g < r.s.oprojSplits && NoTile(kt.oproj, r.s.oprojSplits, g)
    requires Exec(SplitProgram(r, kt, early), choices).Some?
    ensures !Finished(SplitProgram(r, kt, early), Exec(SplitProgram(r, kt, early), choices).value)
  {
    hide InstsOf;
    hide PlanOf;
    hide Decode;
    hide Exec;
    hide AllWaves;
    hide SplitProgram;
    hide NoTile;
    hide Waits;
    hide OprojTiles;
    Facts(r);
    var x := OprojHere(r, 0, g);
    var y := NormHere(r, 0, 0);
    var w := Wait(Bar(BOproj, 0), OprojTiles(r.s));
    BuiltAt(r, x);
    BuiltAt(r, y);
    ListedIsPlaced(r, x);
    ListedIsPlaced(r, y);
    NormWaits(r.s, r.env, Insts(r)[y]);
    TotalIsLayers(r.s, r.env, w.bar, 0);
    Hangs(r, kt, early, choices, x, y, w);
  }

  lemma DownHangs(r: Run, kt: KTiles, early: bool, choices: seq<nat>, g: nat)
    requires RunOk(r) && r.s.denseLayers > 0 && g < r.s.downSplits && NoTile(kt.down, r.s.downSplits, g)
    requires Exec(SplitProgram(r, kt, early), choices).Some?
    ensures !Finished(SplitProgram(r, kt, early), Exec(SplitProgram(r, kt, early), choices).value)
  {
    hide InstsOf;
    hide PlanOf;
    hide Decode;
    hide Exec;
    hide AllWaves;
    hide SplitProgram;
    hide NoTile;
    hide Waits;
    hide DownWave;
    Facts(r);
    var x := DownHere(r, 0, g);
    var y := NormHere(r, 0, 0);
    var w := Wait(Bar(BFfnDown, 0), |DownWave(r.s, 0)|);
    BuiltAt(r, x);
    BuiltAt(r, y);
    ListedIsPlaced(r, x);
    ListedIsPlaced(r, y);
    NormWaits(r.s, r.env, Insts(r)[y]);
    TotalIsLayers(r.s, r.env, w.bar, 0);
    Hangs(r, kt, early, choices, x, y, w);
  }

  lemma OneLayerStillHangs(r: Run, kt: KTiles, early: bool, choices: seq<nat>)
    requires RunOk(r) && r.s.layers == 1 && Exec(SplitProgram(r, kt, early), choices).Some?
    ensures !Finished(SplitProgram(r, kt, early), Exec(SplitProgram(r, kt, early), choices).value)
  {
    hide InstsOf;
    hide PlanOf;
    hide Decode;
    hide Exec;
    hide AllWaves;
    hide SplitProgram;
    hide Silent;
    Facts(r);
    var y := LmHeadNode(r.s, r.env, r.owners, r.sms, r.ablation);
    var w := Wait(Bar(BLayer, 0), 2 * r.s.batch);
    CompileShape(r.s, r.env, Insts(r)[y]);
    BuiltAt(r, y);
    HeadIsLoud(r, kt, y);
    OneLayerTally(r.s, r.env, r.owners, r.sms, r.ablation);
    MutedTally(r.s, kt, early, Plan(r), Insts(r), w.bar);
    SplitRealised(r, kt, early);
    assert SplitPlan(r, kt, early)[y] == Plan(r)[y];
    Starves(SplitProgram(r, kt, early), SplitPlan(r, kt, early), choices, y, w);
  }

  /** Only the LM head makes no arrival, so a task without one is not a silent GEMM. */
  lemma HeadIsLoud(r: Run, kt: KTiles, y: nat)
    requires RunOk(r) && y < |Insts(r)| && y < |Plan(r)| && Plan(r)[y].op.Task? && Plan(r)[y].op.arrive.None?
    requires Behind(r.s, r.env, Plan(r), Insts(r))
    ensures !Silent(r.s, kt, Insts(r)[y])
  {
    hide InstsOf;
    hide PlanOf;
    hide Decode;
    hide Exec;
    hide NoTile;
    hide Waits;
    ArrivalOfCompile(r.s, r.env, Insts(r)[y]);
  }

  // ---- the exact condition ----

  lemma NoneSilent(r: Run, kt: KTiles, y: nat)
    requires RunOk(r) && KFits(r.s, kt) && y < |Insts(r)|
    ensures !Silent(r.s, kt, Insts(r)[y])
  {
    hide InstsOf;
    hide Decode;
    hide Exec;
    hide NoTile;
    BuiltAt(r, y);
  }

  lemma SameProgram(r: Run, kt: KTiles, early: bool)
    requires RunOk(r) && KFits(r.s, kt)
    ensures SplitProgram(r, kt, early) == Prog(r)
  {
    hide InstsOf;
    hide PlanOf;
    hide Decode;
    hide Exec;
    hide KFits;
    hide Silent;
    Facts(r);
    forall y: nat | y < |Insts(r)| ensures !Silent(r.s, kt, Insts(r)[y]) { NoneSilent(r, kt, y); }
    assert SplitPlan(r, kt, early) == Plan(r);
    forall j: nat | j < |Prog(r).lists| ensures ListOf(Plan(r), j) == Prog(r).lists[j] {}
    assert Relisted(Prog(r), Plan(r)).lists == Prog(r).lists;
  }

  ghost predicate CanFinish(p: Program)
    requires WellFormed(p)
  {
    exists choices: seq<nat> :: Exec(p, choices).Some? && Finished(p, Exec(p, choices).value)
  }

  /** Over every placement, with or without barriers: the schedule can run to the end exactly
      when the model has two layers or more and every K split it uses has a K tile. */
  lemma FinishesIffSplitsFit(s: Shape, env: Env, owners: Owners, sms: nat, ablation: bool, kt: KTiles, early: bool)
    requires ShapeOk(s) && EnvOk(s, env) && OwnersFit(AllWaves(s), owners, sms)
    ensures RunOk(Fresh(s, env, owners, sms, ablation))
    ensures CanFinish(SplitProgram(Fresh(s, env, owners, sms, ablation), kt, early)) <==> s.layers >= 2 && KFits(s, kt)
  {
    hide Decode;
    hide AllWaves;
    hide SplitProgram;
    hide NoTile;
    var r := Fresh(s, env, owners, sms, ablation);
    assert RunOk(r);
    if s.layers >= 2 && KFits(s, kt) {
      SameProgram(r, kt, early);
      FinishesIffTwoLayers(s, env, owners, sms, ablation);
    } else {
      forall choices: seq<nat> | Exec(SplitProgram(r, kt, early), choices).Some?
        ensures !Finished(SplitProgram(r, kt, early), Exec(SplitProgram(r, kt, early), choices).value)
      {
        SomethingHangs(r, kt, early, choices);
      }
    }
  }

  lemma SomethingHangs(r: Run, kt: KTiles, early: bool, choices: seq<nat>)
    requires RunOk(r) && (r.s.layers < 2 || !KFits(r.s, kt)) && Exec(SplitProgram(r, kt, early), choices).Some?
    ensures !Finished(SplitProgram(r, kt, early), Exec(SplitProgram(r, kt, early), choices).value)
  {
    hide Decode;
    hide AllWaves;
    hide SplitProgram;
    hide NoTile;
    hide Exec;
    if r.s.layers < 2 {
      OneLayerStillHangs(r, kt, early, choices);
    } else if g: nat :| g < r.s.oprojSplits && NoTile(kt.oproj, r.s.oprojSplits, g) {
      OprojHangs(r, kt, early, choices, g);
    } else if r.s.denseLayers < r.s.layers && !AllReduce(kt.router, r.s.routerSplits) {
      var g: nat :| g < r.s.routerSplits && NoTile(kt.router, r.s.routerSplits, g);
      RouterHangs(r, kt, early, choices, r.s.denseLayers, g);
    } else {
      var g: nat :| g < r.s.downSplits && NoTile(kt.down, r.s.downSplits, g);
      DownHangs(r, kt, early, choices, g);
    }
  }

  /** A router of 16 K tiles in 12 splits, which the host accepts, leaves the last four without. */
  lemma TwelveOfSixteen()
    ensures NoTile(16, 12, 8) && !AllReduce(16, 12) && AllReduce(16, 4)
  {
  }
}
