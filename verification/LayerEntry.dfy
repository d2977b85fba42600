/** No instruction of a layer starts before the layer's input counter has been reached. */
module LayerEntry {
  import opened Arithmetic
  import opened Wrappers
  import opened Machine
  import opened Progress
  import opened History
  import opened Schedule
  import opened Arrivals
  import opened WaveArrivals
  import opened LayerArrivals
  import opened DecodePlan
  import opened DecodeSupply
  import opened DecodeShape
  import opened DecodeInsts
  import opened DecodeProgress
  import opened HappensBefore
  import opened Producers

  /** The wait of the first instructions of layer l holds. */
  ghost predicate Entered(r: Run, l: nat)
    requires RunOk(r)
  {
    Satisfied(St(r), [Wait(Bar(BLayer, l), InputTarget(r.s, l))])
  }

  lemma InputWait(s: Shape, env: Env, x: Inst)
    requires ShapeOk(s) && EnvOk(s, env) && Built(s, env, x)
    requires x.QkvProj? || x.RouterGemm? || x.FfnUpgate?
    ensures Wait(Bar(BLayer, x.layer), InputTarget(s, x.layer)) in Waits(s, env, x)
  {
    hide KvOfQTile;
    hide HeadOfTile;
  }

  lemma ReadersEnter(r: Run, y: nat)
    requires RunOk(r) && y < |Insts(r)| && MayStart(r, y)
    requires var x := Insts(r)[y]; x.QkvProj? || x.RouterGemm? || x.FfnUpgate?
    ensures Entered(r, Insts(r)[y].layer)
  {
    hide InstsOf;
    hide Decode;
    hide Exec;
    hide MayStart;
    hide Satisfied;
    hide Built;
    hide Waits;
    BuiltAt(r, y);
    InputWait(r.s, r.env, Insts(r)[y]);
    Waited(r, y, Wait(Bar(BLayer, Insts(r)[y].layer), InputTarget(r.s, Insts(r)[y].layer)));
  }

  lemma DoneReadersEnter(r: Run, y: nat)
    requires RunOk(r) && Done(r, y) && y < |Insts(r)|
    requires var x := Insts(r)[y]; x.QkvProj? || x.RouterGemm? || x.FfnUpgate?
    ensures Entered(r, Insts(r)[y].layer)
  {
    hide InstsOf;
    hide Decode;
    hide Exec;
    hide MayStart;
    hide Satisfied;
    DoneMayStart(r, y);
    ReadersEnter(r, y);
  }

  // ---- the feed-forward side ----

  lemma TopkEnters(r: Run, y: nat)
    requires RunOk(r) && y < |Insts(r)| && MayStart(r, y) && Insts(r)[y].RouterTopk?
    ensures Entered(r, Insts(r)[y].layer)
  {
    hide InstsOf;
    hide Decode;
    hide Exec;
    hide MayStart;
    hide Satisfied;
    var l := Insts(r)[y].layer;
    BuiltAt(r, y);
    var w := Wait(Bar(BRouter, l), r.s.routerTiles * r.s.routerSplits);
    Waited(r, y, w);
    MulGrows(1, r.s.routerTiles, r.s.routerSplits);
    var z := SomeProducer(r, w);
    BuiltAt(r, z);
    DoneReadersEnter(r, z);
  }

  lemma RoutedEnters(r: Run, y: nat)
    requires RunOk(r) && y < |Insts(r)| && MayStart(r, y) && (Insts(r)[y].RouteFinalize? || Insts(r)[y].MoeGather?)
    ensures Entered(r, Insts(r)[y].layer)
  {
    hide InstsOf;
    hide Decode;
    hide Exec;
    hide MayStart;
    hide Satisfied;
    var l := Insts(r)[y].layer;
    BuiltAt(r, y);
    var w := Wait(Bar(BTopk, l), r.s.batch);
    Waited(r, y, w);
    var z := SomeProducer(r, w);
    BuiltAt(r, z);
    DoneMayStart(r, z);
    TopkEnters(r, z);
  }

  lemma RouteEnters(r: Run, l: nat)
    requires RunOk(r) && Satisfied(St(r), [Wait(Bar(BRoute, l), 1)])
    ensures Entered(r, l)
  {
    hide InstsOf;
    hide Decode;
    hide Exec;
    hide MayStart;
    hide Satisfied;
    hide Waits;
    hide Done;
    var z := SomeProducer(r, Wait(Bar(BRoute, l), 1));
    DoneMayStart(r, z);
    RoutedEnters(r, z);
  }

  /** A queue entry can only have been claimed through the gate of its drain. */
  lemma ClaimedThroughGate(r: Run, q: QueueId) returns (z: nat)
    requires RunOk(r) && Head(St(r), q) > 0
    ensures z < |Insts(r)| && DrainQueue(Insts(r)[z]) == Some(q)
    ensures Satisfied(St(r), Waits(r.s, r.env, Insts(r)[z]))
  {
    hide Decode;
    hide DecodePlanOf;
    hide InstsOf;
    hide Exec;
    hide Waits;
    Facts(r);
    var i: nat, k: nat :| OpenGate(Prog(r), St(r), q, i, k);
    z := NodeOfRank(Plan(r), i, k);
    RankInList(Plan(r), z);
    CompileShape(r.s, r.env, Insts(r)[z]);
  }

  /** The queue that a queue entry of the plan belongs to is told by its instruction. */
  lemma {:induction false} EntryQueue(s: Shape, env: Env, waves: Waves, owners: Owners, sms: nat, ablation: bool, y: nat)
    requires ShapeOk(s) && EnvOk(s, env) && OwnersFit(waves, owners, sms)
    requires forall k, x :: 0 <= k < |waves| && x in waves[k] ==> !x.MoeUpTask? && !x.MoeDownTask?
    requires y < |PlanOf(s, env, waves, owners, sms, ablation)|
    requires y < |InstsOf(s, env, waves, sms, ablation)|
    requires var x := InstsOf(s, env, waves, sms, ablation)[y]; x.MoeUpTask? || x.MoeDownTask?
    ensures var node := PlanOf(s, env, waves, owners, sms, ablation)[y];
      var x := InstsOf(s, env, waves, sms, ablation)[y];
      node.Queued? && x in QueueTasks(s, env, node.queue)
  {
    hide QueueTasks;
    hide Compile;
    var k := |waves| - 1;
    var before := InstsOf(s, env, waves[..k], sms, ablation);
    var syncs := SyncInsts(k, sms, ablation);
    PlanBehind(s, env, waves[..k], owners[..k], sms, ablation);
    assert forall i :: 0 <= i < |waves[k]| ==> waves[k][i] in waves[k];
    if y < |before| {
      EntryQueue(s, env, waves[..k], owners[..k], sms, ablation, y);
    } else {
      assert y >= |before + syncs|;
      var i := y - |before + syncs|;
      assert InstsOf(s, env, waves, sms, ablation)[y] == Expanded(s, env, waves[k])[i];
    }
  }

  /** An expert task is claimed only after its layer's routing has been finalized. */
  lemma ExpertTaskGate(r: Run, y: nat)
    requires RunOk(r) && y < |Insts(r)| && MayStart(r, y)
    requires Insts(r)[y].MoeUpTask? || Insts(r)[y].MoeDownTask?
    ensures Satisfied(St(r), [Wait(Bar(BRoute, Insts(r)[y].layer), 1)])
  {
    hide Decode;
    hide Exec;
    hide InstsOf;
    hide AllWaves;
    hide QueueTasks;
    hide PlanOf;
    hide Idle;
    hide DownTaskCount;
    hide MoeBlockBar;
    hide Realises;
    hide Inv;
    Facts(r);
    NoExpertTasks(r.s);
    EntryQueue(r.s, r.env, AllWaves(r.s), r.owners, r.sms, r.ablation, y);
    var q := Plan(r)[y].queue;
    ExpertQueue(r.s, r.env, q, Insts(r)[y]);
    var z := ClaimedThroughGate(r, q);
    assert Insts(r)[z] == MoeUpDrain(q.layer) || Insts(r)[z] == MoeDownDrain(q.layer);
  }

  lemma ExpertQueue(s: Shape, env: Env, q: QueueId, x: Inst)
    requires ShapeOk(s) && EnvOk(s, env) && x in QueueTasks(s, env, q) && (x.MoeUpTask? || x.MoeDownTask?)
    ensures q.layer == x.layer && q.kind != AttnQueue
  {
    match q.kind
    case AttnQueue => QueueElement(s, env, q.layer, s.batch, x);
    case MoeUpQueue => UpQueueLayer(s, env, q.layer, s.moe.experts);
    case MoeDownQueue => DownQueueAreDowns(s, env, q.layer, s.moe.experts);
  }
}
