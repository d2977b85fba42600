/** Main result: layers do not overlap. Whatever the interleaving, once an instruction of
    a layer may start, every task of every earlier layer has finished. */
module LayerOrder {
  import opened Wrappers
  import opened Machine
  import opened Progress
  import opened History
  import opened Schedule
  import opened Arrivals
  import opened WaveArrivals
  import opened LayerArrivals
  import opened DecodePlan
  import opened DecodeSupply
  import opened DecodeInsts
  import opened DecodeProgress
  import opened HappensBefore
  import opened Producers
  import opened LayerEntry
  import opened AttnEntry
  import opened LayerComplete

  ghost predicate IsNorm(r: Run, z: nat, l: nat)
    requires RunOk(r)
  {
    z < |Insts(r)| && Insts(r)[z].AddRmsNorm? && Insts(r)[z].layer == l
  }

  /** Every row of layer l has been joined. */
  ghost predicate AllJoined(r: Run, l: nat)
    requires RunOk(r)
  {
    forall z: nat :: IsNorm(r, z, l) ==> Done(r, z)
  }

  // ---- the counters between layers ----

  /** The join counter of every layer but the last takes one batch of arrivals. */
  lemma PlainInput(r: Run, l: nat)
    requires RunOk(r) && 0 < l < r.s.layers - 1 && Entered(r, l)
    ensures AllJoined(r, l - 1)
  {
    hide InstsOf;
    hide Decode;
    hide Exec;
    hide Done;
    hide Satisfied;
    hide FlatHits;
    hide AllWaves;
    TotalHits(r.s, r.env, Bar(BLayer, l));
    JoinsBelow(r.s, r.env, r.s.layers, l);
    forall z: nat | IsNorm(r, z, l - 1) ensures Done(r, z) {
      BuiltAt(r, z);
      ProducersDone(r, Wait(Bar(BLayer, l), r.s.batch), z);
    }
  }

  /** The LM head waits for both batches on the last counter. */
  lemma LastCounterFull(r: Run)
    requires RunOk(r)
    requires Satisfied(St(r), [Wait(Bar(BLayer, r.s.layers - 1), 2 * r.s.batch)])
    ensures AllJoined(r, r.s.layers - 1)
  {
    hide InstsOf;
    hide Decode;
    hide Exec;
    hide Done;
    hide Satisfied;
    hide FlatHits;
    hide AllWaves;
    var l := r.s.layers - 1;
    TotalHits(r.s, r.env, Bar(BLayer, l));
    JoinsBelow(r.s, r.env, r.s.layers, l);
    forall z: nat | IsNorm(r, z, l) ensures Done(r, z) {
      BuiltAt(r, z);
      ProducersDone(r, Wait(Bar(BLayer, l), 2 * r.s.batch), z);
    }
  }

  // ---- the shared counter of the last layer ----

  lemma {:induction false} InstsPrefix(s: Shape, env: Env, a: Waves, b: Waves, sms: nat, ablation: bool)
    requires ShapeOk(s) && EnvOk(s, env)
    ensures InstsOf(s, env, a, sms, ablation) <= InstsOf(s, env, a + b, sms, ablation)
  {
    hide Expanded;
    hide SyncInsts;
    if b == [] {
      assert a + b == a;
    } else {
      var n := |b| - 1;
      assert (a + b)[..|a + b| - 1] == a + b[..n];
      InstsPrefix(s, env, a, b[..n], sms, ablation);
    }
  }

  lemma ConcatEmpty(a: Waves)
    ensures a + [] == a
  {
  }

  /** What stands after the waves `a` comes from the waves `b`. */
  lemma {:induction false} LateSource(s: Shape, env: Env, a: Waves, b: Waves, sms: nat, ablation: bool, z: nat)
    requires ShapeOk(s) && EnvOk(s, env)
    requires |InstsOf(s, env, a, sms, ablation)| <= z < |InstsOf(s, env, a + b, sms, ablation)|
    ensures var x := InstsOf(s, env, a + b, sms, ablation)[z];
      x == GridSync || exists w :: w in b && x in Expanded(s, env, w)
  {
    hide Expanded;
    if b == [] {
      ConcatEmpty(a);
      assert false;
    } else {
      var n := |b| - 1;
      assert (a + b)[..|a + b| - 1] == a + b[..n];
      var before := InstsOf(s, env, a + b[..n], sms, ablation);
      var syncs := SyncInsts(|a + b| - 1, sms, ablation);
      assert InstsOf(s, env, a + b, sms, ablation) == before + syncs + Expanded(s, env, b[n]);
      var x := InstsOf(s, env, a + b, sms, ablation)[z];
      if z < |before| {
        assert x == before[z];
        LateSource(s, env, a, b[..n], sms, ablation, z);
        if x != GridSync {
          var w :| w in b[..n] && x in Expanded(s, env, w);
          assert w in b;
        }
      } else if z < |before + syncs| {
        assert x == syncs[z - |before|];
      } else {
        assert x == Expanded(s, env, b[n])[z - |before + syncs|];
        assert b[n] in b && x in Expanded(s, env, b[n]);
      }
    }
  }

  lemma {:induction false} PlanPrefix(s: Shape, env: Env, waves: Waves, owners: Owners, k: nat, sms: nat, ablation: bool)
    requires ShapeOk(s) && EnvOk(s, env) && OwnersFit(waves, owners, sms) && k <= |waves|
    ensures PlanOf(s, env, waves[..k], owners[..k], sms, ablation) <= PlanOf(s, env, waves, owners, sms, ablation)
    decreases |waves|
  {
    hide WaveNodes;
    hide QueueNodes;
    hide SyncsBeforeWave;
    if k == |waves| {
      assert waves[..k] == waves && owners[..k] == owners;
    } else {
      var n := |waves| - 1;
      PlanPrefix(s, env, waves[..n], owners[..n], k, sms, ablation);
      assert waves[..n][..k] == waves[..k] && owners[..n][..k] == owners[..k];
    }
  }

  function LastWaves(s: Shape): Waves
    requires ShapeOk(s)
  {
    LayerWaves(s, s.layers - 1) + [LmHeadWave(s)]
  }

  lemma WavesCut(s: Shape)
    requires ShapeOk(s)
    ensures AllWaves(s) == LayersUpTo(s, s.layers - 1) + LastWaves(s)
  {
    hide LayerWaves;
    hide LmHeadWave;
  }

  /** Where the last layer begins in the plan. */
  ghost function Cut(r: Run): (c: nat)
    requires RunOk(r)
  {
    |InstsOf(r.s, r.env, LayersUpTo(r.s, r.s.layers - 1), r.sms, r.ablation)|
  }

  lemma BeforeCut(r: Run, z: nat)
    requires RunOk(r) && z < |Insts(r)| && z < Cut(r)
    ensures Insts(r)[z] != GridSync ==> LayerOf(r.s, Insts(r)[z]) < r.s.layers - 1
  {
    hide InstsOf;
    hide LayersUpTo;
    hide LayerWaves;
    hide AllWaves;
    hide Built;
    hide Decode;
    hide Exec;
    var a := LayersUpTo(r.s, r.s.layers - 1);
    WavesCut(r.s);
    InstsPrefix(r.s, r.env, a, LastWaves(r.s), r.sms, r.ablation);
    var early := InstsOf(r.s, r.env, a, r.sms, r.ablation);
    var x := early[z];
    assert Insts(r)[z] == x;
    if x != GridSync {
      assert x in early;
      var w := InstSource(r.s, r.env, a, r.sms, r.ablation, x);
      BuiltLayers(r.s, r.env, r.s.layers - 1);
      var l: nat :| l < r.s.layers - 1 && BuiltWave(r.s, r.env, l, w);
    }
  }

  lemma AfterCut(r: Run, z: nat)
    requires RunOk(r) && Cut(r) <= z < |Insts(r)|
    ensures Insts(r)[z] != GridSync ==> LayerOf(r.s, Insts(r)[z]) >= r.s.layers - 1
  {
    hide InstsOf;
    hide LayersUpTo;
    hide LayerWaves;
    hide AllWaves;
    hide Built;
    hide Decode;
    hide Exec;
    WavesCut(r.s);
    LateSource(r.s, r.env, LayersUpTo(r.s, r.s.layers - 1), LastWaves(r.s), r.sms, r.ablation, z);
    var x := Insts(r)[z];
    if x != GridSync {
      var w :| w in LastWaves(r.s) && x in Expanded(r.s, r.env, w);
      LastWavesLayer(r.s, r.env, w, x);
    }
  }

  lemma LastWavesLayer(s: Shape, env: Env, w: seq<Inst>, x: Inst)
    requires ShapeOk(s) && EnvOk(s, env) && w in LastWaves(s) && x in Expanded(s, env, w)
    ensures LayerOf(s, x) >= s.layers - 1
  {
    hide LayerWaves;
    hide Built;
    hide Expanded;
    if w in LayerWaves(s, s.layers - 1) {
      BuiltLayer(s, env, s.layers - 1);
    } else {
      HeadWaveLayer(s, env, x);
    }
  }

  lemma HeadWaveLayer(s: Shape, env: Env, x: Inst)
    requires ShapeOk(s) && EnvOk(s, env) && x in Expanded(s, env, LmHeadWave(s))
    ensures LayerOf(s, x) == s.layers
  {
    assert LmHeadWave(s)[0].LmHead?;
  }

  /** How many joins stand before the last layer on its counter. */
  lemma CutTally(r: Run)
    requires RunOk(r) && r.s.layers >= 2
    ensures Cut(r) <= |Plan(r)|
    ensures Tally(Plan(r)[..Cut(r)], Bar(BLayer, r.s.layers - 1)) == r.s.batch
  {
    hide InstsOf;
    hide LayersUpTo;
    hide LayerWaves;
    hide AllWaves;
    hide PlanOf;
    hide Decode;
    hide Exec;
    hide Tally;
    hide FlatHits;
    var a := LayersUpTo(r.s, r.s.layers - 1);
    var bar := Bar(BLayer, r.s.layers - 1);
    WavesCut(r.s);
    var k := |a|;
    assert AllWaves(r.s)[..k] == a;
    var early := PlanOf(r.s, r.env, a, r.owners[..k], r.sms, r.ablation);
    PlanPrefix(r.s, r.env, AllWaves(r.s), r.owners, k, r.sms, r.ablation);
    PlanBehind(r.s, r.env, a, r.owners[..k], r.sms, r.ablation);
    assert Plan(r)[..Cut(r)] == early;
    PlanTally(r.s, r.env, a, r.owners[..k], r.sms, r.ablation, bar);
    LayersHits(r.s, r.env, r.s.layers - 1, bar);
    JoinsBelow(r.s, r.env, r.s.layers - 1, r.s.layers - 1);
  }

  lemma JoinsOnLast(s: Shape, env: Env, x: Inst)
    requires ShapeOk(s) && EnvOk(s, env) && Built(s, env, x) && s.layers >= 2
    ensures Arrive(s, x) == Some(Bar(BLayer, s.layers - 1)) <==>
      x.AddRmsNorm? && s.layers - 2 <= x.layer <= s.layers - 1
  {
  }

  /** Which nodes arrive on the last counter, and on which side of the cut they stand. */
  lemma JoinsAtCut(r: Run, z: nat)
    requires RunOk(r) && r.s.layers >= 2 && z < |Plan(r)|
    ensures z < |Insts(r)|
    ensures Arrival(Plan(r)[z].op) == Some(Bar(BLayer, r.s.layers - 1)) <==>
      IsNorm(r, z, if z < Cut(r) then r.s.layers - 2 else r.s.layers - 1)
  {
    hide InstsOf;
    hide Decode;
    hide Exec;
    hide AllWaves;
    hide PlanOf;
    hide Compile;
    hide Built;
    hide ShapeOk;
    hide EnvOk;
    hide OwnersFit;
    Facts(r);
    ArrivalOfCompile(r.s, r.env, Insts(r)[z]);
    BuiltAt(r, z);
    JoinsOnLast(r.s, r.env, Insts(r)[z]);
    if z < Cut(r) { BeforeCut(r, z); } else { AfterCut(r, z); }
  }

  /** While no row of the last layer has joined, its counter holds only the layer before. */
  lemma InputOnly(r: Run)
    requires RunOk(r) && r.s.layers >= 2 && Entered(r, r.s.layers - 1)
    requires forall z: nat :: IsNorm(r, z, r.s.layers - 1) ==> !Done(r, z)
    ensures AllJoined(r, r.s.layers - 2)
  {
    hide InstsOf;
    hide Decode;
    hide Exec;
    hide Satisfied;
    hide EventAt;
    hide AllWaves;
    hide PlanOf;
    hide IsNorm;
    hide Realises;
    hide Inv;
    hide FiredJustified;
    hide GatesOpen;
    hide Behind;
    hide Arrival;
    hide Tally;
    hide DecodePlanOf;
    hide Cut;
    var w := Wait(Bar(BLayer, r.s.layers - 1), r.s.batch);
    Facts(r);
    CutTally(r);
    forall z: nat | Cut(r) <= z < |Plan(r)| && Arrival(Plan(r)[z].op) == Some(w.bar)
      ensures EventAt(Plan(r), z) !in St(r).fired
    {
      JoinsAtCut(r, z);
      assert !Done(r, z);
    }
    PrefixProducersFired(Prog(r), Plan(r), St(r), w, Cut(r));
    forall z: nat | IsNorm(r, z, r.s.layers - 2) ensures Done(r, z) {
      JoinsOnLastHere(r, z);
      JoinsAtCut(r, z);
    }
  }

  lemma JoinsOnLastHere(r: Run, z: nat)
    requires RunOk(r) && r.s.layers >= 2 && IsNorm(r, z, r.s.layers - 2)
    ensures z < |Plan(r)| && z < Cut(r)
  {
    hide InstsOf;
    hide Decode;
    hide Exec;
    hide AllWaves;
    hide PlanOf;
    Facts(r);
    if z >= Cut(r) {
      AfterCut(r, z);
      assert false;
    }
  }

  // ---- the same, in every state of every run ----

  ghost function Earlier(r: Run): (e: Run)
    requires r.choices != []
  {
    r.(choices := r.choices[..|r.choices| - 1])
  }

  lemma EarlierOk(r: Run)
    requires RunOk(r) && r.choices != []
    ensures RunOk(Earlier(r)) && Plan(Earlier(r)) == Plan(r) && Insts(Earlier(r)) == Insts(r)
    ensures Prog(Earlier(r)) == Prog(r)
    ensures var j := r.choices[|r.choices| - 1];
      j < |Prog(r).lists| && Step(Prog(r), St(Earlier(r)), j) == Some(St(r))
  {
    hide InstsOf;
    hide Decode;
    hide PlanOf;
    hide Step;
  }

  lemma StepKeepsFired(p: Program, m: State, j: nat)
    requires WellFormed(p) && |m.cores| == |p.lists| && j < |p.lists| && Step(p, m, j).Some?
    ensures m.fired <= Step(p, m, j).value.fired
  {
  }

  lemma StaysDone(r: Run, z: nat)
    requires RunOk(r) && r.choices != [] && RunOk(Earlier(r)) && Done(Earlier(r), z)
    ensures Done(r, z)
  {
    hide InstsOf;
    hide Decode;
    hide PlanOf;
    hide Step;
    hide Exec;
    hide EventAt;
    EarlierOk(r);
    Facts(Earlier(r));
    StepKeepsFired(Prog(r), St(Earlier(r)), r.choices[|r.choices| - 1]);
  }

  /** A join that has just finished could start in the state before. */
  lemma JustJoined(r: Run, z: nat)
    requires RunOk(r) && r.choices != [] && RunOk(Earlier(r)) && Done(r, z) && !Done(Earlier(r), z)
    requires z < |Insts(r)| && Insts(r)[z].AddRmsNorm?
    ensures z < |Insts(Earlier(r))| && MayStart(Earlier(r), z)
  {
    hide Realises;
    hide Inv;
    hide GatesOpen;
    hide FiredJustified;
    hide InstsOf;
    hide Decode;
    hide PlanOf;
    hide Step;
    hide Exec;
    hide Waits;
    hide Satisfied;
    var e := Earlier(r);
    EarlierOk(r);
    Facts(r);
    Facts(e);
    PlanEventsValid(Prog(r), Plan(r), z);
    CompileShape(r.s, r.env, Insts(r)[z]);
    assert !Plan(r)[z].Queued? by { NormIsPlaced(r, z); }
    NewlyFired(Prog(r), St(e), r.choices[|r.choices| - 1], EventAt(Plan(r), z));
  }

  lemma QueueTasksAreTasks(s: Shape, env: Env, q: QueueId, x: Inst)
    requires ShapeOk(s) && EnvOk(s, env) && x in QueueTasks(s, env, q)
    ensures x.AttnDecode? || x.MoeUpTask? || x.MoeDownTask?
  {
    match q.kind
    case AttnQueue => QueueElement(s, env, q.layer, s.batch, x);
    case MoeUpQueue => UpQueueLayer(s, env, q.layer, s.moe.experts);
    case MoeDownQueue => DownQueueAreDowns(s, env, q.layer, s.moe.experts);
  }

  lemma {:induction false} QueuedFromQueue(s: Shape, env: Env, waves: Waves, owners: Owners, sms: nat,
                                           ablation: bool, y: nat)
    requires ShapeOk(s) && EnvOk(s, env) && OwnersFit(waves, owners, sms)
    requires y < |PlanOf(s, env, waves, owners, sms, ablation)|
    requires y < |InstsOf(s, env, waves, sms, ablation)|
    requires PlanOf(s, env, waves, owners, sms, ablation)[y].Queued?
    ensures InstsOf(s, env, waves, sms, ablation)[y] in
      QueueTasks(s, env, PlanOf(s, env, waves, owners, sms, ablation)[y].queue)
  {
    hide QueueTasks;
    hide Compile;
    var k := |waves| - 1;
    var before := PlanOf(s, env, waves[..k], owners[..k], sms, ablation);
    var syncs := SyncsBeforeWave(k, sms, ablation);
    PlanBehind(s, env, waves[..k], owners[..k], sms, ablation);
    if y < |before| {
      QueuedFromQueue(s, env, waves[..k], owners[..k], sms, ablation, y);
    } else {
      var nodes, tasks := WaveNodes(s, env, waves[k], owners[k]), QueueNodes(s, env, waves[k]);
      assert |SyncInsts(k, sms, ablation)| == |syncs|;
      assert PlanOf(s, env, waves, owners, sms, ablation) == before + syncs + nodes + tasks;
    }
  }

  lemma NormIsPlaced(r: Run, z: nat)
    requires RunOk(r) && z < |Insts(r)| && z < |Plan(r)| && Insts(r)[z].AddRmsNorm?
    ensures Plan(r)[z].Placed?
  {
    hide InstsOf;
    hide PlanOf;
    hide Decode;
    hide Exec;
    hide AllWaves;
    if Plan(r)[z].Queued? {
      QueuedFromQueue(r.s, r.env, AllWaves(r.s), r.owners, r.sms, r.ablation, z);
      QueueTasksAreTasks(r.s, r.env, Plan(r)[z].queue, Insts(r)[z]);
      assert false;
    }
  }

  /** The last layer never joins a row before the layer under it has joined them all,
      although both arrive on one counter. */
  lemma {:induction false} LastJoinsLast(r: Run, z: nat)
    requires RunOk(r) && r.s.layers >= 2 && IsNorm(r, z, r.s.layers - 1) && Done(r, z)
    ensures AllJoined(r, r.s.layers - 2)
    decreases |r.choices|
  {
    hide Insts;
    hide InstsOf;
    hide Decode;
    hide Exec;
    hide Satisfied;
    hide PlanOf;
    hide Done;
    hide MayStart;
    hide ShapeOk;
    hide EnvOk;
    hide OwnersFit;
    hide AllWaves;
    if r.choices == [] {
      NothingDone(r, z);
      assert false;
    } else {
      var e := Earlier(r);
      EarlierOk(r);
      if y: nat :| IsNorm(r, y, r.s.layers - 1) && Done(e, y) {
        LastJoinsLast(e, y);
      } else {
        JustJoined(r, z);
        NormEnters(e, z);
        InputOnly(e);
      }
      JoinedStays(r, r.s.layers - 2);
    }
  }

  lemma JoinedStays(r: Run, l: nat)
    requires RunOk(r) && r.choices != [] && RunOk(Earlier(r)) && AllJoined(Earlier(r), l)
    ensures AllJoined(r, l)
  {
    hide InstsOf;
    hide Decode;
    hide Exec;
    hide PlanOf;
    hide Done;
    hide ShapeOk;
    hide EnvOk;
    hide OwnersFit;
    hide AllWaves;
    forall y: nat | IsNorm(r, y, l) ensures Done(r, y) {
      assert IsNorm(Earlier(r), y, l);
      StaysDone(r, y);
    }
  }

  lemma NothingDone(r: Run, z: nat)
    requires RunOk(r) && r.choices == []
    ensures !Done(r, z)
  {
    hide Decode;
    hide PlanOf;
  }

  /** The wait for a layer's input means that the layer before has joined every row. */
  lemma InputJoined(r: Run, l: nat)
    requires RunOk(r) && 0 < l < r.s.layers && Entered(r, l)
    ensures AllJoined(r, l - 1)
  {
    hide InstsOf;
    hide Decode;
    hide Exec;
    hide Satisfied;
    hide PlanOf;
    hide Done;
    hide Entered;
    if l < r.s.layers - 1 {
      PlainInput(r, l);
    } else if z: nat :| IsNorm(r, z, l) && Done(r, z) {
      LastJoinsLast(r, z);
    } else {
      InputOnly(r);
    }
  }

  // ---- no overlap ----

  lemma HeadWaits(r: Run, y: nat)
    requires RunOk(r) && y < |Insts(r)| && MayStart(r, y) && Insts(r)[y].LmHead?
    ensures AllJoined(r, r.s.layers - 1)
  {
    hide InstsOf;
    hide Decode;
    hide Exec;
    hide Satisfied;
    hide PlanOf;
    hide Done;
    hide MayStart;
    BuiltAt(r, y);
    Waited(r, y, Wait(Bar(BLayer, r.s.layers - 1), 2 * r.s.batch));
    LastCounterFull(r);
  }

  /** Layers do not overlap: once an instruction that reads data may start, every task of
      every earlier layer has finished. The LM head counts as a layer after the last. */
  lemma {:induction false} LayersDoNotOverlap(r: Run, y: nat, z: nat)
    requires RunOk(r) && RoutesSome(r.s, r.env)
    requires y < |Insts(r)| && MayStart(r, y) && Orderly(r.env, Insts(r)[y])
    requires z < |Insts(r)| && Real(Insts(r)[z])
    requires LayerOf(r.s, Insts(r)[z]) < LayerOf(r.s, Insts(r)[y])
    ensures Done(r, z)
    decreases LayerOf(r.s, Insts(r)[y])
  {
    hide InstsOf;
    hide Decode;
    hide Exec;
    hide Satisfied;
    hide PlanOf;
    hide Done;
    hide MayStart;
    hide Built;
    var l := LayerOf(r.s, Insts(r)[y]);
    LayerBound(r, y);
    if Insts(r)[y].LmHead? {
      HeadWaits(r, y);
    } else {
      Enters(r, y);
      InputJoined(r, l);
    }
    var row :| 0 <= row < r.s.batch && r.env.active[row];
    var n := NormHere(r, l - 1, row);
    DoneMayStart(r, n);
    if LayerOf(r.s, Insts(r)[z]) < l - 1 {
      LayersDoNotOverlap(r, n, z);
    } else if !Insts(r)[z].AddRmsNorm? {
      LayerJoined(r, l - 1, n, z);
    }
  }

  lemma LayerBound(r: Run, y: nat)
    requires RunOk(r) && y < |Insts(r)| && Real(Insts(r)[y])
    ensures LayerOf(r.s, Insts(r)[y]) <= r.s.layers
    ensures !Insts(r)[y].LmHead? ==> LayerOf(r.s, Insts(r)[y]) < r.s.layers
  {
    hide InstsOf;
    hide Decode;
    hide Exec;
    BuiltAt(r, y);
  }
}
