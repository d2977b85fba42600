/** Main results about progress: no interleaving of the SMs gets stuck, under any
    placement, with or without barriers between waves, exactly when the model has at
    least two layers. */
module DecodeProgress {
  import opened Arithmetic
  import opened Wrappers
  import opened Machine
  import opened Progress
  import opened Schedule
  import opened Arrivals
  import opened LayerArrivals
  import opened DecodePlan
  import opened SyncPlan
  import opened History
  import opened DecodeSupply
  import opened DecodeShape

  /** The decode program under one placement. */
  function Decode(s: Shape, env: Env, owners: Owners, sms: nat, ablation: bool): (p: Program)
    requires ShapeOk(s) && EnvOk(s, env) && OwnersFit(AllWaves(s), owners, sms)
    ensures WellFormed(p) && |p.lists| == sms
  {
    AllShaped(s, env);
    PlanRealised(s, env, AllWaves(s), owners, sms, ablation);
    ProgramOf(s, env, AllWaves(s), owners, sms, ablation)
  }

  function DecodePlanOf(s: Shape, env: Env, owners: Owners, sms: nat, ablation: bool): seq<Node>
    requires ShapeOk(s) && EnvOk(s, env) && OwnersFit(AllWaves(s), owners, sms)
  {
    PlanOf(s, env, AllWaves(s), owners, sms, ablation)
  }

  lemma DecodeRealised(s: Shape, env: Env, owners: Owners, sms: nat, ablation: bool)
    requires ShapeOk(s) && EnvOk(s, env) && OwnersFit(AllWaves(s), owners, sms)
    ensures Realises(Decode(s, env, owners, sms, ablation), DecodePlanOf(s, env, owners, sms, ablation))
    ensures DrainsFirst(DecodePlanOf(s, env, owners, sms, ablation))
    ensures SyncsAligned(Decode(s, env, owners, sms, ablation), DecodePlanOf(s, env, owners, sms, ablation))
  {
    hide AllWaves;
    hide PlanOf;
    hide SyncsAligned;
    hide DrainsFirst;
    AllShaped(s, env);
    PlanRealised(s, env, AllWaves(s), owners, sms, ablation);
    PlanIsShaped(s, env, AllWaves(s), owners, sms, ablation);
    PlanAligned(s, env, AllWaves(s), owners, sms, ablation, Decode(s, env, owners, sms, ablation));
  }

  lemma DecodeSupplied(s: Shape, env: Env, owners: Owners, sms: nat, ablation: bool)
    requires ShapeOk(s) && EnvOk(s, env) && OwnersFit(AllWaves(s), owners, sms) && s.layers >= 2
    ensures Supplied(Decode(s, env, owners, sms, ablation), DecodePlanOf(s, env, owners, sms, ablation))
  {
    hide AllWaves;
    hide PlanOf;
    hide WavesMet;
    hide WavesShaped;
    AllShaped(s, env);
    AllMet(s, env);
    DecodeRealised(s, env, owners, sms, ablation);
    SuppliedPlan(s, env, AllWaves(s), owners, sms, ablation, Decode(s, env, owners, sms, ablation));
  }

  /** Progress: with two layers or more, in every state any run reaches, either every
      SM has finished its list or some SM can step. */
  lemma NeverStuck(s: Shape, env: Env, owners: Owners, sms: nat, ablation: bool, choices: seq<nat>)
    requires ShapeOk(s) && EnvOk(s, env) && OwnersFit(AllWaves(s), owners, sms) && s.layers >= 2
    requires Exec(Decode(s, env, owners, sms, ablation), choices).Some?
    ensures var p := Decode(s, env, owners, sms, ablation);
      var m := Exec(p, choices).value;
      Finished(p, m) || exists k :: 0 <= k < |p.lists| && Step(p, m, k).Some?
  {
    hide Decode;
    hide DecodePlanOf;
    hide Step;
    var p := Decode(s, env, owners, sms, ablation);
    var plan := DecodePlanOf(s, env, owners, sms, ablation);
    var m := Exec(p, choices).value;
    DecodeRealised(s, env, owners, sms, ablation);
    DecodeSupplied(s, env, owners, sms, ablation);
    RunInv(p, choices);
    if !Finished(p, m) {
      var k := SomeoneCanStep(p, plan, m);
    }
  }

  lemma ExecSnoc(p: Program, choices: seq<nat>, k: nat)
    requires WellFormed(p) && Exec(p, choices).Some? && k < |p.lists|
    ensures Exec(p, choices + [k]) == Step(p, Exec(p, choices).value, k)
  {
    assert (choices + [k])[..|choices + [k]| - 1] == choices;
  }

  /** Total: every run can be carried on until all SMs have finished, and no run is
      longer than twice the plan plus one step per SM. */
  lemma {:induction false} EveryRunFinishes(s: Shape, env: Env, owners: Owners, sms: nat, ablation: bool, choices: seq<nat>)
    returns (more: seq<nat>)
    requires ShapeOk(s) && EnvOk(s, env) && OwnersFit(AllWaves(s), owners, sms) && s.layers >= 2
    requires Exec(Decode(s, env, owners, sms, ablation), choices).Some?
    ensures var p := Decode(s, env, owners, sms, ablation);
      && Exec(p, choices + more).Some?
      && Finished(p, Exec(p, choices + more).value)
      && |choices + more| <= 2 * |DecodePlanOf(s, env, owners, sms, ablation)| + sms
    decreases 2 * |DecodePlanOf(s, env, owners, sms, ablation)| + sms - |choices|
  {
    hide Decode;
    hide DecodePlanOf;
    hide Step;
    hide Exec;
    hide ShapeOk;
    hide EnvOk;
    hide OwnersFit;
    hide AllWaves;
    hide Finished;
    var p := Decode(s, env, owners, sms, ablation);
    DecodeRealised(s, env, owners, sms, ablation);
    RunsAreShort(p, DecodePlanOf(s, env, owners, sms, ablation), choices);
    NeverStuck(s, env, owners, sms, ablation, choices);
    var m := Exec(p, choices).value;
    if Finished(p, m) {
      more := [];
      assert choices + more == choices;
    } else {
      var k: nat :| k < |p.lists| && Step(p, m, k).Some?;
      ExecSnoc(p, choices, k);
      RunsAreShort(p, DecodePlanOf(s, env, owners, sms, ablation), choices + [k]);
      var rest := EveryRunFinishes(s, env, owners, sms, ablation, choices + [k]);
      more := [k] + rest;
      assert choices + more == choices + [k] + rest;
    }
  }

  // ---- one layer is not enough ----

  /** A counter never exceeds the arrivals the plan makes on it. */
  lemma CountBound(p: Program, plan: seq<Node>, m: State, bar: Bar)
    requires Realises(p, plan) && Inv(p, m)
    ensures Count(m, bar) <= Tally(plan, bar)
  {
    hide EventAt;
    ArrivalsAreTally(p, plan, |plan|, bar);
    assert plan[..|plan|] == plan;
    forall ev | ev in Arrived(p, m.fired, bar) ensures ev in PlanArrivals(plan, |plan|, bar) {
      EventInPlan(p, plan, ev);
    }
    SubsetSize(Arrived(p, m.fired, bar), PlanArrivals(plan, |plan|, bar));
  }

  /** An instruction of the last wave stands somewhere in the plan. */
  lemma LastWaveInPlan(s: Shape, env: Env, waves: Waves, owners: Owners, sms: nat, ablation: bool, i: nat)
    returns (y: nat)
    requires ShapeOk(s) && EnvOk(s, env) && OwnersFit(waves, owners, sms) && waves != []
    requires i < |waves[|waves| - 1]|
    ensures var plan := PlanOf(s, env, waves, owners, sms, ablation);
      var k := |waves| - 1;
      y < |plan| && plan[y] == Placed(owners[k][i], Compile(s, env, waves[k][i]))
  {
    hide Compile;
    hide QueueNodes;
    var k := |waves| - 1;
    var before := PlanOf(s, env, waves[..k], owners[..k], sms, ablation);
    var syncs := SyncsBeforeWave(k, sms, ablation);
    y := |before + syncs| + i;
    var nodes := WaveNodes(s, env, waves[k], owners[k]);
    assert nodes[i] == Placed(owners[k][i], Compile(s, env, waves[k][i]));
    assert PlanOf(s, env, waves, owners, sms, ablation) ==
      (before + syncs) + (nodes + QueueNodes(s, env, waves[k]));
  }

  lemma LmHeadNode(s: Shape, env: Env, owners: Owners, sms: nat, ablation: bool) returns (y: nat)
    requires ShapeOk(s) && EnvOk(s, env) && OwnersFit(AllWaves(s), owners, sms)
    ensures var plan := DecodePlanOf(s, env, owners, sms, ablation);
      y < |plan| && plan[y].Placed? &&
      plan[y].op == Task([Wait(Bar(BLayer, s.layers - 1), 2 * s.batch)], None)
  {
    hide LayersUpTo;
    y := LastWaveInPlan(s, env, AllWaves(s), owners, sms, ablation, 0);
    assert LmHeadWave(s)[0] == LmHead(0, s.layers - 1, 2 * s.batch);
  }

  lemma OneLayerTally(s: Shape, env: Env, owners: Owners, sms: nat, ablation: bool)
    requires ShapeOk(s) && EnvOk(s, env) && OwnersFit(AllWaves(s), owners, sms) && s.layers == 1
    ensures Tally(DecodePlanOf(s, env, owners, sms, ablation), Bar(BLayer, 0)) == s.batch
  {
    hide AllWaves;
    PlanTally(s, env, AllWaves(s), owners, sms, ablation, Bar(BLayer, 0));
    TotalHits(s, env, Bar(BLayer, 0));
    assert Below(s, env, 1, Bar(BLayer, 0)) == Below(s, env, 0, Bar(BLayer, 0)) + OfLayer(s, env, 0, Bar(BLayer, 0));
  }

  /** A one-layer model never finishes: its LM head waits for arrivals nobody makes. */
  lemma OneLayerHangs(s: Shape, env: Env, owners: Owners, sms: nat, ablation: bool, choices: seq<nat>)
    requires ShapeOk(s) && EnvOk(s, env) && OwnersFit(AllWaves(s), owners, sms) && s.layers == 1
    requires Exec(Decode(s, env, owners, sms, ablation), choices).Some?
    ensures var p := Decode(s, env, owners, sms, ablation);
      !Finished(p, Exec(p, choices).value)
  {
    hide Decode;
    hide DecodePlanOf;
    var p := Decode(s, env, owners, sms, ablation);
    var plan := DecodePlanOf(s, env, owners, sms, ablation);
    var m := Exec(p, choices).value;
    DecodeRealised(s, env, owners, sms, ablation);
    RunInv(p, choices);
    var y := LmHeadNode(s, env, owners, sms, ablation);
    RankInList(plan, y);
    PlanEventsValid(p, plan, y);
    var bar := Bar(BLayer, 0);
    OneLayerTally(s, env, owners, sms, ablation);
    CountBound(p, plan, m, bar);
    if EventAt(plan, y) in m.fired {
      LmHeadFired(p, choices, EventAt(plan, y), Wait(bar, 2 * s.batch));
      assert false;
    }
  }

  lemma LmHeadFired(p: Program, choices: seq<nat>, ev: Event, w: Wait)
    requires WellFormed(p) && Exec(p, choices).Some?
    requires ValidEvent(p, ev) && OpOf(p, ev) == Task([w], None)
    requires ev in Exec(p, choices).value.fired
    ensures w.target <= Count(Exec(p, choices).value, w.bar)
  {
    RunHistory(p, choices);
    OneWait(Exec(p, choices).value, w);
  }

  /** The schedule can run to the end exactly when the model has two layers or more. */
  lemma FinishesIffTwoLayers(s: Shape, env: Env, owners: Owners, sms: nat, ablation: bool)
    requires ShapeOk(s) && EnvOk(s, env) && OwnersFit(AllWaves(s), owners, sms)
    ensures var p := Decode(s, env, owners, sms, ablation);
      (exists choices: seq<nat> :: Exec(p, choices).Some? && Finished(p, Exec(p, choices).value))
      <==> s.layers >= 2
  {
    hide Decode;
    hide DecodePlanOf;
    var p := Decode(s, env, owners, sms, ablation);
    if s.layers >= 2 {
      assert Exec(p, []).Some?;
      var more := EveryRunFinishes(s, env, owners, sms, ablation, []);
      assert [] + more == more;
      assert Exec(p, more).Some? && Finished(p, Exec(p, more).value);
    } else {
      forall choices: seq<nat> | Exec(p, choices).Some? ensures !Finished(p, Exec(p, choices).value) {
        OneLayerHangs(s, env, owners, sms, ablation, choices);
      }
    }
  }
}
