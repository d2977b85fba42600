/** What idle attention tasks can do: they wait for nothing, so some placement and some run
    let them write while earlier layers still compute. */
module Overlap {
  import opened Arithmetic
  import opened Wrappers
  import opened Machine
  import opened Progress
  import opened Staging
  import opened Schedule
  import opened Arrivals
  import opened LayerArrivals
  import opened DecodePlan
  import opened SyncPlan
  import opened DecodeSupply
  import opened DecodeShape
  import opened DecodeInsts
  import opened DecodeProgress
  import opened HappensBefore
  import opened Producers
  import opened AttnEntry
  import opened LayerOrder
  import opened Buffers
  import opened NoRaces

  // ---- every instruction on an SM of its own ----

  function Size(waves: Waves): nat {
    if waves == [] then 0 else Size(waves[..|waves| - 1]) + |waves[|waves| - 1]|
  }

  function Alone(waves: Waves): Owners {
    if waves == [] then [] else
    var n := |waves| - 1;
    Alone(waves[..n]) + [seq(|waves[n]|, i => Size(waves[..n]) + i)]
  }

  lemma {:induction false} AloneFits(waves: Waves, sms: nat)
    requires Size(waves) <= sms
    ensures OwnersFit(waves, Alone(waves), sms)
  {
    if waves != [] {
      var n := |waves| - 1;
      AloneFits(waves[..n], sms);
      assert Alone(waves)[..n] == Alone(waves[..n]);
      forall k, i | 0 <= k < |waves| && 0 <= i < |Alone(waves)[k]| ensures Alone(waves)[k][i] < sms {
        if k < n { assert Alone(waves[..n])[k][i] < sms; }
      }
      forall k | 0 <= k < |waves| ensures |Alone(waves)[k]| == |waves[k]| {
        if k < n { assert waves[..n][k] == waves[k]; }
      }
    }
  }

  ghost predicate Below(plan: seq<Node>, n: nat) {
    forall y :: 0 <= y < |plan| && plan[y].Placed? ==> plan[y].sm < n
  }

  lemma SoloConcat(before: seq<Node>, nodes: seq<Node>, tasks: seq<Node>, base: nat)
    requires Solo(before) && Below(before, base) && forall e :: 0 <= e < |tasks| ==> tasks[e].Queued?
    requires forall i :: 0 <= i < |nodes| ==> nodes[i].Placed? && nodes[i].sm == base + i
    ensures Solo(before + nodes + tasks) && Below(before + nodes + tasks, base + |nodes|)
  {
  }

  lemma {:induction false} AloneIsSolo(s: Shape, env: Env, waves: Waves, sms: nat)
    requires ShapeOk(s) && EnvOk(s, env) && OwnersFit(waves, Alone(waves), sms)
    ensures var plan := PlanOf(s, env, waves, Alone(waves), sms, false); Solo(plan) && Below(plan, Size(waves))
  {
    hide Compile;
    hide QueueTasks;
    if waves != [] {
      var n := |waves| - 1;
      assert Alone(waves)[..n] == Alone(waves[..n]);
      AloneIsSolo(s, env, waves[..n], sms);
      var before := PlanOf(s, env, waves[..n], Alone(waves[..n]), sms, false);
      var nodes, tasks := WaveNodes(s, env, waves[n], Alone(waves)[n]), QueueNodes(s, env, waves[n]);
      SoloConcat(before, nodes, tasks, Size(waves[..n]));
      assert before + SyncsBeforeWave(n, sms, false) + nodes + tasks == before + nodes + tasks;
    }
  }

  lemma {:induction false} PlainPlan(s: Shape, env: Env, waves: Waves, owners: Owners, sms: nat)
    requires ShapeOk(s) && EnvOk(s, env) && OwnersFit(waves, owners, sms) && WavesShaped(s, env, waves)
    ensures NoSync(PlanOf(s, env, waves, owners, sms, false))
  {
    hide WaveNodes;
    hide QueueNodes;
    hide Compile;
    hide QueueTasks;
    hide WavesShaped;
    if waves != [] {
      var n := |waves| - 1;
      ShapedPrefix(s, env, waves);
      PlainPlan(s, env, waves[..n], owners[..n], sms);
      var before := PlanOf(s, env, waves[..n], owners[..n], sms, false);
      var rest := WaveNodes(s, env, waves[n], owners[n]) + QueueNodes(s, env, waves[n]);
      forall y | 0 <= y < |rest| ensures !rest[y].op.Sync? { SegmentHasNoSyncs(s, env, waves, n, owners[n], y); }
      assert PlanOf(s, env, waves, owners, sms, false) == before + rest;
    }
  }

  // ---- where the attention of a layer stands ----

  function AttnIndex(s: Shape, l: nat): nat
    requires ShapeOk(s) && l < s.layers
  {
    |LayersUpTo(s, l)| + |HeadWaves(s, l)|
  }

  lemma {:induction false} LayersPrefix(s: Shape, l: nat, n: nat)
    requires ShapeOk(s) && l < n <= s.layers
    ensures LayersUpTo(s, l) + LayerWaves(s, l) <= LayersUpTo(s, n)
  {
    hide LayerWaves;
    if l < n - 1 { LayersPrefix(s, l, n - 1); }
  }

  lemma AttnAt(s: Shape, l: nat)
    requires ShapeOk(s) && l < s.layers
    ensures AttnIndex(s, l) < |AllWaves(s)| && AllWaves(s)[AttnIndex(s, l)] == AttnWaves(s, l)[0]
  {
    hide LayersUpTo;
    hide LayerWaves;
    hide HeadWaves;
    hide TailWaves;
    hide AttnWaves;
    LayersPrefix(s, l, s.layers);
    LayerSplit(s, l);
    SomeAttn(s, l);
    var w := LayersUpTo(s, l) + (HeadWaves(s, l) + AttnWaves(s, l) + TailWaves(s, l));
    assert w[AttnIndex(s, l)] == AttnWaves(s, l)[0];
    assert w <= AllWaves(s);
  }

  lemma SomeAttn(s: Shape, l: nat)
    requires ShapeOk(s) && l < s.layers
    ensures AttnWaves(s, l) != []
  {
    hide CombineWave;
    hide StaticAttnWave;
  }

  lemma AttnLater(s: Shape, k: nat, l: nat)
    requires ShapeOk(s) && k < l < s.layers
    ensures AttnIndex(s, k) < AttnIndex(s, l)
  {
    hide LayersUpTo;
    hide LayerWaves;
    hide HeadWaves;
    hide TailWaves;
    hide AttnWaves;
    LayersPrefix(s, k, l);
    LayerSplit(s, k);
    SomeAttn(s, k);
  }

  lemma Slice<T>(full: seq<T>, before: seq<T>, part: seq<T>)
    requires before + part <= full
    ensures full[..|before|] == before && full[|before|..|before| + |part|] == part
  {
  }

  /** Where the nodes and instructions of wave k, entries included, stand. */
  function Base(s: Shape, env: Env, waves: Waves, owners: Owners, sms: nat, k: nat): nat
    requires ShapeOk(s) && EnvOk(s, env) && OwnersFit(waves, owners, sms) && k < |waves|
  {
    |PlanOf(s, env, waves[..k], owners[..k], sms, false)|
  }

  function SegmentOf(s: Shape, env: Env, waves: Waves, owners: Owners, k: nat): seq<Node>
    requires ShapeOk(s) && EnvOk(s, env) && k < |waves| == |owners| && |waves[k]| == |owners[k]|
  {
    WaveNodes(s, env, waves[k], owners[k]) + QueueNodes(s, env, waves[k])
  }

  lemma PlanSegment(s: Shape, env: Env, waves: Waves, owners: Owners, sms: nat, k: nat)
    requires ShapeOk(s) && EnvOk(s, env) && OwnersFit(waves, owners, sms) && k < |waves|
    ensures var plan, base, part := PlanOf(s, env, waves, owners, sms, false), Base(s, env, waves, owners, sms, k), SegmentOf(s, env, waves, owners, k);
      && base + |part| <= |plan| && plan[base..base + |part|] == part
      && plan[..base] == PlanOf(s, env, waves[..k], owners[..k], sms, false)
  {
    hide WaveNodes;
    hide QueueNodes;
    var before := PlanOf(s, env, waves[..k], owners[..k], sms, false);
    PlanPrefix(s, env, waves, owners, k + 1, sms, false);
    LastSegment(s, env, waves[..k + 1], owners[..k + 1], sms);
    assert waves[..k + 1][..k] == waves[..k] && owners[..k + 1][..k] == owners[..k];
    Slice(PlanOf(s, env, waves, owners, sms, false), before, SegmentOf(s, env, waves, owners, k));
  }

  lemma LastSegment(s: Shape, env: Env, waves: Waves, owners: Owners, sms: nat)
    requires ShapeOk(s) && EnvOk(s, env) && OwnersFit(waves, owners, sms) && waves != []
    ensures var n := |waves| - 1;
      PlanOf(s, env, waves, owners, sms, false)
        == PlanOf(s, env, waves[..n], owners[..n], sms, false) + SegmentOf(s, env, waves, owners, n)
  {
    hide WaveNodes;
    hide QueueNodes;
    var n := |waves| - 1;
    var before := PlanOf(s, env, waves[..n], owners[..n], sms, false);
    assert before + SyncsBeforeWave(n, sms, false) == before;
  }

  lemma InstSegment(s: Shape, env: Env, waves: Waves, owners: Owners, sms: nat, k: nat)
    requires ShapeOk(s) && EnvOk(s, env) && OwnersFit(waves, owners, sms) && k < |waves|
    ensures var insts, base, part := InstsOf(s, env, waves, sms, false), Base(s, env, waves, owners, sms, k), Expanded(s, env, waves[k]);
      base + |part| <= |insts| && insts[base..base + |part|] == part
  {
    hide Expanded;
    hide PlanOf;
    var a := waves[..k + 1];
    assert a[..k] == waves[..k] && waves == a + waves[k + 1..];
    InstsPrefix(s, env, a, waves[k + 1..], sms, false);
    PlanBehind(s, env, waves[..k], owners[..k], sms, false);
    var before := InstsOf(s, env, waves[..k], sms, false);
    assert InstsOf(s, env, a, sms, false) == before + Expanded(s, env, waves[k]);
    Slice(InstsOf(s, env, waves, sms, false), before, Expanded(s, env, waves[k]));
  }

  // ---- the decode program placed that way ----

  function Fits(s: Shape): (sms: nat)
    requires ShapeOk(s)
    ensures OwnersFit(AllWaves(s), Alone(AllWaves(s)), sms)
  {
    AloneFits(AllWaves(s), Size(AllWaves(s)));
    Size(AllWaves(s))
  }

  /** The run that makes these choices. */
  function AloneRun(s: Shape, env: Env, choices: seq<nat>): Run
    requires ShapeOk(s)
  {
    Run(s, env, Alone(AllWaves(s)), Fits(s), false, choices)
  }

  ghost function TheProgram(s: Shape, env: Env): (p: Program)
    requires ShapeOk(s) && EnvOk(s, env)
    ensures WellFormed(p)
  {
    Decode(s, env, Alone(AllWaves(s)), Fits(s), false)
  }

  ghost function ThePlan(s: Shape, env: Env): seq<Node>
    requires ShapeOk(s) && EnvOk(s, env)
  {
    DecodePlanOf(s, env, Alone(AllWaves(s)), Fits(s), false)
  }

  lemma Sound(s: Shape, env: Env)
    requires ShapeOk(s) && EnvOk(s, env)
    ensures Realises(TheProgram(s, env), ThePlan(s, env)) && DrainsFirst(ThePlan(s, env))
    ensures Solo(ThePlan(s, env)) && NoSync(ThePlan(s, env))
    ensures s.layers >= 2 ==> Supplied(TheProgram(s, env), ThePlan(s, env))
  {
    hide AllWaves;
    hide PlanOf;
    hide Decode;
    hide Realises;
    hide DrainsFirst;
    hide Supplied;
    hide Solo;
    hide WavesShaped;
    var o, n := Alone(AllWaves(s)), Fits(s);
    AllShaped(s, env);
    DecodeRealised(s, env, o, n, false);
    AloneIsSolo(s, env, AllWaves(s), n);
    PlainPlan(s, env, AllWaves(s), o, n);
    if s.layers >= 2 { DecodeSupplied(s, env, o, n, false); }
  }

  /** The attention tasks of layer l, in order. */
  function AttnTasks(s: Shape, env: Env, l: nat): seq<Inst>
    requires ShapeOk(s) && EnvOk(s, env) && l < s.layers
  {
    if s.drain[l] then AttnQueueTasks(s, env, l, s.batch) else StaticAttnWave(s, l, s.batch)
  }

  function QueueOf(s: Shape, l: nat): Option<QueueId>
    requires ShapeOk(s) && l < s.layers
  {
    if s.drain[l] then Some(QueueId(AttnQueue, l)) else None
  }

  /** Where the attention of layer l begins in the plan. */
  ghost function AttnBase(s: Shape, env: Env, l: nat): nat
    requires ShapeOk(s) && EnvOk(s, env) && l < s.layers
  {
    AttnAt(s, l);
    Base(s, env, AllWaves(s), Alone(AllWaves(s)), Fits(s), AttnIndex(s, l))
  }

  /** The node of its i-th task: after the claimers, if there are any. */
  ghost function TaskNode(s: Shape, env: Env, l: nat, i: nat): nat
    requires ShapeOk(s) && EnvOk(s, env) && l < s.layers
  {
    AttnBase(s, env, l) + (if s.drain[l] then s.attnClaimers + i else i)
  }

  lemma AttnWave(s: Shape, env: Env, l: nat)
    requires ShapeOk(s) && EnvOk(s, env) && l < s.layers
    ensures AttnWaves(s, l) != []
    ensures s.drain[l] ==> AttnWaves(s, l)[0] == seq(s.attnClaimers, _ => AttnDrain(l))
    ensures !s.drain[l] ==> AttnWaves(s, l)[0] == StaticAttnWave(s, l, s.batch)
    ensures DrainedBy(AttnWaves(s, l)[0]) == QueueOf(s, l)
    ensures Expanded(s, env, AttnWaves(s, l)[0]) == (if s.drain[l] then seq(s.attnClaimers, _ => AttnDrain(l)) else []) + AttnTasks(s, env, l)
  {
    hide CombineWave;
    hide StaticAttnWave;
    StaticPlain(s, l);
    if !s.drain[l] { PlainDrainsNothing(StaticAttnWave(s, l, s.batch)); }
  }

  lemma TaskPlace(s: Shape, env: Env, l: nat, i: nat)
    requires ShapeOk(s) && EnvOk(s, env) && l < s.layers && i < |AttnTasks(s, env, l)|
    ensures var plan, y, x := ThePlan(s, env), TaskNode(s, env, l, i), AttnTasks(s, env, l)[i];
      && y < |plan| && plan[y].op == Compile(s, env, x)
      && (!s.drain[l] ==> plan[y].Placed?)
      && (s.drain[l] ==> plan[y] == Queued(QueueId(AttnQueue, l), i, Compile(s, env, x)))
  {
    hide AllWaves;
    hide PlanOf;
    hide Compile;
    hide StaticAttnWave;
    hide AttnQueueTasks;
    hide AttnWaves;
    var waves, o, n := AllWaves(s), Alone(AllWaves(s)), Fits(s);
    AttnAt(s, l);
    AttnWave(s, env, l);
    var k := AttnIndex(s, l);
    PlanSegment(s, env, waves, o, n, k);
    var part := SegmentOf(s, env, waves, o, k);
    assert part[TaskNode(s, env, l, i) - AttnBase(s, env, l)] == ThePlan(s, env)[TaskNode(s, env, l, i)];
  }

  lemma TaskInst(s: Shape, env: Env, l: nat, i: nat)
    requires ShapeOk(s) && EnvOk(s, env) && l < s.layers && i < |AttnTasks(s, env, l)|
    ensures var insts := InstsOf(s, env, AllWaves(s), Fits(s), false);
      TaskNode(s, env, l, i) < |insts| && insts[TaskNode(s, env, l, i)] == AttnTasks(s, env, l)[i]
  {
    hide AllWaves;
    hide PlanOf;
    hide InstsOf;
    hide StaticAttnWave;
    hide AttnQueueTasks;
    hide AttnWaves;
    var waves, o, n := AllWaves(s), Alone(AllWaves(s)), Fits(s);
    AttnAt(s, l);
    AttnWave(s, env, l);
    var k := AttnIndex(s, l);
    InstSegment(s, env, waves, o, n, k);
    assert Expanded(s, env, waves[k])[TaskNode(s, env, l, i) - AttnBase(s, env, l)] == AttnTasks(s, env, l)[i];
  }

  lemma ClaimersPlace(s: Shape, env: Env, l: nat, i: nat)
    requires ShapeOk(s) && EnvOk(s, env) && l < s.layers && s.drain[l] && i < s.attnClaimers
    ensures var plan, y := ThePlan(s, env), AttnBase(s, env, l) + i;
      y < |plan| && plan[y].Placed? && plan[y].op == Drain(QueueId(AttnQueue, l), [])
  {
    hide AllWaves;
    hide PlanOf;
    hide AttnQueueTasks;
    hide AttnWaves;
    var waves, o, n := AllWaves(s), Alone(AllWaves(s)), Fits(s);
    AttnAt(s, l);
    AttnWave(s, env, l);
    var k := AttnIndex(s, l);
    PlanSegment(s, env, waves, o, n, k);
    var part := SegmentOf(s, env, waves, o, k);
    assert part[i] == ThePlan(s, env)[AttnBase(s, env, l) + i];
  }

  lemma BasesRise(s: Shape, env: Env, k: nat, l: nat)
    requires ShapeOk(s) && EnvOk(s, env) && k < l < s.layers
    ensures AttnBase(s, env, k) + |Expanded(s, env, AttnWaves(s, k)[0])| <= AttnBase(s, env, l) <= |ThePlan(s, env)|
  {
    hide AllWaves;
    hide PlanOf;
    hide AttnWaves;
    hide Expanded;
    hide WaveNodes;
    hide QueueNodes;
    var waves, o, n := AllWaves(s), Alone(AllWaves(s)), Fits(s);
    AttnAt(s, k);
    AttnAt(s, l);
    AttnLater(s, k, l);
    var a, b := AttnIndex(s, k), AttnIndex(s, l);
    PlanSegment(s, env, waves, o, n, b);
    PlanSegment(s, env, waves[..b], o[..b], n, a);
    assert waves[..b][..a] == waves[..a] && o[..b][..a] == o[..a];
    InstSegment(s, env, waves[..b], o[..b], n, a);
    PlanBehind(s, env, waves[..b], o[..b], n, false);
  }

  // ---- bringing attention tasks to work ----

  /** The claimers of a layer's attention queue all stand in its own attention wave. */
  lemma NotDrainedBefore(s: Shape, env: Env, l: nat, x: nat)
    requires ShapeOk(s) && EnvOk(s, env) && l < s.layers && s.drain[l] && x < AttnBase(s, env, l)
    ensures x < |ThePlan(s, env)| && !IsDrainOf(ThePlan(s, env)[x], QueueId(AttnQueue, l))
  {
    hide AllWaves;
    hide PlanOf;
    hide AttnWaves;
    hide WaveNodes;
    hide QueueNodes;
    hide Compile;
    hide QueueTasks;
    var waves, o, n := AllWaves(s), Alone(AllWaves(s)), Fits(s);
    AttnAt(s, l);
    AttnWave(s, env, l);
    AllShaped(s, env);
    var k := AttnIndex(s, l);
    PlanSegment(s, env, waves, o, n, k);
    PlanIsShaped(s, env, waves[..k], o[..k], n, false);
    assert ThePlan(s, env)[x] == PlanOf(s, env, waves[..k], o[..k], n, false)[x];
  }

  /** Once everything before a layer's attention has finished, its tasks' waits hold. */
  lemma WaitsHold(s: Shape, env: Env, m: State, l: nat, i: nat)
    requires ShapeOk(s) && EnvOk(s, env) && s.layers >= 2 && l < s.layers && i < |AttnTasks(s, env, l)|
    requires Inv(TheProgram(s, env), m)
    requires AttnBase(s, env, l) <= |ThePlan(s, env)|
    requires forall x :: 0 <= x < AttnBase(s, env, l) ==> EventAt(ThePlan(s, env), x) in m.fired
    ensures Satisfied(m, Waits(s, env, AttnTasks(s, env, l)[i]))
  {
    hide AllWaves;
    hide PlanOf;
    hide Inv;
    hide WavesShaped;
    hide EventAt;
    hide Satisfied;
    hide WaveNodes;
    hide QueueNodes;
    var waves, o, n := AllWaves(s), Alone(AllWaves(s)), Fits(s);
    var x := AttnTasks(s, env, l)[i];
    AttnAt(s, l);
    var k := AttnIndex(s, l);
    AllMet(s, env);
    TaskMet(s, env, waves[..k], l, x);
    PlanSegment(s, env, waves, o, n, k);
    forall j | 0 <= j < |Waits(s, env, x)|
      ensures Waits(s, env, x)[j].target <= Tally(PlanOf(s, env, waves[..k], o[..k], n, false), Waits(s, env, x)[j].bar)
    {
      PlanTally(s, env, waves[..k], o[..k], n, false, Waits(s, env, x)[j].bar);
    }
    Sound(s, env);
    PrefixSatisfies(TheProgram(s, env), ThePlan(s, env), m, AttnBase(s, env, l), Waits(s, env, x));
  }

  lemma TaskMet(s: Shape, env: Env, earlier: Waves, l: nat, x: Inst)
    requires ShapeOk(s) && EnvOk(s, env) && l < s.layers && x in AttnTasks(s, env, l) && AttnWaves(s, l) != []
    requires forall i :: 0 <= i < |AttnWaves(s, l)[0]| ==> InstMet(s, env, earlier, AttnWaves(s, l)[0][i])
    ensures WaitsMet(s, env, earlier, Waits(s, env, x))
  {
    hide AttnWaves;
    hide WaitsMet;
    hide Waits;
    hide StaticAttnWave;
    hide AttnQueueTasks;
    AttnWave(s, env, l);
    var w := AttnWaves(s, l)[0];
    if s.drain[l] {
      assert w[0] == AttnDrain(l) && InstMet(s, env, earlier, w[0]);
    } else {
      var i :| 0 <= i < |w| && w[i] == x;
      assert InstMet(s, env, earlier, w[i]);
    }
  }

  lemma TaskIsTask(s: Shape, env: Env, l: nat, i: nat)
    requires ShapeOk(s) && EnvOk(s, env) && l < s.layers && i < |AttnTasks(s, env, l)|
    ensures var x := AttnTasks(s, env, l)[i];
      && DecodeTask(s, l, x) && x.numSplits == AttnSplits(s, env, l, x.row) && x.window == WindowOf(s, l)
      && Compile(s, env, x).Task? && Compile(s, env, x).waits == Waits(s, env, x)
  {
    hide Waits;
    hide Arrive;
    hide AttnQueueTasks;
    hide StaticAttnWave;
    hide QkvWait;
    var x := AttnTasks(s, env, l)[i];
    if s.drain[l] { QueueElement(s, env, l, s.batch, x); } else { StaticElement(s, l, s.batch, x); }
  }

  /** The claimers of layer l up to the i-th have not begun. */
  lemma ClaimersIdle(s: Shape, env: Env, m: State, cut: nat, l: nat, i: nat)
    requires ShapeOk(s) && EnvOk(s, env) && l < s.layers && s.drain[l] && i < |AttnTasks(s, env, l)| && i < s.attnClaimers
    requires |m.cores| == |TheProgram(s, env).lists| && Calm(ThePlan(s, env), m, cut) && cut <= AttnBase(s, env, l)
    ensures Idling(TheProgram(s, env), ThePlan(s, env), m, QueueId(AttnQueue, l), AttnBase(s, env, l), i + 1)
  {
    hide AttnTasks;
    hide ThePlan;
    hide TheProgram;
    hide AttnBase;
    hide Compile;
    var p, plan, base := TheProgram(s, env), ThePlan(s, env), AttnBase(s, env, l);
    Sound(s, env);
    TaskPlace(s, env, l, i);
    QueueHas(p, plan, TaskNode(s, env, l, i));
    ClaimersAll(s, env, l, i + 1);
    NotDrainedTo(s, env, l, cut);
  }

  lemma QueueHas(p: Program, plan: seq<Node>, y: nat)
    requires Realises(p, plan) && y < |plan| && plan[y].Queued?
    ensures plan[y].queue in p.queues && plan[y].entry < |p.queues[plan[y].queue]|
  {
  }

  lemma ClaimersAll(s: Shape, env: Env, l: nat, n: nat)
    requires ShapeOk(s) && EnvOk(s, env) && l < s.layers && s.drain[l] && n <= s.attnClaimers
    ensures AttnBase(s, env, l) + n <= |ThePlan(s, env)| || n == 0
    ensures forall x :: AttnBase(s, env, l) <= x < AttnBase(s, env, l) + n ==>
      x < |ThePlan(s, env)| && ThePlan(s, env)[x].Placed? && ThePlan(s, env)[x].op == Drain(QueueId(AttnQueue, l), [])
  {
    hide ThePlan;
    hide AttnBase;
    forall x | AttnBase(s, env, l) <= x < AttnBase(s, env, l) + n
      ensures x < |ThePlan(s, env)| && ThePlan(s, env)[x].Placed? && ThePlan(s, env)[x].op == Drain(QueueId(AttnQueue, l), [])
    {
      ClaimersPlace(s, env, l, x - AttnBase(s, env, l));
    }
    if n > 0 { ClaimersPlace(s, env, l, n - 1); }
  }

  lemma NotDrainedTo(s: Shape, env: Env, l: nat, cut: nat)
    requires ShapeOk(s) && EnvOk(s, env) && l < s.layers && s.drain[l] && cut <= AttnBase(s, env, l)
    ensures forall x :: 0 <= x < cut && x < |ThePlan(s, env)| ==> !IsDrainOf(ThePlan(s, env)[x], QueueId(AttnQueue, l))
  {
    hide ThePlan;
    hide AttnBase;
    forall x | 0 <= x < cut && x < |ThePlan(s, env)| ensures !IsDrainOf(ThePlan(s, env)[x], QueueId(AttnQueue, l)) {
      NotDrainedBefore(s, env, l, x);
    }
  }

  lemma CanBringUp(s: Shape, env: Env, m: State, cut: nat, l: nat, i: nat)
    requires ShapeOk(s) && EnvOk(s, env) && l < s.layers && i < |AttnTasks(s, env, l)|
    requires s.drain[l] ==> i < s.attnClaimers
    requires |m.cores| == |TheProgram(s, env).lists| && Calm(ThePlan(s, env), m, cut)
    requires cut <= AttnBase(s, env, l) && Satisfied(m, Waits(s, env, AttnTasks(s, env, l)[i]))
    ensures Poised(TheProgram(s, env), ThePlan(s, env), m, QueueOf(s, l), AttnBase(s, env, l), i, TaskNode(s, env, l, i))
  {
    hide AttnTasks;
    hide ThePlan;
    hide TheProgram;
    hide AttnBase;
    hide Waits;
    hide Compile;
    hide Satisfied;
    hide Idling;
    hide Realises;
    Sound(s, env);
    ShapeOfPlan(TheProgram(s, env), ThePlan(s, env));
    TaskPlace(s, env, l, i);
    TaskIsTask(s, env, l, i);
    if s.drain[l] { ClaimersIdle(s, env, m, cut, l, i); }
  }

  /** Some claimer can get as far as this task. */
  predicate Reachable(s: Shape, env: Env, l: nat, i: nat)
    requires ShapeOk(s) && EnvOk(s, env)
  {
    l < s.layers && i < |AttnTasks(s, env, l)| && (s.drain[l] ==> i < s.attnClaimers)
  }

  predicate IdleTask(s: Shape, env: Env, l: nat, i: nat)
    requires ShapeOk(s) && EnvOk(s, env)
  {
    Reachable(s, env, l, i) && Idle(env, AttnTasks(s, env, l)[i])
  }

  /** The i-th attention task of layer l is at work after these choices. */
  ghost predicate Working(s: Shape, env: Env, choices: seq<nat>, l: nat, i: nat)
    requires ShapeOk(s) && EnvOk(s, env)
  {
    && l < s.layers && Exec(TheProgram(s, env), choices).Some? && TaskNode(s, env, l, i) < |ThePlan(s, env)|
    && AtWork(TheProgram(s, env), ThePlan(s, env), Exec(TheProgram(s, env), choices).value, TaskNode(s, env, l, i))
  }

  ghost predicate Ready(s: Shape, env: Env, choices: seq<nat>, l: nat, i: nat)
    requires ShapeOk(s) && EnvOk(s, env)
  {
    && l < s.layers && Exec(TheProgram(s, env), choices).Some?
    && Poised(TheProgram(s, env), ThePlan(s, env), Exec(TheProgram(s, env), choices).value,
              QueueOf(s, l), AttnBase(s, env, l), i, TaskNode(s, env, l, i))
  }

  lemma IdleWaits(s: Shape, env: Env, l: nat, i: nat)
    requires ShapeOk(s) && EnvOk(s, env) && IdleTask(s, env, l, i)
    ensures Waits(s, env, AttnTasks(s, env, l)[i]) == []
  {
  }

  lemma ExecNone(p: Program)
    requires WellFormed(p)
    ensures Exec(p, []) == Some(Start(p))
  {
  }

  /** An idle task can be brought to work before anything else has happened. */
  lemma IdleFirst(s: Shape, env: Env, l: nat, i: nat) returns (choices: seq<nat>)
    requires ShapeOk(s) && EnvOk(s, env) && IdleTask(s, env, l, i)
    ensures Working(s, env, choices, l, i) && Exec(TheProgram(s, env), choices).value.fired == {}
  {
    hide AttnTasks;
    hide ThePlan;
    hide TheProgram;
    hide AttnBase;
    hide Idle;
    hide Realises;
    Sound(s, env);
    StartCalm(TheProgram(s, env), ThePlan(s, env), 0);
    IdleWaits(s, env, l, i);
    CanBringUp(s, env, Start(TheProgram(s, env)), 0, l, i);
    ExecNone(TheProgram(s, env));
    choices := BringUp(TheProgram(s, env), ThePlan(s, env), [], QueueOf(s, l), AttnBase(s, env, l), i, TaskNode(s, env, l, i));
  }

  /** Everything before layer k's attention has finished, and both tasks are next. */
  lemma BothReady(s: Shape, env: Env, k: nat, i: nat, l: nat, j: nat) returns (choices: seq<nat>)
    requires ShapeOk(s) && EnvOk(s, env) && k < l && Reachable(s, env, k, i) && IdleTask(s, env, l, j)
    ensures Ready(s, env, choices, k, i) && Ready(s, env, choices, l, j)
  {
    hide AttnTasks;
    hide ThePlan;
    hide TheProgram;
    hide AttnBase;
    hide TaskNode;
    hide Idle;
    hide Realises;
    hide Supplied;
    hide DrainsFirst;
    hide Solo;
    hide NoSync;
    hide Waits;
    hide Calm;
    hide Inv;
    hide Exec;
    hide EventAt;
    hide Poised;
    var p, plan := TheProgram(s, env), ThePlan(s, env);
    var a := AttnBase(s, env, k);
    Sound(s, env);
    BasesRise(s, env, k, l);
    StartCalm(p, plan, a);
    ExecNone(p);
    choices := RunUpTo(p, plan, a, []);
    var m := Exec(p, choices).value;
    RunInv(p, choices);
    WaitsHold(s, env, m, k, i);
    CanBringUp(s, env, m, a, k, i);
    IdleWaits(s, env, l, j);
    CanBringUp(s, env, m, a, l, j);
  }

  /** Only the first i + 1 claimers of layer l have moved from one state to the other. */
  ghost predicate Claimed(s: Shape, env: Env, first: seq<nat>, second: seq<nat>, l: nat, i: nat)
    requires ShapeOk(s) && EnvOk(s, env)
  {
    && l < s.layers && Exec(TheProgram(s, env), first).Some? && Exec(TheProgram(s, env), second).Some?
    && AttnBase(s, env, l) + i + 1 <= |ThePlan(s, env)|
    && Took(TheProgram(s, env), ThePlan(s, env), Exec(TheProgram(s, env), first).value,
            Exec(TheProgram(s, env), second).value, QueueId(AttnQueue, l), AttnBase(s, env, l), i + 1)
  }

  lemma BringTask(s: Shape, env: Env, first: seq<nat>, l: nat, i: nat) returns (second: seq<nat>)
    requires ShapeOk(s) && EnvOk(s, env) && Ready(s, env, first, l, i)
    ensures Working(s, env, second, l, i)
    ensures if s.drain[l] then Claimed(s, env, first, second, l, i) else second == first
  {
    hide ThePlan;
    hide TheProgram;
    hide AttnBase;
    hide TaskNode;
    hide Realises;
    hide Solo;
    hide Exec;
    hide AtWork;
    hide Took;
    Sound(s, env);
    second := BringUp(TheProgram(s, env), ThePlan(s, env), first, QueueOf(s, l), AttnBase(s, env, l), i, TaskNode(s, env, l, i));
  }

  /** An idle task can be brought to work beside any attention task of an earlier layer. */
  lemma IdleBeside(s: Shape, env: Env, k: nat, i: nat, l: nat, j: nat) returns (choices: seq<nat>)
    requires ShapeOk(s) && EnvOk(s, env) && k < l && Reachable(s, env, k, i) && IdleTask(s, env, l, j)
    ensures Working(s, env, choices, k, i) && Working(s, env, choices, l, j)
  {
    hide AttnTasks;
    hide Working;
    hide Ready;
    hide Claimed;
    hide Idle;
    var first := BothReady(s, env, k, i, l, j);
    var second := BringTask(s, env, first, k, i);
    if s.drain[k] { NextStaysReady(s, env, first, second, k, i, l, j); }
    choices := BringTask(s, env, second, l, j);
    if s.drain[l] { FirstStaysWorking(s, env, second, choices, k, i, l, j); }
  }

  lemma NextStaysReady(s: Shape, env: Env, first: seq<nat>, second: seq<nat>, k: nat, i: nat, l: nat, j: nat)
    requires ShapeOk(s) && EnvOk(s, env) && k < l && Reachable(s, env, k, i) && s.drain[k] && Ready(s, env, first, l, j)
    requires Claimed(s, env, first, second, k, i)
    ensures Ready(s, env, second, l, j)
  {
    hide AttnTasks;
    hide ThePlan;
    hide TheProgram;
    hide AttnBase;
    hide Realises;
    hide Solo;
    hide Exec;
    hide Poised;
    hide Took;
    var p, plan := TheProgram(s, env), ThePlan(s, env);
    Sound(s, env);
    BasesRise(s, env, k, l);
    AttnWave(s, env, k);
    StaysPoised(p, plan, Exec(p, first).value, Exec(p, second).value, QueueId(AttnQueue, k), AttnBase(s, env, k), i + 1,
      QueueOf(s, l), AttnBase(s, env, l), j, TaskNode(s, env, l, j));
  }

  lemma FirstStaysWorking(s: Shape, env: Env, second: seq<nat>, choices: seq<nat>, k: nat, i: nat, l: nat, j: nat)
    requires ShapeOk(s) && EnvOk(s, env) && k < l && Reachable(s, env, k, i) && Reachable(s, env, l, j) && s.drain[l]
    requires Working(s, env, second, k, i) && Claimed(s, env, second, choices, l, j)
    ensures Working(s, env, choices, k, i)
  {
    hide Compile;
    hide Inv;
    hide TaskNode;
    hide AttnTasks;
    hide ThePlan;
    hide TheProgram;
    hide AttnBase;
    hide Realises;
    hide Solo;
    hide Exec;
    hide AtWork;
    hide Took;
    var p, plan := TheProgram(s, env), ThePlan(s, env);
    var b := AttnBase(s, env, l);
    Sound(s, env);
    ShapeOfPlan(p, plan);
    ClaimersAll(s, env, l, j + 1);
    NodeElsewhere(s, env, k, i, l, j);
    StaysAtWork(p, plan, Exec(p, second).value, Exec(p, choices).value, QueueId(AttnQueue, l), b, j + 1, TaskNode(s, env, k, i));
  }

  /** Tasks of an earlier layer are no claimers of a later one, nor in its queue. */
  lemma NodeElsewhere(s: Shape, env: Env, k: nat, i: nat, l: nat, j: nat)
    requires ShapeOk(s) && EnvOk(s, env) && k < l && Reachable(s, env, k, i) && Reachable(s, env, l, j)
    ensures TaskNode(s, env, k, i) < AttnBase(s, env, l) && TaskNode(s, env, k, i) < |ThePlan(s, env)|
    ensures ThePlan(s, env)[TaskNode(s, env, k, i)].Queued? ==> ThePlan(s, env)[TaskNode(s, env, k, i)].queue != QueueId(AttnQueue, l)
  {
    hide AttnTasks;
    hide ThePlan;
    hide AttnBase;
    hide Compile;
    BasesRise(s, env, k, l);
    AttnWave(s, env, k);
    TaskPlace(s, env, k, i);
  }
}
