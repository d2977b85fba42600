/** Main results about ordering: no instruction reads a value before every instruction
    that writes it has finished. */
module HappensBefore {
  import opened Arithmetic
  import opened Wrappers
  import opened Machine
  import opened Progress
  import opened History
  import opened Schedule
  import opened Arrivals
  import opened WaveArrivals
  import opened LayerArrivals
  import opened MoeQueues
  import opened DecodePlan
  import opened DecodeSupply
  import opened DecodeShape
  import opened DecodeInsts
  import opened DecodeProgress

  // ---- the arrivals on a counter all come from one layer ----

  lemma BandUnique(bar: Bar, kind: BarKind, l: nat, l': nat, width: nat)
    requires InBand(bar, kind, l, width) && l != l'
    ensures !InBand(bar, kind, l', width)
  {
    if l < l' { MulApart(l, l', width); } else { MulApart(l', l, width); }
  }

  lemma {:induction false} UpQueueOtherLayer(s: Shape, env: Env, l: nat, experts: nat, l': nat, e: nat, b: nat)
    requires ShapeOk(s) && EnvOk(s, env) && l < s.layers && experts <= s.moe.experts && l != l'
    requires e < s.moe.experts && b < BlocksPerExpert(s)
    ensures Hits(s, UpQueue(s, env, l, experts), MoeBlockBar(s, l', e, b)) == 0
  {
    hide BlocksPerExpert;
    var xs := UpQueue(s, env, l, experts);
    forall i | 0 <= i < |xs| ensures Arrive(s, xs[i]) != Some(MoeBlockBar(s, l', e, b)) {
      assert xs[i] in xs;
      UpQueueBlocks(s, env, l, experts, xs[i]);
      BlockBand(s, l, xs[i].expert, xs[i].block);
      BlockBand(s, l', e, b);
      if MoeBlockBar(s, l, xs[i].expert, xs[i].block) == MoeBlockBar(s, l', e, b) {
        BandUnique(MoeBlockBar(s, l', e, b), BMoeUp, l', l, s.moe.experts * BlocksPerExpert(s));
      }
    }
    HitsNone(s, xs, MoeBlockBar(s, l', e, b));
  }

  lemma BlockBand(s: Shape, l: nat, e: nat, b: nat)
    requires ShapeOk(s) && e < s.moe.experts && b < BlocksPerExpert(s)
    ensures InBand(MoeBlockBar(s, l, e, b), BMoeUp, l, s.moe.experts * BlocksPerExpert(s))
  {
    hide BlocksPerExpert;
    MulApart(e, s.moe.experts, BlocksPerExpert(s));
  }

  /** The layer that a counter belongs to. */
  predicate OwnedBy(s: Shape, bar: Bar, l: nat)
    requires ShapeOk(s)
  {
    match bar.kind
    case BQkv => InBand(bar, BQkv, l, s.hkv)
    case BCombine => InBand(bar, BCombine, l, s.batch * s.hkv)
    case BAttn => InBand(bar, BAttn, l, s.oprojSplits)
    case BSilu => InBand(bar, BSilu, l, s.downSplits)
    case BMoeUp => false
    case BLayer => false
    case _ => bar.idx == l
  }

  lemma OtherLayersSilent(s: Shape, env: Env, bar: Bar, l: nat, l': nat)
    requires ShapeOk(s) && EnvOk(s, env) && OwnedBy(s, bar, l) && l' < s.layers && l' != l
    ensures OfLayer(s, env, l', bar) == 0
  {
    hide AttnQueueTasks;
    hide DownTaskCount;
    hide DownWave;
    match bar.kind
    case BQkv => BandUnique(bar, BQkv, l, l', s.hkv);
    case BAttn => BandUnique(bar, BAttn, l, l', s.oprojSplits);
    case BSilu => BandUnique(bar, BSilu, l, l', s.downSplits);
    case BCombine =>
      BandUnique(bar, BCombine, l, l', s.batch * s.hkv);
      QueueElsewhere(s, env, l', s.batch, bar);
    case _ =>
      if IsMoe(s, l') { QueueHits(s, env, l', bar); }
  }

  lemma TotalIsLayers(s: Shape, env: Env, bar: Bar, l: nat)
    requires ShapeOk(s) && EnvOk(s, env) && OwnedBy(s, bar, l) && l < s.layers
    ensures FlatHits(s, env, AllWaves(s), bar) == OfLayer(s, env, l, bar)
  {
    hide OfLayer;
    hide FlatHits;
    forall l' | 0 <= l' < s.layers && l' != l ensures OfLayer(s, env, l', bar) == 0 {
      OtherLayersSilent(s, env, bar, l, l');
    }
    TotalHits(s, env, bar);
    BelowOne(s, env, s.layers, l, bar);
  }

  lemma TotalOnBlock(s: Shape, env: Env, l: nat, e: nat, b: nat)
    requires ShapeOk(s) && EnvOk(s, env) && l < s.layers && IsMoe(s, l)
    requires e < s.moe.experts && b < BlocksPerExpert(s)
    ensures FlatHits(s, env, AllWaves(s), MoeBlockBar(s, l, e, b)) == UpWaitTarget(s, env.routed[l][e], b)
  {
    hide FlatHits;
    hide UpQueue;
    hide BlocksPerExpert;
    hide UpWaitTarget;
    var bar := MoeBlockBar(s, l, e, b);
    forall l' | 0 <= l' < s.layers && l' != l ensures OfLayer(s, env, l', bar) == 0 {
      UpQueueOtherLayer(s, env, l', s.moe.experts, l, e, b);
    }
    TotalHits(s, env, bar);
    BelowOne(s, env, s.layers, l, bar);
    UpQueueHits(s, env, l, s.moe.experts, e, b);
  }

  lemma {:induction false} JoinsBelow(s: Shape, env: Env, n: nat, l: nat)
    requires ShapeOk(s) && EnvOk(s, env) && n <= s.layers && l < s.layers
    ensures Below(s, env, n, Bar(BLayer, l)) ==
      (if 0 < l <= n then s.batch else 0) + (if n == s.layers && l == s.layers - 1 then s.batch else 0)
  {
    if n > 0 { JoinsBelow(s, env, n - 1, l); }
  }

  // ---- a run of the decode program ----

  datatype Run = Run(s: Shape, env: Env, owners: Owners, sms: nat, ablation: bool, choices: seq<nat>)

  ghost predicate RunOk(r: Run) {
    && ShapeOk(r.s) && EnvOk(r.s, r.env) && OwnersFit(AllWaves(r.s), r.owners, r.sms)
    && Exec(Decode(r.s, r.env, r.owners, r.sms, r.ablation), r.choices).Some?
  }

  ghost function Prog(r: Run): Program requires RunOk(r) {
    Decode(r.s, r.env, r.owners, r.sms, r.ablation)
  }

  ghost function Plan(r: Run): seq<Node> requires RunOk(r) {
    DecodePlanOf(r.s, r.env, r.owners, r.sms, r.ablation)
  }

  ghost function St(r: Run): State requires RunOk(r) {
    Exec(Prog(r), r.choices).value
  }

  ghost function Insts(r: Run): seq<Inst> requires RunOk(r) {
    InstsOf(r.s, r.env, AllWaves(r.s), r.sms, r.ablation)
  }

  /** The node at y has finished. */
  ghost predicate Done(r: Run, y: nat) requires RunOk(r) {
    y < |Plan(r)| && EventAt(Plan(r), y) in St(r).fired
  }

  /** The waits of the instruction at y hold in the state of the run; a queue entry has
      also been claimed. That is so from the moment it may start. */
  ghost predicate MayStart(r: Run, y: nat) requires RunOk(r) {
    && y < |Plan(r)| && y < |Insts(r)|
    && Satisfied(St(r), Waits(r.s, r.env, Insts(r)[y]))
    && (Plan(r)[y].Queued? ==> Plan(r)[y].entry < Head(St(r), Plan(r)[y].queue))
  }

  lemma Facts(r: Run)
    requires RunOk(r)
    ensures Realises(Prog(r), Plan(r)) && Inv(Prog(r), St(r))
    ensures FiredJustified(Prog(r), St(r)) && GatesOpen(Prog(r), St(r))
    ensures Behind(r.s, r.env, Plan(r), Insts(r))
  {
    DecodeRealised(r.s, r.env, r.owners, r.sms, r.ablation);
    RunInv(Prog(r), r.choices);
    RunHistory(Prog(r), r.choices);
    PlanBehind(r.s, r.env, AllWaves(r.s), r.owners, r.sms, r.ablation);
  }

  lemma BuiltAt(r: Run, y: nat)
    requires RunOk(r) && y < |Insts(r)|
    ensures Built(r.s, r.env, Insts(r)[y])
  {
    hide InstsOf;
    hide Built;
    assert Insts(r)[y] in Insts(r);
    BuiltAll(r.s, r.env, r.sms, r.ablation, Insts(r)[y]);
  }

  /** A finished task may start: its waits still hold. */
  lemma DoneMayStart(r: Run, y: nat)
    requires RunOk(r) && Done(r, y) && y < |Insts(r)|
    requires DrainQueue(Insts(r)[y]).None? && Insts(r)[y] != GridSync
    ensures MayStart(r, y)
  {
    hide Waits;
    hide DecodePlanOf;
    hide Decode;
    hide InstsOf;
    hide Exec;
    hide RunOk;
    hide Satisfied;
    Facts(r);
    PlanEventsValid(Prog(r), Plan(r), y);
  }

  /** SM j is about to run the instruction at y: the task it stands at, or the entry it holds. */
  ghost predicate AboutToRun(r: Run, y: nat, j: nat)
    requires RunOk(r)
  {
    && y < |Plan(r)| && j < |Prog(r).lists| && j < |St(r).cores|
    && St(r).cores[j].pos < |Prog(r).lists[j]|
    && (match EventAt(Plan(r), y)
        case Slot(i, k) => i == j && k == St(r).cores[j].pos && Prog(r).lists[j][k].Task?
        case Claim(q, e) => HoldsEntry(Prog(r), St(r), j, q, e))
  }

  /** An SM that can run the task it stands at, or the entry it holds, may start it. */
  lemma CanStepMayStart(r: Run, y: nat, j: nat)
    requires RunOk(r) && y < |Insts(r)| && AboutToRun(r, y, j)
    requires Step(Prog(r), St(r), j).Some?
    ensures MayStart(r, y)
  {
    hide Waits;
    hide DecodePlanOf;
    hide Decode;
    hide InstsOf;
    hide Exec;
    hide RunOk;
    hide Satisfied;
    Facts(r);
    PlanEventsValid(Prog(r), Plan(r), y);
  }

  /** Once a wait for all the arrivals there are holds, every producer has finished. */
  lemma ProducersDone(r: Run, w: Wait, z: nat)
    requires RunOk(r) && Satisfied(St(r), [w]) && z < |Insts(r)|
    requires FlatHits(r.s, r.env, AllWaves(r.s), w.bar) <= w.target
    requires Arrive(r.s, Insts(r)[z]) == Some(w.bar)
    ensures Done(r, z)
  {
    hide Arrive;
    hide Decode;
    hide InstsOf;
    hide Exec;
    hide Satisfied;
    hide AllWaves;
    Facts(r);
    PlanTally(r.s, r.env, AllWaves(r.s), r.owners, r.sms, r.ablation, w.bar);
    AllProducersFired(Prog(r), Plan(r), St(r), w);
    PlanEventsValid(Prog(r), Plan(r), z);
    ArrivalOfCompile(r.s, r.env, Insts(r)[z]);
  }

  /** The same for a counter that one layer owns. */
  lemma LayerProducersDone(r: Run, w: Wait, l: nat, z: nat)
    requires RunOk(r) && l < r.s.layers && OwnedBy(r.s, w.bar, l) && z < |Insts(r)|
    requires Satisfied(St(r), [w]) && OfLayer(r.s, r.env, l, w.bar) <= w.target
    requires Arrive(r.s, Insts(r)[z]) == Some(w.bar)
    ensures Done(r, z)
  {
    hide OfLayer;
    hide OwnedBy;
    hide Arrive;
    hide RunOk;
    hide Satisfied;
    TotalIsLayersOf(r, w.bar, l);
    ProducersDone(r, w, z);
  }

  lemma TotalIsLayersOf(r: Run, bar: Bar, l: nat)
    requires RunOk(r) && l < r.s.layers && OwnedBy(r.s, bar, l)
    ensures FlatHits(r.s, r.env, AllWaves(r.s), bar) == OfLayer(r.s, r.env, l, bar)
  {
    TotalIsLayers(r.s, r.env, bar, l);
  }

  lemma OneOf(m: State, waits: seq<Wait>, i: nat)
    requires Satisfied(m, waits) && i < |waits|
    ensures Satisfied(m, [waits[i]])
  {
    OneWait(m, waits[i]);
  }
}
