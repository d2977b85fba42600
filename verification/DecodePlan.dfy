/** Lays out a list of waves, placed on SMs in any way, as one plan. */
module DecodePlan {
  import opened Wrappers
  import opened Machine
  import opened Progress
  import opened Schedule
  import opened Arrivals
  import opened LayerArrivals

  /** Which SM each instruction of each wave goes to. */
  type Owners = seq<seq<nat>>

  predicate OwnersFit(waves: seq<seq<Inst>>, owners: Owners, sms: nat) {
    && |owners| == |waves|
    && (forall k :: 0 <= k < |waves| ==> |owners[k]| == |waves[k]|)
    && (forall k, i :: 0 <= k < |waves| && 0 <= i < |owners[k]| ==> owners[k][i] < sms)
  }

  function WaveNodes(s: Shape, env: Env, w: seq<Inst>, owner: seq<nat>): seq<Node>
    requires ShapeOk(s) && |w| == |owner|
  {
    seq(|w|, i requires 0 <= i < |w| => Placed(owner[i], Compile(s, env, w[i])))
  }

  function TaskNodes(s: Shape, env: Env, q: QueueId, tasks: seq<Inst>): seq<Node>
    requires ShapeOk(s)
  {
    seq(|tasks|, i requires 0 <= i < |tasks| => Queued(q, i, Compile(s, env, tasks[i])))
  }

  function QueueNodes(s: Shape, env: Env, w: seq<Inst>): seq<Node>
    requires ShapeOk(s) && EnvOk(s, env)
  {
    match DrainedBy(w)
    case Some(q) => TaskNodes(s, env, q, QueueTasks(s, env, q))
    case None => []
  }

  function SyncNodes(sms: nat): seq<Node> {
    seq(sms, (j: nat) => Placed(j, Sync))
  }

  /** GRID_SYNC copies stand between waves when the ablation is on. */
  function SyncsBeforeWave(k: nat, sms: nat, ablation: bool): seq<Node> {
    if ablation && k > 0 then SyncNodes(sms) else []
  }

  function PlanOf(s: Shape, env: Env, waves: seq<seq<Inst>>, owners: Owners, sms: nat, ablation: bool): seq<Node>
    requires ShapeOk(s) && EnvOk(s, env) && OwnersFit(waves, owners, sms)
  {
    if waves == [] then [] else
    var k := |waves| - 1;
    PlanOf(s, env, waves[..k], owners[..k], sms, ablation) +
    SyncsBeforeWave(k, sms, ablation) +
    WaveNodes(s, env, waves[k], owners[k]) +
    QueueNodes(s, env, waves[k])
  }

  // ---- tallies of a plan ----

  lemma {:induction false} TallyConcat(a: seq<Node>, b: seq<Node>, bar: Bar)
    ensures Tally(a + b, bar) == Tally(a, bar) + Tally(b, bar)
  {
    if b == [] {
      assert a + b == a;
    } else {
      var n := |b| - 1;
      assert (a + b)[..|a + b| - 1] == a + b[..n];
      TallyConcat(a, b[..n], bar);
    }
  }

  lemma ArrivalOfCompile(s: Shape, env: Env, x: Inst)
    requires ShapeOk(s)
    ensures Arrival(Compile(s, env, x)) == Arrive(s, x)
  {
  }

  lemma {:induction false} TallyNodes(s: Shape, env: Env, xs: seq<Inst>, nodes: seq<Node>, bar: Bar)
    requires ShapeOk(s) && |nodes| == |xs|
    requires forall i :: 0 <= i < |xs| ==> nodes[i].op == Compile(s, env, xs[i])
    ensures Tally(nodes, bar) == Hits(s, xs, bar)
  {
    hide Compile;
    if xs != [] {
      var n := |xs| - 1;
      TallyNodes(s, env, xs[..n], nodes[..n], bar);
      ArrivalOfCompile(s, env, xs[n]);
    }
  }

  lemma {:induction false} TallySyncs(nodes: seq<Node>, bar: Bar)
    requires forall i :: 0 <= i < |nodes| ==> nodes[i].op == Sync
    ensures Tally(nodes, bar) == 0
  {
    if nodes != [] { TallySyncs(nodes[..|nodes| - 1], bar); }
  }

  lemma SegmentTally(s: Shape, env: Env, w: seq<Inst>, owner: seq<nat>, bar: Bar)
    requires ShapeOk(s) && EnvOk(s, env) && |w| == |owner|
    ensures Tally(WaveNodes(s, env, w, owner) + QueueNodes(s, env, w), bar) == WaveHits(s, env, w, bar)
  {
    TallyConcat(WaveNodes(s, env, w, owner), QueueNodes(s, env, w), bar);
    TallyNodes(s, env, w, WaveNodes(s, env, w, owner), bar);
    if DrainedBy(w).Some? {
      var q := DrainedBy(w).value;
      TallyNodes(s, env, QueueTasks(s, env, q), QueueNodes(s, env, w), bar);
    }
  }

  lemma {:induction false} PlanTally(s: Shape, env: Env, waves: seq<seq<Inst>>, owners: Owners, sms: nat,
                                     ablation: bool, bar: Bar)
    requires ShapeOk(s) && EnvOk(s, env) && OwnersFit(waves, owners, sms)
    ensures Tally(PlanOf(s, env, waves, owners, sms, ablation), bar) == FlatHits(s, env, waves, bar)
  {
    hide WaveHits;
    hide WaveNodes;
    hide QueueNodes;
    if waves != [] {
      var k := |waves| - 1;
      var before := PlanOf(s, env, waves[..k], owners[..k], sms, ablation);
      var syncs := SyncsBeforeWave(k, sms, ablation);
      var nodes, tasks := WaveNodes(s, env, waves[k], owners[k]), QueueNodes(s, env, waves[k]);
      PlanTally(s, env, waves[..k], owners[..k], sms, ablation, bar);
      assert before + syncs + nodes + tasks == (before + syncs) + (nodes + tasks);
      TallyConcat(before + syncs, nodes + tasks, bar);
      TallyConcat(before, syncs, bar);
      TallySyncs(syncs, bar);
      SegmentTally(s, env, waves[k], owners[k], bar);
    }
  }

  // ---- supply ----

  predicate WaitsMet(s: Shape, env: Env, earlier: seq<seq<Inst>>, waits: seq<Wait>)
    requires ShapeOk(s) && EnvOk(s, env)
  {
    forall i :: 0 <= i < |waits| ==> waits[i].target <= FlatHits(s, env, earlier, waits[i].bar)
  }

  /** What an instruction waits for, and what every entry it may claim waits for, has
      been supplied by earlier waves. */
  ghost predicate InstMet(s: Shape, env: Env, earlier: seq<seq<Inst>>, x: Inst)
    requires ShapeOk(s) && EnvOk(s, env)
  {
    && WaitsMet(s, env, earlier, Waits(s, env, x))
    && (DrainQueue(x).Some? ==>
          forall t :: t in QueueTasks(s, env, DrainQueue(x).value) ==>
            WaitsMet(s, env, earlier, Waits(s, env, t)))
  }

  ghost predicate WavesMet(s: Shape, env: Env, waves: seq<seq<Inst>>)
    requires ShapeOk(s) && EnvOk(s, env)
  {
    forall k, i :: 0 <= k < |waves| && 0 <= i < |waves[k]| ==>
      InstMet(s, env, waves[..k], waves[k][i])
  }

  /** A wave is all claimers of one queue or has none; no queue is drained twice;
      queue entries are plain tasks. */
  ghost predicate WavesShaped(s: Shape, env: Env, waves: seq<seq<Inst>>)
    requires ShapeOk(s) && EnvOk(s, env)
  {
    && (forall k, i :: 0 <= k < |waves| && 0 <= i < |waves[k]| ==>
          DrainQueue(waves[k][i]) == DrainedBy(waves[k]) && !waves[k][i].GridSync?)
    && (forall a, b :: 0 <= a < b < |waves| && DrainedBy(waves[a]).Some? ==>
          DrainedBy(waves[a]) != DrainedBy(waves[b]))
    && (forall k :: 0 <= k < |waves| && DrainedBy(waves[k]).Some? ==>
          forall t :: t in QueueTasks(s, env, DrainedBy(waves[k]).value) ==>
            DrainQueue(t).None? && !t.GridSync?)
  }

  function DrainedSet(waves: seq<seq<Inst>>): set<QueueId> {
    set k | 0 <= k < |waves| && DrainedBy(waves[k]).Some? :: DrainedBy(waves[k]).value
  }

  function CompiledQueue(s: Shape, env: Env, q: QueueId): (r: seq<Op>)
    requires ShapeOk(s) && EnvOk(s, env)
    ensures |r| == |QueueTasks(s, env, q)|
    ensures forall e :: 0 <= e < |r| ==> r[e] == Compile(s, env, QueueTasks(s, env, q)[e])
  {
    var tasks := QueueTasks(s, env, q);
    seq(|tasks|, i requires 0 <= i < |tasks| => Compile(s, env, tasks[i]))
  }

  /** The program the SMs run: their lists, and the queues the claimers share. */
  function ProgramOf(s: Shape, env: Env, waves: seq<seq<Inst>>, owners: Owners, sms: nat, ablation: bool): Program
    requires ShapeOk(s) && EnvOk(s, env) && OwnersFit(waves, owners, sms)
  {
    var plan := PlanOf(s, env, waves, owners, sms, ablation);
    Program(seq(sms, (j: nat) => ListOf(plan, j)),
            map q | q in DrainedSet(waves) :: CompiledQueue(s, env, q))
  }

  // ---- the plan is well formed ----

  /** The nodes of a plan, whatever their order. */
  ghost predicate NodesOk(s: Shape, env: Env, waves: seq<seq<Inst>>, plan: seq<Node>, sms: nat)
    requires ShapeOk(s) && EnvOk(s, env)
  {
    && (forall y :: 0 <= y < |plan| && plan[y].Placed? ==> plan[y].sm < sms)
    && (forall y :: 0 <= y < |plan| && plan[y].Placed? && plan[y].op.Drain? ==>
          plan[y].op.queue in DrainedSet(waves))
    && (forall y :: 0 <= y < |plan| && plan[y].Queued? ==>
          && plan[y].queue in DrainedSet(waves)
          && plan[y].entry < |QueueTasks(s, env, plan[y].queue)|
          && plan[y].op == Compile(s, env, QueueTasks(s, env, plan[y].queue)[plan[y].entry]))
  }

  ghost predicate HasAllEntries(s: Shape, env: Env, plan: seq<Node>, q: QueueId)
    requires ShapeOk(s) && EnvOk(s, env)
  {
    forall e :: 0 <= e < |QueueTasks(s, env, q)| ==>
      Queued(q, e, Compile(s, env, QueueTasks(s, env, q)[e])) in plan
  }

  ghost predicate EntriesOnce(plan: seq<Node>) {
    forall x, y :: 0 <= x < y < |plan| && plan[x].Queued? && plan[y].Queued? ==>
      plan[x].queue != plan[y].queue || plan[x].entry != plan[y].entry
  }

  ghost predicate PlanShape(s: Shape, env: Env, waves: seq<seq<Inst>>, plan: seq<Node>, sms: nat)
    requires ShapeOk(s) && EnvOk(s, env)
  {
    && NodesOk(s, env, waves, plan, sms)
    && (forall q :: q in DrainedSet(waves) ==> HasAllEntries(s, env, plan, q))
    && EntriesOnce(plan)
    && DrainsFirst(plan)
  }

  lemma DrainedSetStep(waves: seq<seq<Inst>>)
    requires waves != []
    ensures var k := |waves| - 1;
      DrainedSet(waves) == DrainedSet(waves[..k]) +
        (if DrainedBy(waves[k]).Some? then {DrainedBy(waves[k]).value} else {})
  {
  }

  /** What one more wave contributes: syncs, its own nodes, and its queue's entries. */
  ghost predicate SegmentOk(s: Shape, env: Env, drained: Option<QueueId>, syncs: seq<Node>, nodes: seq<Node>,
                            tasks: seq<Node>, sms: nat)
    requires ShapeOk(s) && EnvOk(s, env)
  {
    && (forall y :: 0 <= y < |syncs| ==> syncs[y].Placed? && syncs[y].sm < sms && syncs[y].op == Sync)
    && (forall y :: 0 <= y < |nodes| ==> nodes[y].Placed? && nodes[y].sm < sms)
    && (forall y :: 0 <= y < |nodes| ==>
          if drained.Some? then IsDrainOf(nodes[y], drained.value) else !nodes[y].op.Drain?)
    && (drained.None? ==> tasks == [])
    && (drained.Some? ==>
          && nodes != []
          && |tasks| == |QueueTasks(s, env, drained.value)|
          && forall e :: 0 <= e < |tasks| ==>
            tasks[e] == Queued(drained.value, e, Compile(s, env, QueueTasks(s, env, drained.value)[e])))
  }

  lemma SegmentNodes(s: Shape, env: Env, w: seq<Inst>, owner: seq<nat>, syncs: seq<Node>, sms: nat)
    requires ShapeOk(s) && EnvOk(s, env) && |w| == |owner|
    requires forall i :: 0 <= i < |owner| ==> owner[i] < sms
    requires forall i :: 0 <= i < |w| ==> DrainQueue(w[i]) == DrainedBy(w) && !w[i].GridSync?
    requires syncs == [] || syncs == SyncNodes(sms)
    ensures SegmentOk(s, env, DrainedBy(w), syncs, WaveNodes(s, env, w, owner), QueueNodes(s, env, w), sms)
  {
    hide QueueTasks;
    hide Waits;
    hide Arrive;
  }

  lemma ExtendShape(s: Shape, env: Env, waves: seq<seq<Inst>>, before: seq<Node>, syncs: seq<Node>,
                    nodes: seq<Node>, tasks: seq<Node>, sms: nat)
    requires ShapeOk(s) && EnvOk(s, env) && waves != []
    requires PlanShape(s, env, waves[..|waves| - 1], before, sms)
    requires SegmentOk(s, env, DrainedBy(waves[|waves| - 1]), syncs, nodes, tasks, sms)
    requires DrainedBy(waves[|waves| - 1]).Some? ==>
      DrainedBy(waves[|waves| - 1]).value !in DrainedSet(waves[..|waves| - 1])
    ensures PlanShape(s, env, waves, before + syncs + nodes + tasks, sms)
  {
    hide Compile;
    hide QueueTasks;
    hide DrainedBy;
    hide DrainedSet;
    var drained := DrainedBy(waves[|waves| - 1]);
    var earlier := DrainedSet(waves[..|waves| - 1]);
    var all := DrainedSet(waves);
    DrainedSetStep(waves);
    ExtendNodes(s, env, waves, before, syncs, nodes, tasks, sms);
    var plan := before + syncs + nodes + tasks;
    forall q | q in all ensures HasAllEntries(s, env, plan, q) {
      if q in earlier {
        KeepEntries(s, env, before, syncs + nodes + tasks, q);
        assert before + (syncs + nodes + tasks) == plan;
      } else {
        NewEntries(s, env, before + syncs + nodes, tasks, q);
      }
    }
    ExtendOnce(s, env, earlier, drained, before, syncs, nodes, tasks, sms);
    ExtendDrains(s, env, earlier, drained, before, syncs, nodes, tasks, sms);
  }

  lemma KeepEntries(s: Shape, env: Env, before: seq<Node>, after: seq<Node>, q: QueueId)
    requires ShapeOk(s) && EnvOk(s, env) && HasAllEntries(s, env, before, q)
    ensures HasAllEntries(s, env, before + after, q)
  {
    hide Compile;
    hide QueueTasks;
  }

  lemma NewEntries(s: Shape, env: Env, before: seq<Node>, tasks: seq<Node>, q: QueueId)
    requires ShapeOk(s) && EnvOk(s, env)
    requires |tasks| == |QueueTasks(s, env, q)|
    requires forall e :: 0 <= e < |tasks| ==>
      tasks[e] == Queued(q, e, Compile(s, env, QueueTasks(s, env, q)[e]))
    ensures HasAllEntries(s, env, before + tasks, q)
  {
    hide Compile;
    hide QueueTasks;
    forall e | 0 <= e < |QueueTasks(s, env, q)|
      ensures Queued(q, e, Compile(s, env, QueueTasks(s, env, q)[e])) in before + tasks
    {
      assert tasks[e] in tasks;
    }
  }

  lemma ExtendNodes(s: Shape, env: Env, waves: seq<seq<Inst>>, before: seq<Node>, syncs: seq<Node>,
                    nodes: seq<Node>, tasks: seq<Node>, sms: nat)
    requires ShapeOk(s) && EnvOk(s, env) && waves != []
    requires NodesOk(s, env, waves[..|waves| - 1], before, sms)
    requires SegmentOk(s, env, DrainedBy(waves[|waves| - 1]), syncs, nodes, tasks, sms)
    ensures NodesOk(s, env, waves, before + syncs + nodes + tasks, sms)
  {
    hide Compile;
    hide QueueTasks;
    hide DrainedBy;
    hide DrainedSet;
    DrainedSetStep(waves);
    var plan := before + syncs + nodes + tasks;
    forall y | 0 <= y < |plan|
      ensures plan[y] in before || plan[y] in syncs || plan[y] in nodes || plan[y] in tasks
    {}
    var drained := DrainedBy(waves[|waves| - 1]);
    assert drained.Some? ==> drained.value in DrainedSet(waves);
    assert forall q :: q in DrainedSet(waves[..|waves| - 1]) ==> q in DrainedSet(waves);
  }

  lemma ExtendOnce(s: Shape, env: Env, earlier: set<QueueId>, drained: Option<QueueId>, before: seq<Node>,
                   syncs: seq<Node>, nodes: seq<Node>, tasks: seq<Node>, sms: nat)
    requires ShapeOk(s) && EnvOk(s, env) && EntriesOnce(before)
    requires forall y :: 0 <= y < |before| && before[y].Queued? ==> before[y].queue in earlier
    requires SegmentOk(s, env, drained, syncs, nodes, tasks, sms)
    requires drained.Some? ==> drained.value !in earlier
    ensures EntriesOnce(before + syncs + nodes + tasks)
  {
    hide Compile;
    hide QueueTasks;
    var plan := before + syncs + nodes + tasks;
    var base := |before + syncs + nodes|;
    forall x, y | 0 <= x < y < |plan| && plan[x].Queued? && plan[y].Queued?
      ensures plan[x].queue != plan[y].queue || plan[x].entry != plan[y].entry
    {
      if y < |before| {
        assert plan[x] == before[x] && plan[y] == before[y];
      } else {
        assert y >= base && plan[y] == tasks[y - base];
        if x < |before| { assert plan[x] == before[x]; }
        else { assert x >= base && plan[x] == tasks[x - base]; }
      }
    }
  }

  lemma ExtendDrains(s: Shape, env: Env, earlier: set<QueueId>, drained: Option<QueueId>, before: seq<Node>,
                     syncs: seq<Node>, nodes: seq<Node>, tasks: seq<Node>, sms: nat)
    requires ShapeOk(s) && EnvOk(s, env) && DrainsFirst(before)
    requires forall y :: 0 <= y < |before| && before[y].Queued? ==> before[y].queue in earlier
    requires forall y :: 0 <= y < |before| && before[y].Placed? && before[y].op.Drain? ==>
      before[y].op.queue in earlier
    requires SegmentOk(s, env, drained, syncs, nodes, tasks, sms)
    requires drained.Some? ==> drained.value !in earlier
    ensures DrainsFirst(before + syncs + nodes + tasks)
  {
    hide Compile;
    hide QueueTasks;
    var plan := before + syncs + nodes + tasks;
    var lo, hi := |before + syncs|, |before + syncs + nodes|;
    assert forall x :: 0 <= x < |before| ==> plan[x] == before[x];
    assert forall x :: |before| <= x < lo ==> plan[x] == syncs[x - |before|];
    assert forall x :: lo <= x < hi ==> plan[x] == nodes[x - lo];
    assert forall x :: hi <= x < |plan| ==> plan[x] == tasks[x - hi];
    forall y | 0 <= y < |plan| && plan[y].Queued?
      ensures forall x :: 0 <= x < |plan| && IsDrainOf(plan[x], plan[y].queue) ==> x < y
      ensures exists x :: 0 <= x < |plan| && IsDrainOf(plan[x], plan[y].queue)
    {
      if y < |before| {
        var x :| 0 <= x < |before| && IsDrainOf(before[x], before[y].queue);
        assert IsDrainOf(plan[x], plan[y].queue);
      } else {
        assert IsDrainOf(plan[lo], plan[y].queue);
      }
    }
  }

  lemma {:induction false} PlanIsShaped(s: Shape, env: Env, waves: seq<seq<Inst>>, owners: Owners, sms: nat, ablation: bool)
    requires ShapeOk(s) && EnvOk(s, env) && OwnersFit(waves, owners, sms) && WavesShaped(s, env, waves)
    ensures PlanShape(s, env, waves, PlanOf(s, env, waves, owners, sms, ablation), sms)
  {
    hide Compile;
    hide QueueTasks;
    hide WaveNodes;
    hide QueueNodes;
    if waves != [] {
      var k := |waves| - 1;
      PlanIsShaped(s, env, waves[..k], owners[..k], sms, ablation);
      SegmentNodes(s, env, waves[k], owners[k], SyncsBeforeWave(k, sms, ablation), sms);
      ExtendShape(s, env, waves, PlanOf(s, env, waves[..k], owners[..k], sms, ablation),
        SyncsBeforeWave(k, sms, ablation), WaveNodes(s, env, waves[k], owners[k]),
        QueueNodes(s, env, waves[k]), sms);
    }
  }

  // ---- the plan lays out the program ----

  lemma PlanRealised(s: Shape, env: Env, waves: seq<seq<Inst>>, owners: Owners, sms: nat, ablation: bool)
    requires ShapeOk(s) && EnvOk(s, env) && OwnersFit(waves, owners, sms) && WavesShaped(s, env, waves)
    ensures Realises(ProgramOf(s, env, waves, owners, sms, ablation),
                     PlanOf(s, env, waves, owners, sms, ablation))
  {
    hide Compile;
    hide QueueTasks;
    hide PlanOf;
    var plan := PlanOf(s, env, waves, owners, sms, ablation);
    var p := ProgramOf(s, env, waves, owners, sms, ablation);
    PlanIsShaped(s, env, waves, owners, sms, ablation);
    forall q, e | q in p.queues && 0 <= e < |p.queues[q]| ensures p.queues[q][e].Task? {
      QueueIsTasks(s, env, waves, q, e);
    }
    forall j, k | 0 <= j < |p.lists| && 0 <= k < |p.lists[j]| && p.lists[j][k].Drain?
      ensures p.lists[j][k].queue in p.queues
    {
      var y := NodeOfRank(plan, j, k);
      RankInList(plan, y);
    }
    forall q, e | q in p.queues && 0 <= e < |p.queues[q]|
      ensures exists y :: 0 <= y < |plan| && plan[y] == Queued(q, e, p.queues[q][e])
    {
      assert HasAllEntries(s, env, plan, q);
      assert Queued(q, e, p.queues[q][e]) in plan;
    }
    assert WellFormed(p);
    assert (forall j :: 0 <= j < |p.lists| ==> p.lists[j] == ListOf(plan, j));
    assert (forall y :: 0 <= y < |plan| && plan[y].Placed? ==> plan[y].sm < |p.lists|);
    assert EntriesOnce(plan);
  }

  lemma QueueIsTasks(s: Shape, env: Env, waves: seq<seq<Inst>>, q: QueueId, e: nat)
    requires ShapeOk(s) && EnvOk(s, env) && WavesShaped(s, env, waves)
    requires q in DrainedSet(waves) && e < |QueueTasks(s, env, q)|
    ensures CompiledQueue(s, env, q)[e].Task?
  {
    hide QueueTasks;
    hide Waits;
    hide Arrive;
    var k :| 0 <= k < |waves| && DrainedBy(waves[k]).Some? && DrainedBy(waves[k]).value == q;
    assert QueueTasks(s, env, q)[e] in QueueTasks(s, env, q);
  }

  // ---- supply carries over to the plan ----

  lemma {:induction false} SuppliedPlan(s: Shape, env: Env, waves: seq<seq<Inst>>, owners: Owners, sms: nat,
                                        ablation: bool, p: Program)
    requires ShapeOk(s) && EnvOk(s, env) && OwnersFit(waves, owners, sms)
    requires WavesShaped(s, env, waves) && WavesMet(s, env, waves)
    requires WellFormed(p)
    requires forall q :: q in p.queues ==> p.queues[q] == CompiledQueue(s, env, q)
    ensures Supplied(p, PlanOf(s, env, waves, owners, sms, ablation))
  {
    hide Compile;
    hide QueueTasks;
    hide WaveNodes;
    hide QueueNodes;
    hide MetBy;
    hide InstMet;
    if waves != [] {
      var k := |waves| - 1;
      var before := PlanOf(s, env, waves[..k], owners[..k], sms, ablation);
      var syncs := SyncsBeforeWave(k, sms, ablation);
      var nodes, tasks := WaveNodes(s, env, waves[k], owners[k]), QueueNodes(s, env, waves[k]);
      forall a, i | 0 <= a < k && 0 <= i < |waves[..k][a]|
        ensures InstMet(s, env, waves[..k][..a], waves[..k][a][i])
      {
        assert waves[..k][..a] == waves[..a];
        assert InstMet(s, env, waves[..a], waves[a][i]);
      }
      SuppliedPlan(s, env, waves[..k], owners[..k], sms, ablation, p);
      assert before + syncs + nodes + tasks == before + (syncs + nodes + tasks);
      forall i | 0 <= i < |waves[k]| ensures InstMet(s, env, waves[..k], waves[k][i]) {}
      forall bar ensures Tally(before, bar) == FlatHits(s, env, waves[..k], bar) {
        PlanTally(s, env, waves[..k], owners[..k], sms, ablation, bar);
      }
      SegmentSupplied(s, env, waves[..k], waves[k], owners[k], before, syncs, p, sms);
      SuppliedExtend(p, before, syncs + nodes + tasks);
    }
  }

  predicate NodeMet(p: Program, prefix: seq<Node>, node: Node)
    requires WellFormed(p)
  {
    node.Placed? ==>
      match node.op
      case Task(waits, _) => MetBy(prefix, waits)
      case Drain(q, gate) =>
        && MetBy(prefix, gate)
        && (q in p.queues ==> forall e :: 0 <= e < |p.queues[q]| ==>
              MetBy(prefix, p.queues[q][e].waits))
      case Sync => true
  }

  lemma MetByMore(a: seq<Node>, b: seq<Node>, waits: seq<Wait>)
    requires MetBy(a, waits)
    ensures MetBy(a + b, waits)
  {
    forall i | 0 <= i < |waits| ensures waits[i].target <= Tally(a + b, waits[i].bar) {
      TallyConcat(a, b, waits[i].bar);
    }
  }

  lemma NodeMetMore(p: Program, a: seq<Node>, b: seq<Node>, node: Node)
    requires WellFormed(p) && NodeMet(p, a, node)
    ensures NodeMet(p, a + b, node)
  {
    hide MetBy;
    if node.Placed? {
      match node.op
      case Task(waits, _) => MetByMore(a, b, waits);
      case Drain(q, gate) =>
        MetByMore(a, b, gate);
        if q in p.queues {
          forall e | 0 <= e < |p.queues[q]| ensures MetBy(a + b, p.queues[q][e].waits) {
            MetByMore(a, b, p.queues[q][e].waits);
          }
        }
      case Sync =>
    }
  }

  lemma SuppliedExtend(p: Program, before: seq<Node>, after: seq<Node>)
    requires WellFormed(p) && Supplied(p, before)
    requires forall y :: 0 <= y < |after| ==> NodeMet(p, before, after[y])
    ensures Supplied(p, before + after)
  {
    hide MetBy;
    var plan := before + after;
    forall y | 0 <= y < |plan| ensures NodeMet(p, plan[..y], plan[y]) {
      if y < |before| {
        assert plan[..y] == before[..y];
        assert plan[y] == before[y];
      } else {
        assert plan[..y] == before + after[..y - |before|];
        NodeMetMore(p, before, after[..y - |before|], after[y - |before|]);
      }
    }
  }

  lemma WaitsToMet(s: Shape, env: Env, earlier: seq<seq<Inst>>, before: seq<Node>, waits: seq<Wait>)
    requires ShapeOk(s) && EnvOk(s, env) && WaitsMet(s, env, earlier, waits)
    requires forall bar :: Tally(before, bar) == FlatHits(s, env, earlier, bar)
    ensures MetBy(before, waits)
  {
  }

  lemma CompileShape(s: Shape, env: Env, x: Inst)
    requires ShapeOk(s)
    ensures match Compile(s, env, x)
      case Task(waits, _) => waits == Waits(s, env, x)
      case Drain(q, gate) => DrainQueue(x) == Some(q) && gate == Waits(s, env, x)
      case Sync => x.GridSync?
  {
  }

  lemma NodeIsMet(s: Shape, env: Env, earlier: seq<seq<Inst>>, before: seq<Node>, x: Inst, j: nat, p: Program)
    requires ShapeOk(s) && EnvOk(s, env) && WellFormed(p) && InstMet(s, env, earlier, x)
    requires forall bar :: Tally(before, bar) == FlatHits(s, env, earlier, bar)
    requires forall q :: q in p.queues ==> p.queues[q] == CompiledQueue(s, env, q)
    ensures NodeMet(p, before, Placed(j, Compile(s, env, x)))
  {
    hide MetBy;
    hide Compile;
    hide Waits;
    hide QueueTasks;
    hide WaitsMet;
    CompileShape(s, env, x);
    WaitsToMet(s, env, earlier, before, Waits(s, env, x));
    if DrainQueue(x).Some? && DrainQueue(x).value in p.queues {
      var q := DrainQueue(x).value;
      var tasks := QueueTasks(s, env, q);
      forall e | 0 <= e < |p.queues[q]| ensures MetBy(before, p.queues[q][e].waits) {
        assert tasks[e] in tasks;
        CompileShape(s, env, tasks[e]);
        WaitsToMet(s, env, earlier, before, Waits(s, env, tasks[e]));
      }
    }
  }

  lemma SegmentSupplied(s: Shape, env: Env, earlier: seq<seq<Inst>>, w: seq<Inst>, owner: seq<nat>,
                        before: seq<Node>, syncs: seq<Node>, p: Program, sms: nat)
    requires ShapeOk(s) && EnvOk(s, env) && |w| == |owner| && WellFormed(p)
    requires forall i :: 0 <= i < |w| ==> InstMet(s, env, earlier, w[i])
    requires forall bar :: Tally(before, bar) == FlatHits(s, env, earlier, bar)
    requires forall q :: q in p.queues ==> p.queues[q] == CompiledQueue(s, env, q)
    requires syncs == [] || syncs == SyncNodes(sms)
    ensures var after := syncs + WaveNodes(s, env, w, owner) + QueueNodes(s, env, w);
      forall y :: 0 <= y < |after| ==> NodeMet(p, before, after[y])
  {
    hide MetBy;
    hide Compile;
    hide QueueTasks;
    hide InstMet;
    hide DrainedBy;
    var nodes := WaveNodes(s, env, w, owner);
    forall y | 0 <= y < |nodes| ensures NodeMet(p, before, nodes[y]) {
      NodeIsMet(s, env, earlier, before, w[y], owner[y], p);
    }
  }
}
