/** Ablation barriers: every SM meets every GRID_SYNC generation at the same place. */
module SyncPlan {
  import opened Wrappers
  import opened Machine
  import opened Progress
  import opened Schedule
  import opened LayerArrivals
  import opened DecodePlan

  function SyncsIn(ops: seq<Op>): nat { SyncsBefore(ops, |ops|) }

  lemma {:induction false} SyncsInConcat(a: seq<Op>, b: seq<Op>)
    ensures SyncsIn(a + b) == SyncsIn(a) + SyncsIn(b)
  {
    if b == [] {
      assert a + b == a;
    } else {
      var n := |b| - 1;
      SyncsInConcat(a, b[..n]);
      assert a + b == (a + b[..n]) + [b[n]];
      SyncsPrefix(a + b[..n], a + b);
      SyncsPrefix(b[..n], b);
    }
  }

  lemma {:induction false} ListOfConcat(a: seq<Node>, b: seq<Node>, j: nat)
    ensures ListOf(a + b, j) == ListOf(a, j) + ListOf(b, j)
  {
    if b == [] {
      assert a + b == a;
    } else {
      var n := |b| - 1;
      assert (a + b)[..|a + b| - 1] == a + b[..n];
      ListOfConcat(a, b[..n], j);
    }
  }

  lemma OneOp(op: Op)
    ensures SyncsIn([op]) == if op.Sync? then 1 else 0
  {
    assert SyncsBefore([op], 1) == SyncsBefore([op], 0) + (if [op][0].Sync? then 1 else 0);
  }

  lemma {:induction false} NoSyncs(nodes: seq<Node>, j: nat)
    requires forall y :: 0 <= y < |nodes| ==> !nodes[y].op.Sync?
    ensures SyncsIn(ListOf(nodes, j)) == 0
  {
    if nodes != [] {
      var n := |nodes| - 1;
      NoSyncs(nodes[..n], j);
      if nodes[n].Placed? && nodes[n].sm == j {
        SyncsInConcat(ListOf(nodes[..n], j), [nodes[n].op]);
        OneOp(nodes[n].op);
        assert ListOf(nodes, j) == ListOf(nodes[..n], j) + [nodes[n].op];
      } else {
        assert ListOf(nodes, j) == ListOf(nodes[..n], j);
      }
    }
  }

  lemma {:induction false} SyncList(sms: nat, n: nat, j: nat)
    requires n <= sms
    ensures ListOf(SyncNodes(sms)[..n], j) == if j < n then [Sync] else []
  {
    if n > 0 {
      SyncList(sms, n - 1, j);
      assert SyncNodes(sms)[..n][..n - 1] == SyncNodes(sms)[..n - 1];
    }
  }

  lemma SegmentHasNoSyncs(s: Shape, env: Env, waves: seq<seq<Inst>>, k: nat, owner: seq<nat>, y: nat)
    requires ShapeOk(s) && EnvOk(s, env) && WavesShaped(s, env, waves) && k < |waves| && |waves[k]| == |owner|
    requires y < |WaveNodes(s, env, waves[k], owner) + QueueNodes(s, env, waves[k])|
    ensures !(WaveNodes(s, env, waves[k], owner) + QueueNodes(s, env, waves[k]))[y].op.Sync?
  {
    hide Waits;
    hide Arrive;
    hide QueueTasks;
    var nodes := WaveNodes(s, env, waves[k], owner);
    if y >= |nodes| {
      var tasks := QueueTasks(s, env, DrainedBy(waves[k]).value);
      assert tasks[y - |nodes|] in tasks;
    }
  }

  /** Every SM has met as many barriers as waves have been closed. */
  lemma {:induction false} SyncCount(s: Shape, env: Env, waves: seq<seq<Inst>>, owners: Owners, sms: nat,
                                     ablation: bool, j: nat)
    requires ShapeOk(s) && EnvOk(s, env) && OwnersFit(waves, owners, sms) && WavesShaped(s, env, waves)
    requires j < sms
    ensures SyncsIn(ListOf(PlanOf(s, env, waves, owners, sms, ablation), j)) ==
      if ablation && |waves| > 0 then |waves| - 1 else 0
  {
    hide WaveNodes;
    hide QueueNodes;
    hide ListOf;
    hide SyncsIn;
    hide SyncsBeforeWave;
    hide WavesShaped;
    if waves == [] {
      EmptyPlan(s, env, owners, sms, ablation, j);
    } else {
      var k := |waves| - 1;
      ShapedPrefix(s, env, waves);
      SyncCount(s, env, waves[..k], owners[..k], sms, ablation, j);
      var before := PlanOf(s, env, waves[..k], owners[..k], sms, ablation);
      var syncs := SyncsBeforeWave(k, sms, ablation);
      var rest := WaveNodes(s, env, waves[k], owners[k]) + QueueNodes(s, env, waves[k]);
      assert PlanOf(s, env, waves, owners, sms, ablation) == before + syncs + rest;
      ListOfConcat(before + syncs, rest, j);
      ListOfConcat(before, syncs, j);
      SyncsInConcat(ListOf(before + syncs, j), ListOf(rest, j));
      SyncsInConcat(ListOf(before, j), ListOf(syncs, j));
      forall y | 0 <= y < |rest| ensures !rest[y].op.Sync? {
        SegmentHasNoSyncs(s, env, waves, k, owners[k], y);
      }
      NoSyncs(rest, j);
      OneSyncEach(k, sms, ablation, j);
    }
  }

  lemma EmptyPlan(s: Shape, env: Env, owners: Owners, sms: nat, ablation: bool, j: nat)
    requires ShapeOk(s) && EnvOk(s, env) && OwnersFit([], owners, sms)
    ensures SyncsIn(ListOf(PlanOf(s, env, [], owners, sms, ablation), j)) == 0
  {
  }

  lemma ShapedPrefix(s: Shape, env: Env, waves: seq<seq<Inst>>)
    requires ShapeOk(s) && EnvOk(s, env) && WavesShaped(s, env, waves) && waves != []
    ensures WavesShaped(s, env, waves[..|waves| - 1])
  {
    hide QueueTasks;
  }

  lemma OneSyncEach(k: nat, sms: nat, ablation: bool, j: nat)
    requires j < sms
    ensures SyncsIn(ListOf(SyncsBeforeWave(k, sms, ablation), j)) == if ablation && k > 0 then 1 else 0
  {
    if ablation && k > 0 {
      SyncList(sms, sms, j);
      assert SyncNodes(sms)[..sms] == SyncNodes(sms);
      assert SyncsIn([Sync]) == 1;
    }
  }

  /** The partner of the y-th barrier copy of a group is the k-th copy of the same group. */
  lemma GroupPartner(before: seq<Node>, rest: seq<Node>, sms: nat, c: nat, j: nat, k: nat)
    requires j < sms && k < sms
    requires forall i: nat :: i < sms ==> SyncsIn(ListOf(before, i)) == c
    ensures var plan := before + SyncNodes(sms) + rest;
      plan[|before| + j] == Placed(j, Sync) && SyncPartner(plan, |before| + j, k, |before| + k)
  {
    var plan := before + SyncNodes(sms) + rest;
    var y, z := |before| + j, |before| + k;
    assert plan[y] == SyncNodes(sms)[j];
    assert plan[z] == SyncNodes(sms)[k];
    CopyRank(before, rest, sms, j);
    CopyRank(before, rest, sms, k);
    forall x | y <= x < z && plan[x].Placed? ensures plan[x].sm != k {
      assert plan[x] == SyncNodes(sms)[x - |before|];
    }
  }

  lemma CopyRank(before: seq<Node>, rest: seq<Node>, sms: nat, j: nat)
    requires j < sms
    ensures ListOf((before + SyncNodes(sms) + rest)[..|before| + j], j) == ListOf(before, j)
  {
    assert (before + SyncNodes(sms) + rest)[..|before| + j] == before + SyncNodes(sms)[..j];
    ListOfConcat(before, SyncNodes(sms)[..j], j);
    SyncList(sms, j, j);
  }

  lemma PartnerKept(a: seq<Node>, b: seq<Node>, y: nat, k: nat, z: nat)
    requires y < |a| && a[y].Placed? && SyncPartner(a, y, k, z)
    ensures SyncPartner(a + b, y, k, z)
  {
    assert (a + b)[..y] == a[..y];
    assert (a + b)[..z] == a[..z];
  }

  /** A barrier copy of the last group has its partner in the same group. */
  lemma NewPartner(s: Shape, env: Env, waves: seq<seq<Inst>>, owners: Owners, sms: nat, ablation: bool,
                   rest: seq<Node>, y: nat, k: nat)
    requires ShapeOk(s) && EnvOk(s, env) && OwnersFit(waves, owners, sms) && WavesShaped(s, env, waves) && k < sms
    requires var before := PlanOf(s, env, waves, owners, sms, ablation);
      |before| <= y < |before + SyncsBeforeWave(|waves|, sms, ablation)|
    ensures var before := PlanOf(s, env, waves, owners, sms, ablation);
      HasPartner(before + SyncsBeforeWave(|waves|, sms, ablation) + rest, y, k)
  {
    hide WaveNodes;
    hide QueueNodes;
    hide SyncPartner;
    hide PlanOf;
    hide ListOf;
    var before := PlanOf(s, env, waves, owners, sms, ablation);
    var c := |waves| - 1;
    forall i: nat | i < sms ensures SyncsIn(ListOf(before, i)) == c {
      SyncCount(s, env, waves, owners, sms, ablation, i);
    }
    GroupPartner(before, rest, sms, c, y - |before|, k);
  }

  lemma {:induction false} PlanAligned(s: Shape, env: Env, waves: seq<seq<Inst>>, owners: Owners, sms: nat,
                                       ablation: bool, p: Program)
    requires ShapeOk(s) && EnvOk(s, env) && OwnersFit(waves, owners, sms) && WavesShaped(s, env, waves)
    requires |p.lists| == sms
    ensures SyncsAligned(p, PlanOf(s, env, waves, owners, sms, ablation))
  {
    hide WaveNodes;
    hide QueueNodes;
    hide SyncPartner;
    if waves != [] {
      var g := |waves| - 1;
      PlanAligned(s, env, waves[..g], owners[..g], sms, ablation, p);
      var before := PlanOf(s, env, waves[..g], owners[..g], sms, ablation);
      var syncs := SyncsBeforeWave(g, sms, ablation);
      var rest := WaveNodes(s, env, waves[g], owners[g]) + QueueNodes(s, env, waves[g]);
      var plan := PlanOf(s, env, waves, owners, sms, ablation);
      assert plan == before + syncs + rest;
      assert plan == before + (syncs + rest);
      forall y: nat, k: nat | y < |plan| && plan[y].Placed? && plan[y].op.Sync? && k < |p.lists|
        ensures HasPartner(plan, y, k)
      {
        if y < |before| {
          assert before[y] == plan[y];
          assert HasPartner(before, y, k);
          var z: nat :| SyncPartner(before, y, k, z);
          PartnerKept(before, syncs + rest, y, k, z);
        } else {
          if y >= |before + syncs| {
            assert plan[y] == rest[y - |before + syncs|];
            SegmentHasNoSyncs(s, env, waves, g, owners[g], y - |before + syncs|);
            assert false;
          }
          NewPartner(s, env, waves[..g], owners[..g], sms, ablation, rest, y, k);
        }
      }
    }
  }
}
