/** Waves laid out on SM lists: what a placement is, and plain round robin
    (decode/schedule.py). */
module Placement {
  import opened Wrappers
  import opened Arithmetic
  import opened Machine
  import opened Progress
  import opened Schedule
  import opened LayerArrivals
  import opened DecodePlan
  import opened SyncPlan

  type Waves = seq<seq<Inst>>

  /** The instructions of one wave that SM j gets, in wave order. */
  function Picked(w: seq<Inst>, owner: seq<nat>, j: nat): seq<Inst>
    requires |w| == |owner|
  {
    if w == [] then [] else
    var n := |w| - 1;
    Picked(w[..n], owner[..n], j) + (if owner[n] == j then [w[n]] else [])
  }

  /** The list of SM j: its share of every wave in turn, with a GRID_SYNC between waves when
      the ablation is on. */
  function ListFor(waves: Waves, owners: Owners, sms: nat, ablation: bool, j: nat): seq<Inst>
    requires OwnersFit(waves, owners, sms)
  {
    if waves == [] then [] else
    var k := |waves| - 1;
    ListFor(waves[..k], owners[..k], sms, ablation, j) + SyncBefore(k, ablation) + Picked(waves[k], owners[k], j)
  }

  function SyncBefore(k: nat, ablation: bool): seq<Inst> { if ablation && k > 0 then [GridSync] else [] }

  /** perSm is what the placement `owners` gives. */
  ghost predicate Lists(waves: Waves, owners: Owners, sms: nat, ablation: bool, perSm: seq<seq<Inst>>) {
    && OwnersFit(waves, owners, sms) && |perSm| == sms
    && forall j: nat :: j < sms ==> perSm[j] == ListFor(waves, owners, sms, ablation, j)
  }

  function CompileAll(s: Shape, env: Env, xs: seq<Inst>): seq<Op>
    requires ShapeOk(s)
  {
    seq(|xs|, i requires 0 <= i < |xs| => Compile(s, env, xs[i]))
  }

  lemma CompileConcat(s: Shape, env: Env, a: seq<Inst>, b: seq<Inst>)
    requires ShapeOk(s)
    ensures CompileAll(s, env, a + b) == CompileAll(s, env, a) + CompileAll(s, env, b)
  {
  }

  lemma {:induction false} PickedOps(s: Shape, env: Env, w: seq<Inst>, owner: seq<nat>, j: nat)
    requires ShapeOk(s) && |w| == |owner|
    ensures ListOf(WaveNodes(s, env, w, owner), j) == CompileAll(s, env, Picked(w, owner, j))
  {
    if w != [] {
      var n := |w| - 1;
      PickedOps(s, env, w[..n], owner[..n], j);
      assert WaveNodes(s, env, w, owner)[..n] == WaveNodes(s, env, w[..n], owner[..n]);
    }
  }

  lemma {:induction false} TasksAreNotPlaced(s: Shape, env: Env, q: QueueId, tasks: seq<Inst>, j: nat)
    requires ShapeOk(s)
    ensures ListOf(TaskNodes(s, env, q, tasks), j) == []
  {
    if tasks != [] {
      var n := |tasks| - 1;
      TasksAreNotPlaced(s, env, q, tasks[..n], j);
      assert TaskNodes(s, env, q, tasks)[..n] == TaskNodes(s, env, q, tasks[..n]);
    }
  }

  lemma SyncOps(k: nat, sms: nat, ablation: bool, s: Shape, env: Env, j: nat)
    requires ShapeOk(s) && j < sms
    ensures ListOf(SyncsBeforeWave(k, sms, ablation), j) ==
      CompileAll(s, env, SyncBefore(k, ablation))
  {
    SyncList(sms, sms, j);
    assert SyncNodes(sms)[..sms] == SyncNodes(sms);
  }

  lemma {:induction false} ListedOps(s: Shape, env: Env, waves: Waves, owners: Owners, sms: nat, ablation: bool, j: nat)
    requires ShapeOk(s) && EnvOk(s, env) && OwnersFit(waves, owners, sms) && j < sms
    ensures ListOf(PlanOf(s, env, waves, owners, sms, ablation), j) ==
      CompileAll(s, env, ListFor(waves, owners, sms, ablation, j))
  {
    hide CompileAll;
    hide Picked;
    hide WaveNodes;
    hide SyncsBeforeWave;
    hide SyncBefore;
    hide TaskNodes;
    hide QueueTasks;
    hide DrainedBy;
    hide ListOf;
    if waves == [] {
      NothingListed(s, env, j);
    } else {
      var k := |waves| - 1;
      var before := PlanOf(s, env, waves[..k], owners[..k], sms, ablation);
      var syncs := SyncsBeforeWave(k, sms, ablation);
      var nodes := WaveNodes(s, env, waves[k], owners[k]);
      var tasks := QueueNodes(s, env, waves[k]);
      ListedOps(s, env, waves[..k], owners[..k], sms, ablation, j);
      SyncOps(k, sms, ablation, s, env, j);
      PickedOps(s, env, waves[k], owners[k], j);
      if DrainedBy(waves[k]).Some? {
        TasksAreNotPlaced(s, env, DrainedBy(waves[k]).value, QueueTasks(s, env, DrainedBy(waves[k]).value), j);
      }
      ListOfConcat(before, syncs, j);
      ListOfConcat(before + syncs, nodes, j);
      ListOfConcat(before + syncs + nodes, tasks, j);
      var a, b := ListFor(waves[..k], owners[..k], sms, ablation, j), SyncBefore(k, ablation);
      CompileConcat(s, env, a, b);
      CompileConcat(s, env, a + b, Picked(waves[k], owners[k], j));
      NothingListed(s, env, j);
    }
  }

  lemma NothingListed(s: Shape, env: Env, j: nat)
    requires ShapeOk(s)
    ensures ListOf([], j) == [] == CompileAll(s, env, [])
  {
  }

  /** A placement is what the kernel runs: each SM's list compiles to the program for which
      progress and ordering are proved. */
  lemma ListsAreTheProgram(s: Shape, env: Env, waves: Waves, owners: Owners, sms: nat, ablation: bool, perSm: seq<seq<Inst>>)
    requires ShapeOk(s) && EnvOk(s, env) && Lists(waves, owners, sms, ablation, perSm)
    ensures ProgramOf(s, env, waves, owners, sms, ablation).lists ==
      seq(sms, j requires 0 <= j < sms => CompileAll(s, env, perSm[j]))
  {
    hide PlanOf;
    hide ListFor;
    forall j: nat | j < sms
      ensures ListOf(PlanOf(s, env, waves, owners, sms, ablation), j) == CompileAll(s, env, perSm[j])
    {
      ListedOps(s, env, waves, owners, sms, ablation, j);
    }
  }

  // ---- loads ----

  function Total(waves: Waves): nat {
    if waves == [] then 0 else Total(waves[..|waves| - 1]) + |waves[|waves| - 1]|
  }

  /** Instructions that SM j gets, syncs aside. */
  function Load(waves: Waves, owners: Owners, sms: nat, j: nat): nat
    requires OwnersFit(waves, owners, sms)
  {
    if waves == [] then 0 else
    var k := |waves| - 1;
    Load(waves[..k], owners[..k], sms, j) + |Picked(waves[k], owners[k], j)|
  }

  /** The share of SM j when n instructions are dealt out in turn. */
  function Quota(n: nat, sms: nat, j: nat): nat
    requires sms > 0
  {
    n / sms + (if j < n % sms then 1 else 0)
  }

  /** Dealing one more instruction goes to the SM at the cursor. */
  lemma QuotaStep(n: nat, sms: nat, j: nat)
    requires sms > 0 && j < sms
    ensures Quota(n + 1, sms, j) == Quota(n, sms, j) + if j == n % sms then 1 else 0
  {
    var q, x := n / sms, n % sms;
    MulStep(q, sms);
    if x + 1 < sms { DivModUnique(n + 1, sms, q, x + 1); } else { DivModUnique(n + 1, sms, q + 1, 0); }
  }

  /** After n turns SM j has had all of its turns before the n-th, and no more. */
  lemma QuotaBounds(n: nat, sms: nat, j: nat)
    requires sms > 0 && j < sms
    ensures j + (Quota(n, sms, j) - 1) * sms < n <= j + Quota(n, sms, j) * sms
  {
    var q := n / sms;
    MulStep(q, sms);
    MulStep(q - 1, sms);
  }

  /** n turns in a row, from any start, are within one turn of n / sms. */
  predicate Fair(share: int, n: nat, sms: nat) { share * sms < n + sms && n < share * sms + sms }

  lemma TurnsAreFair(base: nat, n: nat, sms: nat, j: nat)
    requires sms > 0 && j < sms
    ensures Fair(Quota(base + n, sms, j) - Quota(base, sms, j), n, sms)
  {
    hide Quota;
    QuotaBounds(base, sms, j);
    QuotaBounds(base + n, sms, j);
    var a, b := Quota(base, sms, j), Quota(base + n, sms, j);
    assert (b - a) * sms == b * sms - a * sms && (b - 1) * sms == b * sms - sms && (a - 1) * sms == a * sms - sms;
  }

  /** No SM gets more than one instruction more than another one. */
  lemma FairMeansEven(a: int, b: int, n: nat, sms: nat)
    requires sms > 0 && Fair(a, n, sms) && Fair(b, n, sms)
    ensures a <= b + 1
  {
    if b + 1 < a {
      MulStep(b, sms);
      MulStep(b + 1, sms);
      MulGrows(b + 2, a, sms);
    }
  }

  /** Within each wave the shares of two SMs differ by at most one. */
  ghost predicate EvenWaves(waves: Waves, owners: Owners, sms: nat)
    requires OwnersFit(waves, owners, sms)
  {
    forall k :: 0 <= k < |waves| ==> EvenWave(waves[k], owners[k], sms)
  }

  ghost predicate EvenWave(w: seq<Inst>, row: seq<nat>, sms: nat)
    requires |w| == |row|
  {
    forall i: nat, j: nat :: i < sms && j < sms ==> |Picked(w, row, i)| <= |Picked(w, row, j)| + 1
  }

  lemma SharesAreEven(base: nat, w: seq<Inst>, row: seq<nat>, sms: nat)
    requires sms > 0 && |w| == |row|
    requires forall j: nat :: j < sms ==> |Picked(w, row, j)| == Quota(base + |w|, sms, j) - Quota(base, sms, j)
    ensures EvenWave(w, row, sms)
  {
    hide Quota;
    hide Picked;
    hide Fair;
    forall i: nat, j: nat | i < sms && j < sms ensures |Picked(w, row, i)| <= |Picked(w, row, j)| + 1 {
      TurnsAreFair(base, |w|, sms, i);
      TurnsAreFair(base, |w|, sms, j);
      FairMeansEven(|Picked(w, row, i)|, |Picked(w, row, j)|, |w|, sms);
    }
  }

  // ---- one more instruction, one more wave ----

  function OwnersOf(done: Owners, row: seq<nat>): Owners { done + [row] }

  lemma PickedSnoc(w: seq<Inst>, owner: seq<nat>, x: Inst, sm: nat, j: nat)
    requires |w| == |owner|
    ensures Picked(w + [x], owner + [sm], j) == Picked(w, owner, j) + if sm == j then [x] else []
  {
    assert (w + [x])[..|w|] == w && (owner + [sm])[..|owner|] == owner;
  }

  lemma WaveSnoc(waves: Waves, owners: Owners, sms: nat, w: seq<Inst>, row: seq<nat>)
    requires OwnersFit(waves, owners, sms) && |row| == |w| && forall i :: 0 <= i < |row| ==> row[i] < sms
    ensures OwnersFit(waves + [w], owners + [row], sms)
    ensures (waves + [w])[..|waves|] == waves && (owners + [row])[..|waves|] == owners
    ensures Total(waves + [w]) == Total(waves) + |w|
    ensures forall j: nat :: Load(waves + [w], owners + [row], sms, j) == Load(waves, owners, sms, j) + |Picked(w, row, j)|
  {
    assert (waves + [w])[..|waves|] == waves && (owners + [row])[..|waves|] == owners;
  }

  // ---- plain round robin ----

  /** The state of either scheduler inside wave k: the lists so far. */
  ghost predicate Midway(waves: Waves, k: nat, owners: Owners, sms: nat, ablation: bool,
                         perSm: seq<seq<Inst>>, w: seq<Inst>, row: seq<nat>) {
    && k <= |waves| && OwnersFit(waves[..k], owners, sms) && |perSm| == sms && |row| == |w|
    && (forall i :: 0 <= i < |row| ==> row[i] < sms)
    && (forall j: nat :: j < sms ==>
         perSm[j] == ListFor(waves[..k], owners, sms, ablation, j) + SyncBefore(k, ablation) + Picked(w, row, j))
  }

  lemma MidwayStep(waves: Waves, k: nat, owners: Owners, sms: nat, ablation: bool,
                   perSm: seq<seq<Inst>>, w: seq<Inst>, row: seq<nat>, x: Inst, sm: nat)
    requires Midway(waves, k, owners, sms, ablation, perSm, w, row) && sm < sms
    ensures Midway(waves, k, owners, sms, ablation, perSm[sm := perSm[sm] + [x]], w + [x], row + [sm])
  {
    hide ListFor;
    hide Picked;
    forall j: nat | j < sms ensures Picked(w + [x], row + [sm], j) == Picked(w, row, j) + if sm == j then [x] else [] {
      PickedSnoc(w, row, x, sm, j);
    }
  }

  /** The lists at the end of wave k, before any sync. */
  lemma WaveDone(waves: Waves, k: nat, owners: Owners, sms: nat, ablation: bool, perSm: seq<seq<Inst>>, row: seq<nat>)
    requires k < |waves| && Midway(waves, k, owners, sms, ablation, perSm, waves[k], row)
    ensures Lists(waves[..k + 1], owners + [row], sms, ablation, perSm)
    ensures |row| == |waves[k]| && forall i :: 0 <= i < |row| ==> row[i] < sms
  {
    WaveSnoc(waves[..k], owners, sms, waves[k], row);
    assert waves[..k + 1] == waves[..k] + [waves[k]];
  }

  lemma NothingPlaced(waves: Waves, sms: nat, ablation: bool)
    requires sms > 0
    ensures OwnersFit(waves[..0], [], sms) && Total(waves[..0]) == 0
    ensures Midway(waves, 0, [], sms, ablation, seq(sms, _ => []), [], [])
    ensures Lists(waves[..0], [], sms, ablation, seq(sms, _ => []))
    ensures forall j: nat :: j < sms ==> Load(waves[..0], [], sms, j) == Quota(0, sms, j) == 0
  {
  }

  lemma NextWave(waves: Waves, k: nat, owners: Owners, sms: nat, ablation: bool, perSm: seq<seq<Inst>>, next: seq<seq<Inst>>)
    requires k <= |waves| && k > 0 && Lists(waves[..k], owners, sms, ablation, perSm) && |next| == sms
    requires forall j :: 0 <= j < sms ==> next[j] == perSm[j] + SyncBefore(k, ablation)
    ensures Midway(waves, k, owners, sms, ablation, next, [], [])
  {
    hide ListFor;
  }

  lemma PickedNone(j: nat)
    ensures Picked([], [], j) == []
  {
  }

  method AppendSyncs(perSm: seq<seq<Inst>>) returns (next: seq<seq<Inst>>)
    ensures |next| == |perSm| && forall j :: 0 <= j < |perSm| ==> next[j] == perSm[j] + [GridSync]
  {
    next := perSm;
    for sm := 0 to |perSm|
      invariant |next| == |perSm|
      invariant forall j :: 0 <= j < |perSm| ==> next[j] == if j < sm then perSm[j] + [GridSync] else perSm[j]
    {
      next := next[sm := next[sm] + [GridSync]];
    }
  }

  datatype PlacementError = NoSms | Exhausted | QuotaLeft

  /** _round_robin_waves: the cursor is carried across waves, so every SM gets its quota, and
      of each wave as many instructions as any other SM, or one more or less. */
  method RoundRobinWaves(waves: Waves, sms: nat, ablation: bool)
    returns (r: Result<seq<seq<Inst>>, PlacementError>, ghost owners: Owners)
    ensures r.Ok? <==> sms > 0
    ensures r.Ok? ==> Lists(waves, owners, sms, ablation, r.value)
    ensures r.Ok? ==> forall j: nat :: j < sms ==> Load(waves, owners, sms, j) == Quota(Total(waves), sms, j)
    ensures r.Ok? ==> EvenWaves(waves, owners, sms)
  {
    hide ListFor;
    hide Load;
    hide Picked;
    hide Quota;
    hide Total;
    hide Midway;
    hide Lists;
    hide EvenWave;
    owners := [];
    if sms == 0 { return Err(NoSms), owners; }
    var perSm: seq<seq<Inst>> := seq(sms, _ => []);
    var rr := 0;
    NothingPlaced(waves, sms, ablation);
    for wi := 0 to |waves|
      invariant rr == Total(waves[..wi]) && |perSm| == sms
      invariant OwnersFit(waves[..wi], owners, sms)
      invariant wi < |waves| ==> Midway(waves, wi, owners, sms, ablation, perSm, [], [])
      invariant wi == |waves| ==> Lists(waves[..wi], owners, sms, ablation, perSm)
      invariant forall j: nat :: j < sms ==> Load(waves[..wi], owners, sms, j) == Quota(rr, sms, j)
      invariant EvenWaves(waves[..wi], owners, sms)
    {
      var w := waves[wi];
      ghost var row: seq<nat> := [];
      ghost var base := rr;
      forall j: nat ensures Picked([], [], j) == [] { PickedNone(j); }
      assert w[..0] == [];
      for i := 0 to |w|
        invariant rr == base + i && |row| == i && |perSm| == sms && Midway(waves, wi, owners, sms, ablation, perSm, w[..i], row)
        invariant forall j: nat :: j < sms ==>
          Load(waves[..wi], owners, sms, j) + |Picked(w[..i], row, j)| == Quota(rr, sms, j)
      {
        var sm := rr % sms;
        MidwayStep(waves, wi, owners, sms, ablation, perSm, w[..i], row, w[i], sm);
        forall j: nat | j < sms
          ensures Quota(rr + 1, sms, j) == Quota(rr, sms, j) + if j == sm then 1 else 0
          ensures |Picked(w[..i] + [w[i]], row + [sm], j)| == |Picked(w[..i], row, j)| + if sm == j then 1 else 0
        {
          QuotaStep(rr, sms, j);
          PickedSnoc(w[..i], row, w[i], sm, j);
        }
        assert w[..i + 1] == w[..i] + [w[i]];
        perSm := perSm[sm := perSm[sm] + [w[i]]];
        row := row + [sm];
        rr := rr + 1;
      }
      assert w[..|w|] == w;
      WaveDone(waves, wi, owners, sms, ablation, perSm, row);
      WaveSnoc(waves[..wi], owners, sms, w, row);
      SharesAreEven(base, w, row, sms);
      assert waves[..wi + 1] == waves[..wi] + [w];
      owners := owners + [row];
      ghost var before := perSm;
      if ablation && wi + 1 < |waves| { perSm := AppendSyncs(perSm); }
      if wi + 1 < |waves| { NextWave(waves, wi + 1, owners, sms, ablation, before, perSm); }
    }
    assert waves[..|waves|] == waves;
    r := Ok(perSm);
  }
}
