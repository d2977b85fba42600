/** Main results about idle attention tasks. They wait for nothing, so the schedule is free of
    overlap, and of races, exactly when there are none that matter. The conditions are on the
    rows' lengths and the layers' windows and split counts, known before a launch. */
module SplitRaces {
  import opened Arithmetic
  import opened Wrappers
  import opened Machine
  import opened Progress
  import opened Staging
  import opened Schedule
  import opened Arrivals
  import opened LayerArrivals
  import opened DecodePlan
  import opened DecodeSupply
  import opened DecodeInsts
  import opened DecodeProgress
  import opened HappensBefore
  import opened Producers
  import opened AttnEntry
  import opened LayerComplete
  import opened LayerOrder
  import opened Buffers
  import opened NoRaces
  import opened Overlap
  import SplitBlocks
  import WaveArrivals
  import Splits

  /** Some SM is about to execute the node, and can. */
  ghost predicate Running(r: Run, y: nat)
    requires RunOk(r)
  {
    exists j: nat :: AboutToRun(r, y, j) && Step(Prog(r), St(r), j).Some?
  }

  lemma RunningFacts(r: Run, y: nat)
    requires RunOk(r) && y < |Insts(r)| && Running(r, y)
    ensures MayStart(r, y) && !Done(r, y)
  {
    hide DecodePlanOf;
    hide Decode;
    hide InstsOf;
    hide Exec;
    hide Step;
    hide MayStart;
    var j: nat :| AboutToRun(r, y, j) && Step(Prog(r), St(r), j).Some?;
    CanStepMayStart(r, y, j);
    Facts(r);
  }

  /** The same model and launch, with any placement and any number of attention claimers. */
  ghost predicate Configured(r: Run, s: Shape, env: Env) {
    RunOk(r) && r.env == env && r.s == s.(attnClaimers := r.s.attnClaimers)
  }

  /** Two SMs are about to touch one cell, not both reading nor both adding. */
  ghost predicate Race(r: Run, y: nat, z: nat, c: Cell)
    requires RunOk(r)
  {
    && y < |Insts(r)| && z < |Insts(r)| && y != z
    && Clash(r.s, r.env, Insts(r)[y], Insts(r)[z], c) && Running(r, y) && Running(r, z)
  }

  /** A task runs before everything of an earlier layer has finished. */
  ghost predicate Overlaps(r: Run, y: nat, z: nat)
    requires RunOk(r)
  {
    && y < |Insts(r)| && z < |Insts(r)| && Real(Insts(r)[y]) && Real(Insts(r)[z])
    && LayerOf(r.s, Insts(r)[z]) < LayerOf(r.s, Insts(r)[y]) && Running(r, y) && !Done(r, z)
  }

  // ---- the number of claimers changes no task ----

  lemma {:induction false} SameRowTasks(s: Shape, n: nat, l: nat, row: nat, kvhs: nat, k: nat, w: nat)
    requires ShapeOk(s) && n > 0
    ensures AttnRowTasks(s.(attnClaimers := n), l, row, kvhs, k, w) == AttnRowTasks(s, l, row, kvhs, k, w)
  {
    if kvhs > 0 { SameRowTasks(s, n, l, row, kvhs - 1, k, w); }
  }

  lemma {:induction false} SameStatic(s: Shape, n: nat, l: nat, rows: nat)
    requires ShapeOk(s) && n > 0 && l < s.layers
    ensures StaticAttnWave(s.(attnClaimers := n), l, rows) == StaticAttnWave(s, l, rows)
  {
    hide AttnRowTasks;
    if rows > 0 {
      SameStatic(s, n, l, rows - 1);
      SameRowTasks(s, n, l, rows - 1, s.hkv, s.splits[l], s.window[l]);
    }
  }

  lemma {:induction false} SameQueue(s: Shape, n: nat, env: Env, l: nat, rows: nat)
    requires ShapeOk(s) && n > 0
    ensures AttnQueueTasks(s.(attnClaimers := n), env, l, rows) == AttnQueueTasks(s, env, l, rows)
  {
    hide AttnRowTasks;
    if rows > 0 {
      SameQueue(s, n, env, l, rows - 1);
      SameRowTasks(s, n, l, rows - 1, s.hkv, RowSplits(env, rows - 1), 0);
    }
  }

  lemma SameTasks(s: Shape, n: nat, env: Env, l: nat)
    requires ShapeOk(s) && EnvOk(s, env) && n > 0 && l < s.layers
    ensures AttnTasks(s.(attnClaimers := n), env, l) == AttnTasks(s, env, l)
  {
    hide AttnQueueTasks;
    hide StaticAttnWave;
    if s.drain[l] { SameQueue(s, n, env, l, s.batch); } else { SameStatic(s, n, l, s.batch); }
  }

  // ---- a task at work is running ----

  lemma TaskOf(s: Shape, env: Env, l: nat, row: nat, kvh: nat, p: nat) returns (i: nat)
    requires ShapeOk(s) && EnvOk(s, env) && l < s.layers && row < s.batch && kvh < s.hkv && p < AttnSplits(s, env, l, row)
    ensures i < |AttnTasks(s, env, l)|
    ensures AttnTasks(s, env, l)[i] == AttnDecode(l, row, kvh, p, AttnSplits(s, env, l, row), WindowOf(s, l), QkvWait(s))
  {
    hide QkvWait;
    hide AttnQueueTasks;
    hide StaticAttnWave;
    var x := AttnDecode(l, row, kvh, p, AttnSplits(s, env, l, row), WindowOf(s, l), QkvWait(s));
    if s.drain[l] { QueueTaskIn(s, env, l, s.batch, row, kvh, p); } else { StaticTaskIn(s, l, s.batch, row, kvh, p); }
    assert x in AttnTasks(s, env, l);
    i :| i < |AttnTasks(s, env, l)| && AttnTasks(s, env, l)[i] == x;
  }

  lemma AtWorkSteps(p: Program, plan: seq<Node>, m: State, y: nat) returns (j: nat)
    requires Realises(p, plan) && Solo(plan) && |m.cores| == |p.lists| && y < |plan| && AtWork(p, plan, m, y)
    ensures j < |m.cores| && m.cores[j].pos < |p.lists[j]| && Step(p, m, j).Some?
    ensures match EventAt(plan, y)
      case Slot(i, k) => i == j && k == m.cores[j].pos && p.lists[j][k].Task?
      case Claim(q, e) => HoldsEntry(p, m, j, q, e)
  {
    if plan[y].Placed? {
      SoloAt(p, plan, y);
      j := plan[y].sm;
    } else {
      j :| HoldsEntry(p, m, j, plan[y].queue, plan[y].entry);
    }
  }

  lemma WorkingRuns(s: Shape, env: Env, choices: seq<nat>, l: nat, i: nat)
    requires ShapeOk(s) && EnvOk(s, env) && Working(s, env, choices, l, i) && i < |AttnTasks(s, env, l)|
    ensures var r := AloneRun(s, env, choices);
      && RunOk(r) && TaskNode(s, env, l, i) < |Insts(r)| && Insts(r)[TaskNode(s, env, l, i)] == AttnTasks(s, env, l)[i]
      && Running(r, TaskNode(s, env, l, i))
  {
    hide AllWaves;
    hide Decode;
    hide DecodePlanOf;
    hide InstsOf;
    hide Exec;
    hide Step;
    hide AttnTasks;
    hide TaskNode;
    hide AtWork;
    hide Realises;
    hide Solo;
    hide EventAt;
    var r := AloneRun(s, env, choices);
    var y := TaskNode(s, env, l, i);
    Sound(s, env);
    TaskPlace(s, env, l, i);
    TaskInst(s, env, l, i);
    var j := AtWorkSteps(TheProgram(s, env), ThePlan(s, env), Exec(TheProgram(s, env), choices).value, y);
    assert AboutToRun(r, y, j);
  }

  // ---- layers that overlap ----

  /** After layer 0, every row is active and every split has something to read. */
  ghost predicate NoIdleTasks(s: Shape, env: Env)
    requires ShapeOk(s) && EnvOk(s, env)
  {
    forall l: nat, row: nat, p: nat :: 0 < l < s.layers && row < s.batch && p < AttnSplits(s, env, l, row) ==>
      Reads(s, env, l, row, p)
  }

  predicate Reads(s: Shape, env: Env, l: nat, row: nat, p: nat)
    requires ShapeOk(s) && EnvOk(s, env) && l < s.layers && row < s.batch
  {
    env.active[row] && !Blank(s, env, l, row, p)
  }

  lemma BusyIsOrderly(s: Shape, env: Env, x: Inst)
    requires ShapeOk(s) && EnvOk(s, env) && Built(s, env, x) && Real(x) && NoIdleTasks(s, env) && LayerOf(s, x) > 0
    ensures Orderly(env, x)
  {
    hide QkvWait;
    hide EmptySplit;
    if x.AttnDecode? {
      assert Reads(s, env, x.layer, x.row, x.split);
    } else if x.AttnCombine? {
      assert Reads(s, env, x.layer, x.row, 0);
    }
  }

  lemma NoOverlap(r: Run, y: nat, z: nat)
    requires RunOk(r) && RoutesSome(r.s, r.env) && NoIdleTasks(r.s, r.env)
    ensures !Overlaps(r, y, z)
  {
    hide InstsOf;
    hide Decode;
    hide DecodePlanOf;
    hide Exec;
    hide Running;
    hide MayStart;
    hide Done;
    hide Built;
    hide NoIdleTasks;
    if Overlaps(r, y, z) {
      RunningFacts(r, y);
      BuiltAt(r, y);
      BusyIsOrderly(r.s, r.env, Insts(r)[y]);
      LayersDoNotOverlap(r, y, z);
      assert false;
    }
  }

  /** With enough claimers, a queue's tasks can all be held at once. */
  function Claimers(s: Shape, env: Env, l: nat): (n: nat)
    requires ShapeOk(s) && EnvOk(s, env) && l < s.layers
    ensures n > |AttnTasks(s, env, l)|
  {
    1 + |AttnTasks(s, env, l)|
  }

  /** An idle task of a later layer can run before anything has finished. */
  lemma IdleOverlaps(s: Shape, env: Env, l: nat, row: nat, p: nat) returns (r: Run, y: nat, z: nat)
    requires ShapeOk(s) && EnvOk(s, env) && 0 < l < s.layers && row < s.batch && p < AttnSplits(s, env, l, row)
    requires !Reads(s, env, l, row, p)
    ensures Configured(r, s, env) && Overlaps(r, y, z)
  {
    hide AttnTasks;
    hide Exec;
    hide Decode;
    hide DecodePlanOf;
    hide InstsOf;
    hide Running;
    hide EmptySplit;
    hide AllWaves;
    hide TaskNode;
    var t := s.(attnClaimers := Claimers(s, env, l));
    SameTasks(s, t.attnClaimers, env, l);
    var i := TaskOf(s, env, l, row, 0, p);
    var choices := IdleFirst(t, env, l, i);
    WorkingRuns(t, env, choices, l, i);
    r, y := AloneRun(t, env, choices), TaskNode(t, env, l, i);
    z := FirstTask(r);
    assert !Done(r, z);
  }

  /** The schedule begins with a task of layer 0. */
  lemma FirstTask(r: Run) returns (z: nat)
    requires RunOk(r)
    ensures z < |Insts(r)| && Real(Insts(r)[z]) && LayerOf(r.s, Insts(r)[z]) == 0
  {
    hide InstsOf;
    hide Decode;
    hide Exec;
    hide LayerWaves;
    z := NormHere(r, 0, 0);
  }

  /** Layers do not overlap, over every placement, number of claimers and run, exactly when no
      attention task after layer 0 is idle. */
  lemma OverlapFreeIff(s: Shape, env: Env)
    requires ShapeOk(s) && EnvOk(s, env) && RoutesSome(s, env)
    ensures (forall r: Run, y: nat, z: nat :: Configured(r, s, env) ==> !Overlaps(r, y, z)) <==> NoIdleTasks(s, env)
  {
    hide Overlaps;
    hide Reads;
    if NoIdleTasks(s, env) {
      forall r: Run, y: nat, z: nat | Configured(r, s, env) ensures !Overlaps(r, y, z) {
        SameLaunch(r, s, env);
        NoOverlap(r, y, z);
      }
    } else {
      var l: nat, row: nat, p: nat :| 0 < l < s.layers && row < s.batch && p < AttnSplits(s, env, l, row)
        && !Reads(s, env, l, row, p);
      var r, y, z := IdleOverlaps(s, env, l, row, p);
      assert Configured(r, s, env) && Overlaps(r, y, z);
    }
  }

  // ---- races ----

  lemma SameSplits(s: Shape, n: nat, env: Env, l: nat, row: nat)
    requires ShapeOk(s) && EnvOk(s, env) && n > 0 && l < s.layers && row < s.batch
    ensures var t := s.(attnClaimers := n);
      AttnSplits(t, env, l, row) == AttnSplits(s, env, l, row) && WindowOf(t, l) == WindowOf(s, l)
  {
  }

  lemma SameRouting(s: Shape, n: nat, env: Env)
    requires ShapeOk(s) && EnvOk(s, env) && n > 0 && RoutesSome(s, env)
    ensures RoutesSome(s.(attnClaimers := n), env)
  {
    var t := s.(attnClaimers := n);
    forall l | 0 <= l < t.layers && IsMoe(t, l) ensures exists e :: 0 <= e < t.moe.experts && env.routed[l][e] > 0 {
      assert IsMoe(s, l);
    }
  }

  lemma SameBlank(s: Shape, n: nat, env: Env)
    requires ShapeOk(s) && EnvOk(s, env) && n > 0
    ensures var t := s.(attnClaimers := n);
      && (forall l: nat, row: nat, p: nat :: l < s.layers && row < s.batch ==> Blank(t, env, l, row, p) == Blank(s, env, l, row, p))
      && (forall row: nat, k: nat, l: nat, p: nat :: Overwrites(t, env, row, k, l, p) <==> Overwrites(s, env, row, k, l, p))
  {
    hide EmptySplit;
    hide AttnSplits;
    hide WindowOf;
    forall l: nat, row: nat | l < s.layers && row < s.batch
      ensures AttnSplits(s.(attnClaimers := n), env, l, row) == AttnSplits(s, env, l, row)
      ensures WindowOf(s.(attnClaimers := n), l) == WindowOf(s, l)
    {
      SameSplits(s, n, env, l, row);
    }
  }

  lemma SameIdle(s: Shape, n: nat, env: Env)
    requires ShapeOk(s) && EnvOk(s, env) && n > 0 && NoIdleTasks(s, env)
    ensures NoIdleTasks(s.(attnClaimers := n), env)
  {
    hide AttnSplits;
    hide Blank;
    var t := s.(attnClaimers := n);
    SameBlank(s, n, env);
    forall l: nat, row: nat, p: nat | 0 < l < t.layers && row < t.batch && p < AttnSplits(t, env, l, row)
      ensures Reads(t, env, l, row, p)
    {
      SameSplits(s, n, env, l, row);
      assert Reads(s, env, l, row, p);
    }
  }

  /** The conditions are the same for every number of claimers. */
  lemma SameLaunch(r: Run, s: Shape, env: Env)
    requires ShapeOk(s) && EnvOk(s, env) && Configured(r, s, env)
    ensures RoutesSome(s, env) ==> RoutesSome(r.s, r.env)
    ensures NoIdleTasks(s, env) ==> NoIdleTasks(r.s, r.env)
    ensures forall row: nat, k: nat, l: nat, p: nat :: Overwrites(r.s, r.env, row, k, l, p) <==> Overwrites(s, env, row, k, l, p)
    ensures forall l: nat, row: nat, p: nat :: l < s.layers && row < s.batch ==> Blank(r.s, r.env, l, row, p) == Blank(s, env, l, row, p)
  {
    hide Overwrites;
    hide Blank;
    hide NoIdleTasks;
    hide RoutesSome;
    var n := r.s.attnClaimers;
    SameBlank(s, n, env);
    if RoutesSome(s, env) { SameRouting(s, n, env); }
    if NoIdleTasks(s, env) { SameIdle(s, n, env); }
  }

  /** A split that overwrites can do so while an SM works on that split in the earlier layer. */
  lemma OverwriteRaces(s: Shape, env: Env, row: nat, k: nat, l: nat, p: nat) returns (r: Run, y: nat, z: nat)
    requires ShapeOk(s) && EnvOk(s, env) && Overwrites(s, env, row, k, l, p)
    ensures Configured(r, s, env) && Race(r, y, z, Partial(row, 0, p))
    ensures LayerOf(r.s, Insts(r)[y]) == k && LayerOf(r.s, Insts(r)[z]) == l
  {
    hide AttnTasks;
    hide Exec;
    hide Decode;
    hide DecodePlanOf;
    hide InstsOf;
    hide Running;
    hide EmptySplit;
    hide AllWaves;
    hide TaskNode;
    hide QkvWait;
    hide Clash;
    FirstIsNotBlank(s, env, l, row);
    var t := s.(attnClaimers := Claimers(s, env, k) + Claimers(s, env, l));
    SameTasks(s, t.attnClaimers, env, k);
    SameTasks(s, t.attnClaimers, env, l);
    var i := TaskOf(s, env, k, row, 0, p);
    var j := TaskOf(s, env, l, row, 0, p);
    var choices := IdleBeside(t, env, k, i, l, j);
    WorkingRuns(t, env, choices, k, i);
    WorkingRuns(t, env, choices, l, j);
    r, y, z := AloneRun(t, env, choices), TaskNode(t, env, k, i), TaskNode(t, env, l, j);
    BothWrite(t, env, AttnTasks(s, env, k)[i], AttnTasks(s, env, l)[j]);
  }

  lemma FirstIsNotBlank(s: Shape, env: Env, l: nat, row: nat)
    requires ShapeOk(s) && EnvOk(s, env) && l < s.layers && row < s.batch
    ensures !Blank(s, env, l, row, 0)
  {
    hide EmptySplit;
    SplitBlocks.EmptyIff(env, row, 0, AttnSplits(s, env, l, row), WindowOf(s, l));
  }

  lemma BothWrite(s: Shape, env: Env, x: Inst, x': Inst)
    requires ShapeOk(s) && x.AttnDecode? && x'.AttnDecode? && x.row == x'.row && x.kvh == x'.kvh && x.split == x'.split
    requires Active(env, x.row) && x.numSplits > 1 && x'.numSplits > 1
    ensures Clash(s, env, x, x', Partial(x.row, x.kvh, x.split))
  {
    hide Idle;
    var c := Partial(x.row, x.kvh, x.split);
    assert Touches(s, env, x, c, Write) && Touches(s, env, x', c, Write) && Conflict(Write, Write);
  }

  /** The decode step has no data race, over every placement, number of claimers and run,
      exactly when no empty split of an active row shares its partial with an earlier layer. */
  lemma RaceFreeIff(s: Shape, env: Env)
    requires ShapeOk(s) && EnvOk(s, env) && RoutesSome(s, env)
    ensures (forall r: Run, y: nat, z: nat, c: Cell :: Configured(r, s, env) ==> !Race(r, y, z, c)) <==> SplitsSafe(s, env)
  {
    hide Race;
    hide Overwrites;
    if SplitsSafe(s, env) {
      forall r: Run, y: nat, z: nat, c: Cell | Configured(r, s, env) ensures !Race(r, y, z, c) {
        if Race(r, y, z, c) {
          SameLaunch(r, s, env);
          RaceIs(r, y, z, c);
          assert false;
        }
      }
    } else {
      var row: nat, k: nat, l: nat, p: nat :| Overwrites(s, env, row, k, l, p);
      var r, y, z := OverwriteRaces(s, env, row, k, l, p);
      assert Configured(r, s, env) && Race(r, y, z, Partial(row, 0, p));
    }
  }

  lemma RaceIs(r: Run, y: nat, z: nat, c: Cell)
    requires RunOk(r) && RoutesSome(r.s, r.env) && Race(r, y, z, c)
    ensures c.Partial?
    ensures var k, l := LayerOf(r.s, Insts(r)[y]), LayerOf(r.s, Insts(r)[z]);
      Overwrites(r.s, r.env, c.row, k, l, c.split) || Overwrites(r.s, r.env, c.row, l, k, c.split)
  {
    hide InstsOf;
    hide Decode;
    hide DecodePlanOf;
    hide Exec;
    hide Running;
    hide MayStart;
    hide Done;
    hide Clash;
    hide Overwrites;
    RunningFacts(r, y);
    RunningFacts(r, z);
    RaceIsOverwrite(r, y, z, c);
  }

  /** The split has nothing to read in the layers of both nodes, so whatever either writes or
      reads there is zero. */
  ghost predicate BothBlank(r: Run, y: nat, z: nat, c: Cell)
    requires RunOk(r) && y < |Insts(r)| && z < |Insts(r)|
  {
    && c.Partial? && c.row < r.s.batch
    && LayerOf(r.s, Insts(r)[y]) < r.s.layers && Blank(r.s, r.env, LayerOf(r.s, Insts(r)[y]), c.row, c.split)
    && LayerOf(r.s, Insts(r)[z]) < r.s.layers && Blank(r.s, r.env, LayerOf(r.s, Insts(r)[z]), c.row, c.split)
  }

  /** A race that can lose a value. */
  ghost predicate LosingRace(r: Run, y: nat, z: nat, c: Cell)
    requires RunOk(r)
  {
    Race(r, y, z, c) && !BothBlank(r, y, z, c)
  }

  lemma NothingLost(r: Run, y: nat, z: nat, c: Cell, s: Shape, env: Env)
    requires ShapeOk(s) && EnvOk(s, env) && RoutesSome(s, env) && SplitsHarmless(s, env) && Configured(r, s, env)
    ensures !LosingRace(r, y, z, c)
  {
    hide Race;
    hide Blank;
    hide AttnSplits;
    hide InstsOf;
    if Race(r, y, z, c) {
      SameLaunch(r, s, env);
      RaceIs(r, y, z, c);
    }
  }

  /** No race ever concerns anything but zeros exactly when an empty split only ever shares its
      partial with empty splits of earlier layers. */
  lemma HarmFreeIff(s: Shape, env: Env)
    requires ShapeOk(s) && EnvOk(s, env) && RoutesSome(s, env)
    ensures (forall r: Run, y: nat, z: nat, c: Cell :: Configured(r, s, env) ==> !LosingRace(r, y, z, c)) <==> SplitsHarmless(s, env)
  {
    hide Race;
    hide Blank;
    hide AttnSplits;
    if SplitsHarmless(s, env) {
      hide LosingRace;
      forall r: Run, y: nat, z: nat, c: Cell | Configured(r, s, env) ensures !LosingRace(r, y, z, c) {
        NothingLost(r, y, z, c, s, env);
      }
    } else {
      var row: nat, k: nat, l: nat, p: nat :| Overwrites(s, env, row, k, l, p) && !Blank(s, env, k, row, p);
      var r, y, z := OverwriteRaces(s, env, row, k, l, p);
      SameLaunch(r, s, env);
      assert Configured(r, s, env) && LosingRace(r, y, z, Partial(row, 0, p));
    }
  }

  // ---- both conditions fail on accepted inputs ----

  /** A row of at most one block leaves the second split of every drained layer empty, so two
      such layers suffice for a race; it concerns zeros only. */
  lemma ShortRowRaces(s: Shape, env: Env, row: nat, k: nat, l: nat)
    requires ShapeOk(s) && EnvOk(s, env) && k < l < s.layers && s.drain[k] && s.drain[l]
    requires row < s.batch && env.active[row] && env.lens[row] < KV_BLOCK
    ensures Overwrites(s, env, row, k, l, 1) && Blank(s, env, k, row, 1) && !SplitsSafe(s, env)
  {
    OneBlockBlank(s, env, k, row);
    OneBlockBlank(s, env, l, row);
    hide Blank;
    assert Overwrites(s, env, row, k, l, 1);
  }

  lemma OneBlockBlank(s: Shape, env: Env, l: nat, row: nat)
    requires ShapeOk(s) && EnvOk(s, env) && l < s.layers && s.drain[l] && row < s.batch && env.lens[row] < KV_BLOCK
    ensures Blank(s, env, l, row, 1)
  {
    hide EmptySplit;
    SplitBlocks.EmptyIff(env, row, 1, env.rowSplits[row], 0);
    WaveArrivals.CeilDivBounds(1, env.rowSplits[row]);
    assert SplitBlocks.WindowBlocks(Tokens(env, row), 0) == 1;
  }

  /** A window of 4097 tokens spans 65 blocks at most, which 13 of 16 splits read. A drained
      layer before it reads with all 16, so live partials can be lost. */
  lemma LongRowLoses(s: Shape, env: Env, row: nat, k: nat, l: nat)
    requires ShapeOk(s) && EnvOk(s, env) && k < l < s.layers && s.drain[k] && !s.drain[l]
    requires s.splits[l] == 16 && s.window[l] == 4096
    requires row < s.batch && env.active[row] && env.lens[row] == 65535 && env.rowSplits[row] == 16
    ensures Overwrites(s, env, row, k, l, 13) && !Blank(s, env, k, row, 13) && !SplitsHarmless(s, env)
  {
    assert Overwrites(s, env, row, k, l, 13);
  }

  /** These are counts that the host chooses, for one row of four KV heads on 132 SMs with
      pages and smallest chunks of 64 tokens, at most 16 splits and any oversubscription. */
  lemma LongRowChosen(k: int)
    ensures var p := Splits.Policy(1, 4, 132, 64, 16, 64);
      && Splits.ChooseSplits(p, 65536, 4096) == Ok(16)
      && Splits.DrainOk(p, [65535], 2) && Splits.Ragged(p, [65535], 0, k, 2) == [16]
  {
    var p := Splits.Policy(1, 4, 132, 64, 16, 64);
    assert Splits.AllBlocks(p, [65535], 0) == [1024];
    assert Sum([1024]) == 1024 by { assert [1024][..0] == []; }
    var g := Splits.Grain(p, 1024, k);
    assert 1 <= g <= 32;
    assert (1024 + g / 2) / g >= 16 by { DivAtLeast(1024 + g / 2, g, 16); }
    assert Splits.Ragged(p, [65535], 0, k, 2) == [16];
  }
}
