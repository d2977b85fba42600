/** Deadlock freedom and happens-before for any program that can be laid out in
    one line.

    A plan lists every instruction of every SM, and every queue entry, in one
    global order that each SM's own list follows. If whatever an instruction waits
    for is supplied by instructions earlier in the plan, then no interleaving of
    the SMs ever gets stuck; and where a wait target equals all the arrivals there
    are, a satisfied wait means every one of its producers has finished. */
module Progress {
  import opened Arithmetic
  import opened Wrappers
  import opened Machine

  datatype Node =
    | Placed(sm: nat, op: Op)
    | Queued(queue: QueueId, entry: nat, op: Op)

  function ListOf(plan: seq<Node>, j: nat): seq<Op> {
    if plan == [] then [] else
    var last := plan[|plan| - 1];
    ListOf(plan[..|plan| - 1], j) +
    (if last.Placed? && last.sm == j then [last.op] else [])
  }

  function EventAt(plan: seq<Node>, y: nat): Event
    requires y < |plan|
  {
    match plan[y]
    case Placed(j, _) => Slot(j, |ListOf(plan[..y], j)|)
    case Queued(q, e, _) => Claim(q, e)
  }

  /** The arrivals on `bar` that a stretch of the plan adds. */
  function Tally(plan: seq<Node>, bar: Bar): nat {
    if plan == [] then 0 else
    Tally(plan[..|plan| - 1], bar) +
    (if Arrival(plan[|plan| - 1].op) == Some(bar) then 1 else 0)
  }

  predicate MetBy(prefix: seq<Node>, waits: seq<Wait>) {
    forall i :: 0 <= i < |waits| ==> waits[i].target <= Tally(prefix, waits[i].bar)
  }

  predicate IsDrainOf(node: Node, q: QueueId) {
    node.Placed? && node.op.Drain? && node.op.queue == q
  }

  /** `p` is the program that `plan` lays out. */
  ghost predicate Realises(p: Program, plan: seq<Node>) {
    && WellFormed(p)
    && (forall j :: 0 <= j < |p.lists| ==> p.lists[j] == ListOf(plan, j))
    && (forall y :: 0 <= y < |plan| && plan[y].Placed? ==> plan[y].sm < |p.lists|)
    && (forall y :: 0 <= y < |plan| && plan[y].Queued? ==>
          && plan[y].queue in p.queues
          && plan[y].entry < |p.queues[plan[y].queue]|
          && p.queues[plan[y].queue][plan[y].entry] == plan[y].op)
    && (forall q, e :: q in p.queues && 0 <= e < |p.queues[q]| ==>
          exists y :: 0 <= y < |plan| && plan[y] == Queued(q, e, p.queues[q][e]))
    && (forall x, y :: 0 <= x < y < |plan| && plan[x].Queued? && plan[y].Queued? ==>
          plan[x].queue != plan[y].queue || plan[x].entry != plan[y].entry)
  }

  /** Queue entries come after every drain of their queue, and there is a drain. */
  ghost predicate DrainsFirst(plan: seq<Node>) {
    && (forall y :: 0 <= y < |plan| && plan[y].Queued? ==>
          forall x :: 0 <= x < |plan| && IsDrainOf(plan[x], plan[y].queue) ==> x < y)
    && (forall y :: 0 <= y < |plan| && plan[y].Queued? ==>
          exists x :: 0 <= x < |plan| && IsDrainOf(plan[x], plan[y].queue))
  }

  /** Every wait is met by what stands earlier in the plan. */
  ghost predicate Supplied(p: Program, plan: seq<Node>)
    requires WellFormed(p)
  {
    forall y :: 0 <= y < |plan| && plan[y].Placed? ==>
      match plan[y].op
      case Task(waits, _) => MetBy(plan[..y], waits)
      case Drain(q, gate) =>
        && MetBy(plan[..y], gate)
        && (q in p.queues ==> forall e :: 0 <= e < |p.queues[q]| ==>
              MetBy(plan[..y], p.queues[q][e].waits))
      case Sync => true
  }

  /** z is SM k's own copy of the sync at y, with nothing else of SM k between. */
  predicate SyncPartner(plan: seq<Node>, y: nat, k: nat, z: nat)
    requires y < |plan| && plan[y].Placed?
  {
    && z < |plan|
    && plan[z] == Placed(k, Sync)
    && var mine := ListOf(plan[..y], plan[y].sm);
       var theirs := ListOf(plan[..z], k);
       && SyncsBefore(theirs, |theirs|) == SyncsBefore(mine, |mine|)
       && forall x :: y <= x < z && plan[x].Placed? ==> plan[x].sm != k
  }

  ghost predicate HasPartner(plan: seq<Node>, y: nat, k: nat)
    requires y < |plan| && plan[y].Placed?
  {
    exists z: nat :: SyncPartner(plan, y, k, z)
  }

  ghost predicate SyncsAligned(p: Program, plan: seq<Node>) {
    forall y: nat, k: nat :: y < |plan| && plan[y].Placed? && plan[y].op.Sync? && k < |p.lists| ==>
      HasPartner(plan, y, k)
  }

  // ---- a plan and the lists it lays out ----

  lemma {:induction false} ListPrefix(plan: seq<Node>, y: nat, j: nat)
    requires y <= |plan|
    ensures ListOf(plan[..y], j) <= ListOf(plan, j)
  {
    if y == |plan| {
      assert plan[..y] == plan;
    } else {
      ListPrefix(plan[..|plan| - 1], y, j);
      assert plan[..|plan| - 1][..y] == plan[..y];
    }
  }

  lemma RankInList(plan: seq<Node>, y: nat)
    requires y < |plan| && plan[y].Placed?
    ensures var j := plan[y].sm; var b := |ListOf(plan[..y], j)|;
      b < |ListOf(plan, j)| && ListOf(plan, j)[b] == plan[y].op
  {
    var j := plan[y].sm;
    ListPrefix(plan, y + 1, j);
    assert plan[..y + 1][..y] == plan[..y];
  }

  lemma {:induction false} NodeOfRank(plan: seq<Node>, j: nat, k: nat) returns (y: nat)
    requires k < |ListOf(plan, j)|
    ensures y < |plan| && plan[y].Placed? && plan[y].sm == j
    ensures |ListOf(plan[..y], j)| == k
  {
    var n := |plan| - 1;
    if k < |ListOf(plan[..n], j)| {
      y := NodeOfRank(plan[..n], j, k);
      assert plan[..n][..y] == plan[..y];
    } else {
      y := n;
    }
  }

  lemma PlanEventsValid(p: Program, plan: seq<Node>, y: nat)
    requires Realises(p, plan) && y < |plan|
    ensures ValidEvent(p, EventAt(plan, y)) && OpOf(p, EventAt(plan, y)) == plan[y].op
  {
    if plan[y].Placed? { RankInList(plan, y); }
  }

  lemma EventsDiffer(p: Program, plan: seq<Node>, x: nat, y: nat)
    requires Realises(p, plan) && x < y < |plan|
    ensures EventAt(plan, x) != EventAt(plan, y)
  {
    if plan[x].Placed? && plan[y].Placed? && plan[x].sm == plan[y].sm {
      var j := plan[x].sm;
      ListPrefix(plan[..y], x + 1, j);
      assert plan[..y][..x + 1] == plan[..x + 1];
      assert plan[..x + 1][..x] == plan[..x];
    }
  }

  // ---- arrivals counted over a plan ----

  function PlanArrivals(plan: seq<Node>, y: nat, bar: Bar): set<Event>
    requires y <= |plan|
  {
    set x | 0 <= x < y && Arrival(plan[x].op) == Some(bar) :: EventAt(plan, x)
  }

  lemma NewArrival(p: Program, plan: seq<Node>, y: nat, bar: Bar)
    requires Realises(p, plan) && y < |plan|
    ensures EventAt(plan, y) !in PlanArrivals(plan, y, bar)
  {
    hide EventAt;
    forall x | 0 <= x < y ensures EventAt(plan, x) != EventAt(plan, y) {
      EventsDiffer(p, plan, x, y);
    }
  }

  lemma ArrivalsStep(plan: seq<Node>, y: nat, bar: Bar)
    requires y < |plan|
    ensures PlanArrivals(plan, y + 1, bar) == PlanArrivals(plan, y, bar) +
      (if Arrival(plan[y].op) == Some(bar) then {EventAt(plan, y)} else {})
  {
    hide EventAt;
  }

  lemma {:induction false} ArrivalsAreTally(p: Program, plan: seq<Node>, y: nat, bar: Bar)
    requires Realises(p, plan) && y <= |plan|
    ensures |PlanArrivals(plan, y, bar)| == Tally(plan[..y], bar)
  {
    hide EventAt;
    hide Realises;
    if y == 0 {
      assert PlanArrivals(plan, y, bar) == {};
    } else {
      ArrivalsAreTally(p, plan, y - 1, bar);
      assert plan[..y][..y - 1] == plan[..y - 1];
      ArrivalsStep(plan, y - 1, bar);
      NewArrival(p, plan, y - 1, bar);
    }
  }

  /** Once everything before y has finished, the waits met before y are satisfied. */
  lemma PrefixSatisfies(p: Program, plan: seq<Node>, m: State, y: nat, waits: seq<Wait>)
    requires Realises(p, plan) && Inv(p, m) && y <= |plan|
    requires forall x :: 0 <= x < y ==> EventAt(plan, x) in m.fired
    requires MetBy(plan[..y], waits)
    ensures Satisfied(m, waits)
  {
    forall i | 0 <= i < |waits| ensures waits[i].target <= Count(m, waits[i].bar) {
      var bar := waits[i].bar;
      ArrivalsAreTally(p, plan, y, bar);
      forall x | 0 <= x < y ensures ArrivesOn(p, EventAt(plan, x), bar) ==
        (Arrival(plan[x].op) == Some(bar))
      {
        PlanEventsValid(p, plan, x);
      }
      assert PlanArrivals(plan, y, bar) <= Arrived(p, m.fired, bar);
      SubsetSize(PlanArrivals(plan, y, bar), Arrived(p, m.fired, bar));
    }
  }

  // ---- progress ----

  lemma EarlierFired(plan: seq<Node>, m: State, y: nat, j: nat, a: nat)
    requires y <= |plan| && a < |ListOf(plan[..y], j)|
    requires forall x :: 0 <= x < y ==> EventAt(plan, x) in m.fired
    ensures Slot(j, a) in m.fired
  {
    var x := NodeOfRank(plan[..y], j, a);
    assert plan[..y][..x] == plan[..x];
    assert EventAt(plan, x) == Slot(j, a);
  }

  lemma AtPosition(p: Program, plan: seq<Node>, m: State, y: nat)
    requires Realises(p, plan) && Inv(p, m) && y < |plan| && plan[y].Placed?
    requires forall x :: 0 <= x < y ==> EventAt(plan, x) in m.fired
    requires EventAt(plan, y) !in m.fired
    ensures var j := plan[y].sm;
      && m.cores[j].pos == |ListOf(plan[..y], j)| < |p.lists[j]|
      && p.lists[j][m.cores[j].pos] == plan[y].op
  {
    var j := plan[y].sm;
    var b := |ListOf(plan[..y], j)|;
    RankInList(plan, y);
    ListPrefix(plan, y, j);
    if m.cores[j].pos < b {
      EarlierFired(plan, m, y, j, m.cores[j].pos);
      assert false;
    }
  }

  lemma DrainFired(p: Program, plan: seq<Node>, m: State, y: nat, j: nat, k: nat)
    requires Realises(p, plan) && DrainsFirst(plan) && y < |plan| && plan[y].Queued?
    requires forall x :: 0 <= x < y ==> EventAt(plan, x) in m.fired
    requires j < |p.lists| && k < |p.lists[j]|
    requires p.lists[j][k].Drain? && p.lists[j][k].queue == plan[y].queue
    ensures Slot(j, k) in m.fired
  {
    var z := NodeOfRank(plan, j, k);
    RankInList(plan, z);
    assert IsDrainOf(plan[z], plan[y].queue);
    assert EventAt(plan, z) == Slot(j, k);
  }

  lemma QueuedCannotBeFirst(p: Program, plan: seq<Node>, m: State, y: nat)
    requires Realises(p, plan) && DrainsFirst(plan) && Inv(p, m) && y < |plan| && plan[y].Queued?
    requires forall x :: 0 <= x < y ==> EventAt(plan, x) in m.fired
    ensures EventAt(plan, y) in m.fired
  {
    var q, e := plan[y].queue, plan[y].entry;
    var x :| 0 <= x < |plan| && IsDrainOf(plan[x], q);
    RankInList(plan, x);
    var j := plan[x].sm;
    var k := |ListOf(plan[..x], j)|;
    assert x < y;
    assert EventAt(plan, x) == Slot(j, k);
    assert p.lists[j][k].Drain? && p.lists[j][k].queue == q;
    assert |p.queues[q]| <= Head(m, q);
    if Claim(q, e) !in m.fired {
      var h: nat :| HoldsEntry(p, m, h, q, e);
      DrainFired(p, plan, m, y, h, m.cores[h].pos);
      assert false;
    }
  }

  lemma SkippedAreFired(plan: seq<Node>, m: State, y: nat, z: nat, k: nat, a: nat)
    requires y < |plan| && plan[y].Placed? && SyncPartner(plan, y, k, z)
    requires forall x :: 0 <= x < y ==> EventAt(plan, x) in m.fired
    requires a < |ListOf(plan[..z], k)|
    ensures Slot(k, a) in m.fired
  {
    var x := NodeOfRank(plan[..z], k, a);
    assert plan[..z][..x] == plan[..x];
    assert EventAt(plan, x) == Slot(k, a);
    assert x < y;
  }

  lemma SyncCanMove(p: Program, plan: seq<Node>, m: State, y: nat) returns (k: nat)
    requires Realises(p, plan) && SyncsAligned(p, plan) && Inv(p, m)
    requires y < |plan| && plan[y].Placed? && plan[y].op.Sync?
    requires forall x :: 0 <= x < y ==> EventAt(plan, x) in m.fired
    requires EventAt(plan, y) !in m.fired
    ensures k < |p.lists| && Step(p, m, k).Some?
  {
    var j := plan[y].sm;
    AtPosition(p, plan, m, y);
    ListPrefix(plan, y, j);
    SyncsPrefix(ListOf(plan[..y], j), p.lists[j]);
    if m.cores[j].stage != Joined(m.gen) {
      k := j;
    } else {
      k := SomeoneNotJoined(m);
      if m.cores[k].stage.Joined? {
      } else {
        assert HasPartner(plan, y, k);
        var z: nat :| SyncPartner(plan, y, k, z);
        RankInList(plan, z);
        ListPrefix(plan, z, k);
        SyncsPrefix(ListOf(plan[..z], k), p.lists[k]);
        var c := |ListOf(plan[..z], k)|;
        if m.cores[k].pos < c {
          SkippedAreFired(plan, m, y, z, k, m.cores[k].pos);
          assert false;
        }
        if m.cores[k].pos > c {
          SyncsMonotone(p.lists[k], c + 1, m.cores[k].pos);
          assert false;
        }
      }
    }
  }

  lemma {:induction false} SyncsPrefix(a: seq<Op>, b: seq<Op>)
    requires a <= b
    ensures SyncsBefore(a, |a|) == SyncsBefore(b, |a|)
  {
    SyncsAgree(a, b, |a|);
  }

  lemma SyncsAgree(a: seq<Op>, b: seq<Op>, k: nat)
    requires a <= b && k <= |a|
    ensures SyncsBefore(a, k) == SyncsBefore(b, k)
  {
  }

  lemma SomeoneNotJoined(m: State) returns (k: nat)
    requires m.joined == |JoinedNow(m)| && m.joined < |m.cores|
    ensures k < |m.cores| && m.cores[k].stage != Joined(m.gen)
  {
    SetSizeBound(JoinedNow(m), |m.cores|);
    if forall i :: 0 <= i < |m.cores| ==> m.cores[i].stage == Joined(m.gen) {
      AllBelowSize(JoinedNow(m), |m.cores|);
      assert false;
    }
    k :| k < |m.cores| && m.cores[k].stage != Joined(m.gen);
  }

  lemma AllBelowSize(s: set<nat>, n: nat)
    requires forall i :: 0 <= i < n ==> i in s
    ensures |s| >= n
  {
    if n > 0 { AllBelowSize(s - {n - 1}, n - 1); }
  }

  lemma FirstUnfired(plan: seq<Node>, m: State, y: nat) returns (x: nat)
    requires y < |plan| && EventAt(plan, y) !in m.fired
    ensures x < |plan| && EventAt(plan, x) !in m.fired
    ensures forall z :: 0 <= z < x ==> EventAt(plan, z) in m.fired
  {
    x := 0;
    while EventAt(plan, x) in m.fired
      invariant x <= y
      decreases y - x
      invariant forall z :: 0 <= z < x ==> EventAt(plan, z) in m.fired
    {
      x := x + 1;
    }
  }

  /** In every state that a run can be in, some SM can step unless all have finished. */
  lemma SomeoneCanStep(p: Program, plan: seq<Node>, m: State) returns (k: nat)
    requires Realises(p, plan) && DrainsFirst(plan) && Supplied(p, plan) && SyncsAligned(p, plan)
    requires Inv(p, m) && !Finished(p, m)
    ensures k < |p.lists| && Step(p, m, k).Some?
  {
    var j :| 0 <= j < |p.lists| && m.cores[j].pos < |p.lists[j]|;
    var last := NodeOfRank(plan, j, m.cores[j].pos);
    assert EventAt(plan, last) == Slot(j, m.cores[j].pos);
    var y := FirstUnfired(plan, m, last);
    if plan[y].Queued? {
      QueuedCannotBeFirst(p, plan, m, y);
      assert false;
    }
    AtPosition(p, plan, m, y);
    k := plan[y].sm;
    match plan[y].op {
      case Task(waits, _) =>
        PrefixSatisfies(p, plan, m, y, waits);
      case Drain(q, gate) =>
        PrefixSatisfies(p, plan, m, y, gate);
        if m.cores[k].stage.Holding? {
          var e := m.cores[k].stage.entry;
          assert HoldsEntry(p, m, k, q, e);
          PrefixSatisfies(p, plan, m, y, p.queues[q][e].waits);
        }
      case Sync =>
        k := SyncCanMove(p, plan, m, y);
    }
  }

  // ---- happens-before ----

  /** If a wait asks for as many arrivals as the whole plan makes, then once it is
      satisfied every event that arrives on its counter has finished. */
  lemma AllProducersFired(p: Program, plan: seq<Node>, m: State, w: Wait)
    requires Realises(p, plan) && Inv(p, m)
    requires Satisfied(m, [w]) && Tally(plan, w.bar) <= w.target
    ensures forall ev :: ArrivesOn(p, ev, w.bar) ==> ev in m.fired
  {
    var bar := w.bar;
    assert [w][0] == w;
    var n := |plan|;
    ArrivalsAreTally(p, plan, n, bar);
    assert plan[..n] == plan;
    forall ev | ArrivesOn(p, ev, bar) ensures ev in PlanArrivals(plan, n, bar) {
      EventInPlan(p, plan, ev);
    }
    assert Arrived(p, m.fired, bar) <= PlanArrivals(plan, n, bar);
    SubsetSize(Arrived(p, m.fired, bar), PlanArrivals(plan, n, bar));
  }

  lemma EventInPlan(p: Program, plan: seq<Node>, ev: Event)
    requires Realises(p, plan) && ValidEvent(p, ev)
    ensures exists y :: 0 <= y < |plan| && EventAt(plan, y) == ev && plan[y].op == OpOf(p, ev)
  {
    match ev {
      case Slot(j, k) =>
        var y := NodeOfRank(plan, j, k);
        RankInList(plan, y);
        assert EventAt(plan, y) == ev;
      case Claim(q, e) =>
        var y :| 0 <= y < |plan| && plan[y] == Queued(q, e, p.queues[q][e]);
        assert EventAt(plan, y) == ev;
    }
  }

  // ---- every run ends ----

  function Busy(m: State): set<nat> {
    set j | 0 <= j < |m.cores| && m.cores[j].stage != Ready
  }

  function Potential(m: State): nat {
    2 * |m.fired| + |Busy(m)|
  }

  /** A step either fires one new event and leaves its SM ready, or fires nothing
      and leaves a ready SM busy. */
  lemma StepShape(p: Program, m: State, j: nat)
    requires WellFormed(p) && Inv(p, m) && j < |p.lists| && Step(p, m, j).Some?
    ensures var m' := Step(p, m, j).value;
      && |m'.cores| == |m.cores|
      && m'.cores == m.cores[j := m'.cores[j]]
      && if m'.cores[j].stage == Ready then |m'.fired| == |m.fired| + 1
         else m'.fired == m.fired && m.cores[j].stage == Ready
  {
    assert Slot(j, m.cores[j].pos) !in m.fired;
    if m.cores[j].stage.Holding? {
      assert HoldsEntry(p, m, j, p.lists[j][m.cores[j].pos].queue, m.cores[j].stage.entry);
    }
  }

  lemma StepRaisesPotential(p: Program, m: State, j: nat)
    requires WellFormed(p) && Inv(p, m) && j < |p.lists| && Step(p, m, j).Some?
    ensures Potential(m) < Potential(Step(p, m, j).value)
  {
    StepShape(p, m, j);
    BusyChange(m, Step(p, m, j).value, j);
  }

  lemma BusyChange(m: State, m': State, j: nat)
    requires j < |m.cores| == |m'.cores| && m'.cores == m.cores[j := m'.cores[j]]
    ensures |Busy(m')| == |Busy(m)| + (if m'.cores[j].stage != Ready then 1 else 0)
                          - (if m.cores[j].stage != Ready then 1 else 0)
  {
    var rest := Busy(m) - {j};
    assert Busy(m') == rest + (if m'.cores[j].stage != Ready then {j} else {});
    assert Busy(m) == rest + (if m.cores[j].stage != Ready then {j} else {});
  }

  lemma {:induction false} RunLength(p: Program, choices: seq<nat>)
    requires WellFormed(p) && Exec(p, choices).Some?
    ensures |choices| <= Potential(Exec(p, choices).value)
  {
    if choices != [] {
      RunLength(p, choices[..|choices| - 1]);
      RunInv(p, choices[..|choices| - 1]);
      StepRaisesPotential(p, Exec(p, choices[..|choices| - 1]).value, choices[|choices| - 1]);
    }
  }

  function EventsOf(plan: seq<Node>, y: nat): set<Event>
    requires y <= |plan|
  {
    set x | 0 <= x < y :: EventAt(plan, x)
  }

  lemma {:induction false} EventsBound(plan: seq<Node>, y: nat)
    requires y <= |plan|
    ensures |EventsOf(plan, y)| <= y
  {
    if y == 0 {
      assert EventsOf(plan, y) == {};
    } else {
      EventsBound(plan, y - 1);
      assert EventsOf(plan, y) == EventsOf(plan, y - 1) + {EventAt(plan, y - 1)};
    }
  }

  /** No run is longer than twice the plan plus one step per SM. */
  lemma RunsAreShort(p: Program, plan: seq<Node>, choices: seq<nat>)
    requires Realises(p, plan) && Exec(p, choices).Some?
    ensures |choices| <= 2 * |plan| + |p.lists|
  {
    var m := Exec(p, choices).value;
    RunLength(p, choices);
    RunInv(p, choices);
    forall ev | ev in m.fired ensures ev in EventsOf(plan, |plan|) {
      EventInPlan(p, plan, ev);
    }
    SubsetSize(m.fired, EventsOf(plan, |plan|));
    EventsBound(plan, |plan|);
    SetSizeBound(Busy(m), |m.cores|);
  }
}
