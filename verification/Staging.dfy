/** Leading a run to a chosen state: with every instruction on an SM of its own, a run can
    finish one stretch of the plan and leave all later SMs where they began, and then let the
    claimers of a queue take its first entries. */
module Staging {
  import opened Wrappers
  import opened Machine
  import opened Progress

  /** Every SM has one instruction. */
  ghost predicate Solo(plan: seq<Node>) {
    forall x, y :: 0 <= x < y < |plan| && plan[x].Placed? && plan[y].Placed? ==> plan[x].sm != plan[y].sm
  }

  ghost predicate NoSync(plan: seq<Node>) { forall y :: 0 <= y < |plan| ==> !plan[y].op.Sync? }

  lemma {:induction false} NoneBefore(plan: seq<Node>, j: nat)
    requires forall x :: 0 <= x < |plan| && plan[x].Placed? ==> plan[x].sm != j
    ensures ListOf(plan, j) == []
  {
    if plan != [] { NoneBefore(plan[..|plan| - 1], j); }
  }

  lemma SoloAt(p: Program, plan: seq<Node>, y: nat)
    requires Realises(p, plan) && Solo(plan) && y < |plan| && plan[y].Placed?
    ensures EventAt(plan, y) == Slot(plan[y].sm, 0) && plan[y].sm < |p.lists|
    ensures |p.lists[plan[y].sm]| > 0 && p.lists[plan[y].sm][0] == plan[y].op
  {
    NoneBefore(plan[..y], plan[y].sm);
    RankInList(plan, y);
  }

  /** Nothing from `cut` on has begun. */
  ghost predicate Calm(plan: seq<Node>, m: State, cut: nat) {
    && (forall y :: cut <= y < |plan| && plan[y].Placed? ==> plan[y].sm < |m.cores| && m.cores[plan[y].sm] == Core(0, Ready))
    && (forall q :: (forall x :: 0 <= x < cut && x < |plan| ==> !IsDrainOf(plan[x], q)) ==> Head(m, q) == 0)
  }

  lemma ShapeOfPlan(p: Program, plan: seq<Node>)
    requires Realises(p, plan)
    ensures WellFormed(p) && forall y :: 0 <= y < |plan| && plan[y].Placed? ==> plan[y].sm < |p.lists|
  {
  }

  lemma StartCalm(p: Program, plan: seq<Node>, cut: nat)
    requires Realises(p, plan)
    ensures Calm(plan, Start(p), cut)
  {
  }

  lemma StepCalm(p: Program, plan: seq<Node>, m: State, cut: nat, y: nat)
    requires Realises(p, plan) && Solo(plan) && |m.cores| == |p.lists| && y < cut <= |plan| && plan[y].Placed?
    requires !plan[y].op.Sync? && Calm(plan, m, cut) && Step(p, m, plan[y].sm).Some?
    requires m.cores[plan[y].sm].pos < |p.lists[plan[y].sm]| && p.lists[plan[y].sm][m.cores[plan[y].sm].pos] == plan[y].op
    ensures Calm(plan, Step(p, m, plan[y].sm).value, cut)
  {
    ShapeOfPlan(p, plan);
    hide Realises;
    var m' := Step(p, m, plan[y].sm).value;
    assert forall j :: 0 <= j < |m.cores| && j != plan[y].sm ==> m'.cores[j] == m.cores[j];
    assert plan[y].op.Drain? ==> IsDrainOf(plan[y], plan[y].op.queue);
    assert forall q :: !IsDrainOf(plan[y], q) ==> Head(m', q) == Head(m, q);
  }

  /** Everything before `cut` can finish while nothing from there on begins. */
  lemma {:induction false} RunUpTo(p: Program, plan: seq<Node>, cut: nat, choices: seq<nat>) returns (more: seq<nat>)
    requires Realises(p, plan) && DrainsFirst(plan) && Supplied(p, plan) && Solo(plan) && NoSync(plan)
    requires cut <= |plan| && Exec(p, choices).Some? && Calm(plan, Exec(p, choices).value, cut)
    ensures Exec(p, more).Some? && Calm(plan, Exec(p, more).value, cut)
    ensures forall x :: 0 <= x < cut ==> EventAt(plan, x) in Exec(p, more).value.fired
    decreases 2 * |plan| + |p.lists| - |choices|
  {
    hide Realises;
    hide DrainsFirst;
    hide Supplied;
    hide Calm;
    hide Step;
    hide EventAt;
    hide Inv;
    ShapeOfPlan(p, plan);
    RunsAreShort(p, plan, choices);
    RunInv(p, choices);
    var m := Exec(p, choices).value;
    if forall x :: 0 <= x < cut ==> EventAt(plan, x) in m.fired {
      more := choices;
    } else {
      var x :| 0 <= x < cut && EventAt(plan, x) !in m.fired;
      var y := FirstUnfired(plan, m, x);
      if y > x { assert false; }
      FirstCanStep(p, plan, m, y);
      StepCalm(p, plan, m, cut, y);
      var k := plan[y].sm;
      assert (choices + [k])[..|choices|] == choices;
      RunsAreShort(p, plan, choices + [k]);
      more := RunUpTo(p, plan, cut, choices + [k]);
    }
  }

  /** The first unfinished node of a plan without barriers can step. */
  lemma FirstCanStep(p: Program, plan: seq<Node>, m: State, y: nat)
    requires Realises(p, plan) && DrainsFirst(plan) && Supplied(p, plan) && NoSync(plan) && Inv(p, m)
    requires y < |plan| && EventAt(plan, y) !in m.fired && forall x :: 0 <= x < y ==> EventAt(plan, x) in m.fired
    ensures plan[y].Placed? && plan[y].sm < |p.lists| && Step(p, m, plan[y].sm).Some?
    ensures m.cores[plan[y].sm].pos < |p.lists[plan[y].sm]| && p.lists[plan[y].sm][m.cores[plan[y].sm].pos] == plan[y].op
  {
    if plan[y].Queued? {
      QueuedCannotBeFirst(p, plan, m, y);
      assert false;
    }
    AtPosition(p, plan, m, y);
    var k := plan[y].sm;
    match plan[y].op {
      case Task(waits, _) =>
        PrefixSatisfies(p, plan, m, y, waits);
      case Drain(q, gate) =>
        PrefixSatisfies(p, plan, m, y, gate);
        if m.cores[k].stage.Holding? {
          var e := m.cores[k].stage.entry;
          assert HoldsEntry(p, m, k, q, e);
          PrefixSatisfies(p, plan, m, y, p.queues[q][e].waits);
        }
    }
  }

  // ---- claims ----

  /** Nodes base, ..., base + n - 1 are claimers of q without a gate, and have not begun. */
  ghost predicate Idling(p: Program, plan: seq<Node>, m: State, q: QueueId, base: nat, n: nat) {
    && base + n <= |plan| && q in p.queues && n <= |p.queues[q]| && Head(m, q) == 0
    && forall i :: base <= i < base + n ==>
      plan[i].Placed? && plan[i].op == Drain(q, []) && plan[i].sm < |m.cores| && m.cores[plan[i].sm] == Core(0, Ready)
  }

  /** From m to m', those claimers have taken one entry each and nothing else has changed. */
  ghost predicate Took(p: Program, plan: seq<Node>, m: State, m': State, q: QueueId, base: nat, n: nat)
    requires base + n <= |plan|
  {
    && m'.counts == m.counts && m'.fired == m.fired && |m'.cores| == |m.cores| && Head(m', q) == n
    && (forall q' :: q' != q ==> Head(m', q') == Head(m, q'))
    && (forall i :: base <= i < base + n ==> plan[i].Placed? && HoldsEntry(p, m', plan[i].sm, q, i - base))
    && (forall j: nat :: j < |m.cores| && (forall i :: base <= i < base + n ==> plan[i].Placed? && plan[i].sm != j) ==>
          m'.cores[j] == m.cores[j])
  }

  lemma {:induction false} ClaimRun(p: Program, plan: seq<Node>, choices: seq<nat>, q: QueueId, base: nat, n: nat)
    returns (more: seq<nat>)
    requires Realises(p, plan) && Solo(plan) && Exec(p, choices).Some? && Idling(p, plan, Exec(p, choices).value, q, base, n)
    ensures Exec(p, more).Some? && Took(p, plan, Exec(p, choices).value, Exec(p, more).value, q, base, n)
  {
    hide Realises;
    hide Exec;
    ShapeOfPlan(p, plan);
    if n == 0 {
      more := choices;
    } else {
      var m := Exec(p, choices).value;
      var first := ClaimRun(p, plan, choices, q, base, n - 1);
      var k := plan[base + n - 1].sm;
      SoloAt(p, plan, base + n - 1);
      more := first + [k];
      ExecMore(p, first, k);
      TakeNext(p, plan, m, Exec(p, first).value, q, base, n);
    }
  }

  lemma ExecMore(p: Program, choices: seq<nat>, k: nat)
    requires WellFormed(p) && Exec(p, choices).Some? && k < |p.lists|
    ensures Exec(p, choices + [k]) == Step(p, Exec(p, choices).value, k)
  {
    assert (choices + [k])[..|choices|] == choices;
  }

  lemma TakeNext(p: Program, plan: seq<Node>, m: State, m': State, q: QueueId, base: nat, n: nat)
    requires Realises(p, plan) && Solo(plan) && |m.cores| == |p.lists| && n > 0 && Idling(p, plan, m, q, base, n)
    requires Took(p, plan, m, m', q, base, n - 1)
    ensures plan[base + n - 1].sm < |p.lists| && Step(p, m', plan[base + n - 1].sm).Some?
    ensures Took(p, plan, m, Step(p, m', plan[base + n - 1].sm).value, q, base, n)
  {
    var y := base + n - 1;
    var k := plan[y].sm;
    SoloAt(p, plan, y);
    assert m'.cores[k] == m.cores[k];
    var m'' := Step(p, m', k).value;
    assert m'' == m'.(cores := m'.cores[k := Core(0, Holding(n - 1))], heads := m'.heads[q := n]);
    TookOneMore(p, plan, m, m', m'', q, base, n);
  }

  lemma TookOneMore(p: Program, plan: seq<Node>, m: State, m': State, m'': State, q: QueueId, base: nat, n: nat)
    requires n > 0 && base + n <= |plan| && Took(p, plan, m, m', q, base, n - 1) && |m.cores| == |p.lists|
    requires var y := base + n - 1;
      && plan[y].Placed? && plan[y].sm < |m.cores| && m'' == m'.(cores := m'.cores[plan[y].sm := Core(0, Holding(n - 1))], heads := m'.heads[q := n])
      && |p.lists[plan[y].sm]| > 0 && p.lists[plan[y].sm][0] == Drain(q, [])
      && (forall i :: base <= i < y ==> plan[i].Placed? ==> plan[i].sm != plan[y].sm)
    ensures Took(p, plan, m, m'', q, base, n)
  {
    var y := base + n - 1;
    forall i | base <= i < base + n ensures plan[i].Placed? && HoldsEntry(p, m'', plan[i].sm, q, i - base) {
      if i < y { assert HoldsEntry(p, m', plan[i].sm, q, i - base); }
    }
    forall j: nat | j < |m.cores| && (forall i :: base <= i < base + n ==> plan[i].Placed? && plan[i].sm != j)
      ensures m''.cores[j] == m.cores[j]
    {
      assert plan[y].sm != j;
    }
  }

  // ---- nodes at work ----

  /** Some SM stands at the task, or holds the entry, and its waits hold. */
  ghost predicate AtWork(p: Program, plan: seq<Node>, m: State, y: nat)
    requires y < |plan|
  {
    && plan[y].op.Task? && Satisfied(m, plan[y].op.waits)
    && match plan[y]
       case Placed(j, _) => j < |m.cores| && m.cores[j] == Core(0, Ready)
       case Queued(q, e, _) => e < Head(m, q) && exists j: nat :: HoldsEntry(p, m, j, q, e)
  }

  /** Claims on another queue by other SMs leave a node at work. */
  lemma StaysAtWork(p: Program, plan: seq<Node>, m: State, m': State, q: QueueId, base: nat, n: nat, z: nat)
    requires Realises(p, plan) && Solo(plan) && base + n <= |plan| && z < |plan| && |m.cores| == |p.lists|
    requires Took(p, plan, m, m', q, base, n) && AtWork(p, plan, m, z)
    requires plan[z].Placed? ==> z < base || base + n <= z
    requires plan[z].Queued? ==> plan[z].queue != q
    requires forall i :: base <= i < base + n ==> plan[i].Placed? && plan[i].op == Drain(q, [])
    ensures AtWork(p, plan, m', z)
  {
    if plan[z].Queued? {
      var j: nat :| HoldsEntry(p, m, j, plan[z].queue, plan[z].entry);
      forall i | base <= i < base + n ensures plan[i].sm != j { SoloAt(p, plan, i); OtherQueue(p, plan, m, j, plan[z].queue, plan[z].entry, i); }
      assert HoldsEntry(p, m', j, plan[z].queue, plan[z].entry);
    } else {
      forall i | base <= i < base + n ensures plan[i].sm != plan[z].sm {}
    }
  }

  /** An SM that holds an entry of another queue is not the SM of this claimer. */
  lemma OtherQueue(p: Program, plan: seq<Node>, m: State, j: nat, q: QueueId, e: nat, i: nat)
    requires Realises(p, plan) && Solo(plan) && i < |plan| && plan[i].Placed? && plan[i].op.Drain? && plan[i].op.queue != q
    requires HoldsEntry(p, m, j, q, e)
    ensures plan[i].sm != j
  {
    SoloAt(p, plan, i);
    if plan[i].sm == j {
      var y := NodeOfRank(plan, j, m.cores[j].pos);
      RankInList(plan, y);
    }
  }

  // ---- bringing one node to work ----

  /** The node can be brought to work: its waits hold, and its SM stands there, or entry i of
      its queue can be claimed. */
  ghost predicate Poised(p: Program, plan: seq<Node>, m: State, q: Option<QueueId>, base: nat, i: nat, y: nat) {
    && y < |plan| && plan[y].op.Task? && Satisfied(m, plan[y].op.waits)
    && match q
       case None => plan[y].Placed? && plan[y].sm < |m.cores| && m.cores[plan[y].sm] == Core(0, Ready)
       case Some(queue) => plan[y] == Queued(queue, i, plan[y].op) && Idling(p, plan, m, queue, base, i + 1)
  }

  lemma BringUp(p: Program, plan: seq<Node>, choices: seq<nat>, q: Option<QueueId>, base: nat, i: nat, y: nat)
    returns (more: seq<nat>)
    requires Realises(p, plan) && Solo(plan) && Exec(p, choices).Some? && Poised(p, plan, Exec(p, choices).value, q, base, i, y)
    ensures Exec(p, more).Some? && AtWork(p, plan, Exec(p, more).value, y)
    ensures q.None? ==> more == choices
    ensures q.Some? ==> base + i < |plan| && Took(p, plan, Exec(p, choices).value, Exec(p, more).value, q.value, base, i + 1)
  {
    hide Realises;
    hide Exec;
    ShapeOfPlan(p, plan);
    match q {
      case None => more := choices;
      case Some(queue) =>
        more := ClaimRun(p, plan, choices, queue, base, i + 1);
        assert HoldsEntry(p, Exec(p, more).value, plan[base + i].sm, queue, base + i - base);
    }
  }

  /** Claims on one queue leave a node poised on another. */
  lemma StaysPoised(p: Program, plan: seq<Node>, m: State, m': State, q: QueueId, base: nat, n: nat,
                    q': Option<QueueId>, base': nat, i: nat, y: nat)
    requires Solo(plan) && base + n <= |plan| && Took(p, plan, m, m', q, base, n) && Poised(p, plan, m, q', base', i, y)
    requires q' != Some(q) && base + n <= base' && (q'.None? ==> base' <= y)
    ensures Poised(p, plan, m', q', base', i, y)
  {
  }
}
