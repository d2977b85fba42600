/** What has fired stays justified: counters only grow, so the waits of every finished
    task, and the gate of every queue that was claimed from, hold ever after. */
module History {
  import opened Arithmetic
  import opened Wrappers
  import opened Machine
  import opened Progress

  ghost predicate Grown(m: State, m': State) {
    forall bar :: Count(m, bar) <= Count(m', bar)
  }

  lemma StillSatisfied(m: State, m': State, waits: seq<Wait>)
    requires Grown(m, m') && Satisfied(m, waits)
    ensures Satisfied(m', waits)
  {
    forall i | 0 <= i < |waits| ensures waits[i].target <= Count(m', waits[i].bar) {
      assert Count(m, waits[i].bar) <= Count(m', waits[i].bar);
    }
  }

  lemma StepGrows(p: Program, m: State, j: nat)
    requires WellFormed(p) && |m.cores| == |p.lists| && j < |p.lists| && Step(p, m, j).Some?
    ensures Grown(m, Step(p, m, j).value)
  {
  }

  ghost predicate FiredJustified(p: Program, m: State) {
    forall ev :: ev in m.fired && ValidEvent(p, ev) && OpOf(p, ev).Task? ==>
      Satisfied(m, OpOf(p, ev).waits)
  }

  /** A drain of q whose gate is open. */
  predicate OpenGate(p: Program, m: State, q: QueueId, j: nat, k: nat) {
    && j < |p.lists| && k < |p.lists[j]| && p.lists[j][k].Drain? && p.lists[j][k].queue == q
    && Satisfied(m, p.lists[j][k].gate)
  }

  ghost predicate GatesOpen(p: Program, m: State) {
    forall q :: Head(m, q) > 0 ==> exists j: nat, k: nat :: OpenGate(p, m, q, j, k)
  }

  lemma NewlyFired(p: Program, m: State, j: nat, ev: Event)
    requires WellFormed(p) && Inv(p, m) && j < |p.lists| && Step(p, m, j).Some?
    requires ev in Step(p, m, j).value.fired && ev !in m.fired
    ensures ValidEvent(p, ev) && (OpOf(p, ev).Task? ==> Satisfied(m, OpOf(p, ev).waits))
  {
    hide QueuesOk;
    hide CountsOk;
    hide SyncsOk;
    hide Satisfied;
  }

  lemma StepJustified(p: Program, m: State, j: nat)
    requires WellFormed(p) && Inv(p, m) && j < |p.lists| && Step(p, m, j).Some?
    requires FiredJustified(p, m)
    ensures FiredJustified(p, Step(p, m, j).value)
  {
    hide Step;
    hide Satisfied;
    hide QueuesOk;
    hide CountsOk;
    hide SyncsOk;
    hide FiredOk;
    var m' := Step(p, m, j).value;
    StepGrows(p, m, j);
    forall ev | ev in m'.fired && ValidEvent(p, ev) && OpOf(p, ev).Task?
      ensures Satisfied(m', OpOf(p, ev).waits)
    {
      if ev !in m.fired { NewlyFired(p, m, j, ev); }
      StillSatisfied(m, m', OpOf(p, ev).waits);
    }
  }

  lemma NewlyClaimed(p: Program, m: State, j: nat, q: QueueId)
    requires WellFormed(p) && Inv(p, m) && j < |p.lists| && Step(p, m, j).Some?
    requires Head(Step(p, m, j).value, q) > 0 && Head(m, q) == 0
    ensures OpenGate(p, m, q, j, m.cores[j].pos)
  {
    hide QueuesOk;
    hide CountsOk;
    hide SyncsOk;
    hide Satisfied;
  }

  lemma StepGates(p: Program, m: State, j: nat)
    requires WellFormed(p) && Inv(p, m) && j < |p.lists| && Step(p, m, j).Some?
    requires GatesOpen(p, m)
    ensures GatesOpen(p, Step(p, m, j).value)
  {
    hide Step;
    hide Satisfied;
    hide QueuesOk;
    hide CountsOk;
    hide SyncsOk;
    hide FiredOk;
    var m' := Step(p, m, j).value;
    StepGrows(p, m, j);
    forall q | Head(m', q) > 0 ensures exists i: nat, k: nat :: OpenGate(p, m', q, i, k) {
      var i: nat, k: nat;
      if Head(m, q) > 0 {
        i, k :| OpenGate(p, m, q, i, k);
      } else {
        NewlyClaimed(p, m, j, q);
        i, k := j, m.cores[j].pos;
      }
      StillSatisfied(m, m', p.lists[i][k].gate);
      assert OpenGate(p, m', q, i, k);
    }
  }

  lemma {:induction false} RunHistory(p: Program, choices: seq<nat>)
    requires WellFormed(p) && Exec(p, choices).Some?
    ensures FiredJustified(p, Exec(p, choices).value) && GatesOpen(p, Exec(p, choices).value)
  {
    hide FiredJustified;
    hide GatesOpen;
    hide Step;
    if choices == [] {
      StartHistory(p);
    } else {
      var before := choices[..|choices| - 1];
      RunHistory(p, before);
      RunInv(p, before);
      StepJustified(p, Exec(p, before).value, choices[|choices| - 1]);
      StepGates(p, Exec(p, before).value, choices[|choices| - 1]);
    }
  }

  lemma StartHistory(p: Program)
    ensures FiredJustified(p, Start(p)) && GatesOpen(p, Start(p))
  {
  }

  /** Producers up to a cut: if a satisfied wait asks for all the arrivals made before
      the cut, and nothing after the cut has arrived yet, all of them have finished. */
  lemma PrefixProducersFired(p: Program, plan: seq<Node>, m: State, w: Wait, cut: nat)
    requires Realises(p, plan) && Inv(p, m) && cut <= |plan|
    requires Satisfied(m, [w]) && Tally(plan[..cut], w.bar) <= w.target
    requires forall z :: cut <= z < |plan| && Arrival(plan[z].op) == Some(w.bar) ==>
      EventAt(plan, z) !in m.fired
    ensures forall z :: 0 <= z < cut && Arrival(plan[z].op) == Some(w.bar) ==> EventAt(plan, z) in m.fired
  {
    hide EventAt;
    hide Satisfied;
    var bar := w.bar;
    OneWait(m, w);
    ArrivalsAreTally(p, plan, cut, bar);
    forall ev | ev in Arrived(p, m.fired, bar) ensures ev in PlanArrivals(plan, cut, bar) {
      EventInPlan(p, plan, ev);
      var z :| 0 <= z < |plan| && EventAt(plan, z) == ev && plan[z].op == OpOf(p, ev);
      assert z < cut;
    }
    SubsetSize(Arrived(p, m.fired, bar), PlanArrivals(plan, cut, bar));
    forall z | 0 <= z < cut && Arrival(plan[z].op) == Some(bar) ensures EventAt(plan, z) in m.fired {
      assert EventAt(plan, z) in PlanArrivals(plan, cut, bar);
    }
  }

  lemma OneWait(m: State, w: Wait)
    ensures Satisfied(m, [w]) <==> w.target <= Count(m, w.bar)
  {
    assert [w][0] == w;
  }
}
