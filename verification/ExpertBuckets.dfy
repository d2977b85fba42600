/** Sorting routed slots by expert with one atomic counter per expert
    (prefill/torch_prefill.py). Every slot is handled by its own thread; the threads
    interleave in any way. */
module ExpertBuckets {
  import opened Arithmetic
  import opened Wrappers

  /** How many of the first n slots go to expert e. */
  function CountUpTo(experts: seq<nat>, e: nat, n: nat): (c: nat)
    requires n <= |experts|
    ensures c <= n
  {
    if n == 0 then 0 else CountUpTo(experts, e, n - 1) + (if experts[n - 1] == e then 1 else 0)
  }

  /** torch.bincount */
  function Count(experts: seq<nat>, e: nat): nat { CountUpTo(experts, e, |experts|) }

  /** Where expert e's segment begins: its cumulative end less its count. */
  function Start(experts: seq<nat>, e: nat): nat {
    if e == 0 then 0 else Start(experts, e - 1) + Count(experts, e - 1)
  }

  // ---- the kernel ----

  /** stage 0: not begun; 1: has its place; 2: inverse order stored; 3: token stored. */
  datatype State = State(
    counter: seq<nat>,
    local: seq<nat>,
    stage: seq<nat>,
    inverse: seq<Option<nat>>,
    sorted: seq<Option<nat>>)

  datatype Job = Job(experts: seq<nat>, numExperts: nat, topK: nat)

  predicate JobOk(j: Job) {
    j.topK > 0 && forall s :: 0 <= s < |j.experts| ==> j.experts[s] < j.numExperts
  }

  function Begin(j: Job): State {
    var n := |j.experts|;
    State(seq(j.numExperts, _ => 0), seq(n, _ => 0), seq(n, _ => 0), seq(n, _ => None), seq(n, _ => None))
  }

  predicate Shaped(j: Job, m: State) {
    && |m.counter| == j.numExperts
    && |m.local| == |m.stage| == |m.inverse| == |m.sorted| == |j.experts|
  }

  /** Thread s takes its next step: the atomic add, the first store, the second store. */
  function Step(j: Job, m: State, s: nat): (r: Option<State>)
    requires JobOk(j) && Shaped(j, m)
    ensures r.Some? ==> Shaped(j, r.value)
  {
    if s >= |j.experts| then None else
    var e := j.experts[s];
    var place := Start(j.experts, e) + m.local[s];
    if m.stage[s] == 0 then
      Some(m.(local := m.local[s := m.counter[e]], counter := m.counter[e := m.counter[e] + 1], stage := m.stage[s := 1]))
    else if m.stage[s] == 1 then
      Some(m.(inverse := m.inverse[s := Some(place)], stage := m.stage[s := 2]))
    else if m.stage[s] == 2 && place < |m.sorted| then
      Some(m.(sorted := m.sorted[place := Some(s / j.topK)], stage := m.stage[s := 3]))
    else None
  }

  function Run(j: Job, choices: seq<nat>): (r: Option<State>)
    requires JobOk(j)
    ensures r.Some? ==> Shaped(j, r.value)
  {
    if choices == [] then Some(Begin(j)) else
    var before := Run(j, choices[..|choices| - 1]);
    if before.None? then None else Step(j, before.value, choices[|choices| - 1])
  }

  predicate Finished(j: Job, m: State)
    requires Shaped(j, m)
  {
    forall s :: 0 <= s < |j.experts| ==> m.stage[s] == 3
  }

  // ---- what every interleaving keeps ----

  /** The slots of expert e that have their place. */
  function Placed(j: Job, m: State, e: nat): set<nat>
    requires Shaped(j, m)
  {
    set s: nat | s < |j.experts| && j.experts[s] == e && m.stage[s] > 0
  }

  function Place(j: Job, m: State, s: nat): nat
    requires Shaped(j, m) && s < |j.experts|
  {
    Start(j.experts, j.experts[s]) + m.local[s]
  }

  ghost predicate CountersOk(j: Job, m: State)
    requires Shaped(j, m)
  {
    forall e: nat :: e < j.numExperts ==> m.counter[e] == |Placed(j, m, e)|
  }

  ghost predicate LocalsLow(j: Job, m: State)
    requires JobOk(j) && Shaped(j, m)
  {
    forall s: nat :: s < |j.experts| && m.stage[s] > 0 ==> m.local[s] < m.counter[j.experts[s]]
  }

  predicate Rivals(j: Job, m: State, s: nat, t: nat)
    requires Shaped(j, m) && s < |j.experts| && t < |j.experts|
  {
    s != t && m.stage[s] > 0 && m.stage[t] > 0 && j.experts[s] == j.experts[t]
  }

  ghost predicate LocalsDiffer(j: Job, m: State)
    requires Shaped(j, m)
  {
    forall s: nat, t: nat :: s < |j.experts| && t < |j.experts| && Rivals(j, m, s, t) ==> m.local[s] != m.local[t]
  }

  ghost predicate InverseOk(j: Job, m: State)
    requires Shaped(j, m)
  {
    forall s: nat :: s < |j.experts| && m.stage[s] >= 2 ==> m.inverse[s] == Some(Place(j, m, s))
  }

  ghost predicate SortedOk(j: Job, m: State)
    requires JobOk(j) && Shaped(j, m)
  {
    forall s: nat :: s < |j.experts| && m.stage[s] >= 3 ==>
      Place(j, m, s) < |m.sorted| && m.sorted[Place(j, m, s)] == Some(s / j.topK)
  }

  ghost predicate Inv(j: Job, m: State) {
    && JobOk(j) && Shaped(j, m)
    && CountersOk(j, m) && LocalsLow(j, m) && LocalsDiffer(j, m) && InverseOk(j, m) && SortedOk(j, m)
  }

  lemma BeginInv(j: Job)
    requires JobOk(j)
    ensures Inv(j, Begin(j))
  {
    forall e: nat | e < j.numExperts ensures Begin(j).counter[e] == |Placed(j, Begin(j), e)| {
      assert Placed(j, Begin(j), e) == {};
    }
  }

  lemma {:induction false} StartMonotone(experts: seq<nat>, a: nat, b: nat)
    requires a < b
    ensures Start(experts, a) + Count(experts, a) <= Start(experts, b)
  {
    if a < b - 1 { StartMonotone(experts, a, b - 1); }
  }

  function SlotsOf(experts: seq<nat>, e: nat, n: nat): set<nat>
    requires n <= |experts|
  {
    set s: nat | s < n && experts[s] == e
  }

  lemma {:induction false} CountIsSize(experts: seq<nat>, e: nat, n: nat)
    requires n <= |experts|
    ensures |SlotsOf(experts, e, n)| == CountUpTo(experts, e, n)
  {
    if n == 0 {
      assert SlotsOf(experts, e, n) == {};
    } else {
      CountIsSize(experts, e, n - 1);
      assert SlotsOf(experts, e, n) == SlotsOf(experts, e, n - 1) + (if experts[n - 1] == e then {n - 1} else {});
    }
  }

  /** A counter never passes the expert's count. */
  lemma CounterBound(j: Job, m: State, e: nat)
    requires Inv(j, m) && e < j.numExperts
    ensures m.counter[e] <= Count(j.experts, e)
  {
    CountIsSize(j.experts, e, |j.experts|);
    SubsetSize(Placed(j, m, e), SlotsOf(j.experts, e, |j.experts|));
  }

  /** Slots that have their place have different places. */
  lemma PlacesDiffer(j: Job, m: State, s: nat, t: nat)
    requires Inv(j, m) && s < |j.experts| && t < |j.experts| && s != t && m.stage[s] > 0 && m.stage[t] > 0
    ensures Place(j, m, s) != Place(j, m, t)
  {
    hide CountersOk;
    var a, b := j.experts[s], j.experts[t];
    assert a == b ==> Rivals(j, m, s, t);
    CounterBound(j, m, a);
    CounterBound(j, m, b);
    if a < b { StartMonotone(j.experts, a, b); }
    if b < a { StartMonotone(j.experts, b, a); }
  }

  lemma {:induction false} StartIsSum(experts: seq<nat>, numExperts: nat, n: nat)
    requires n <= |experts| && forall s :: 0 <= s < |experts| ==> experts[s] < numExperts
    ensures StartUpTo(experts, numExperts, n) == n
  {
    if n == 0 {
      StartZero(experts, numExperts);
    } else {
      StartIsSum(experts, numExperts, n - 1);
      StartStep(experts, numExperts, n);
    }
  }

  /** Start, counting only the first n slots. */
  function StartUpTo(experts: seq<nat>, e: nat, n: nat): nat
    requires n <= |experts|
  {
    if e == 0 then 0 else StartUpTo(experts, e - 1, n) + CountUpTo(experts, e - 1, n)
  }

  lemma {:induction false} StartZero(experts: seq<nat>, e: nat)
    ensures StartUpTo(experts, e, 0) == 0
  {
    if e > 0 { StartZero(experts, e - 1); }
  }

  lemma {:induction false} StartStep(experts: seq<nat>, e: nat, n: nat)
    requires 0 < n <= |experts|
    ensures StartUpTo(experts, e, n) == StartUpTo(experts, e, n - 1) + (if experts[n - 1] < e then 1 else 0)
  {
    if e > 0 { StartStep(experts, e - 1, n); }
  }

  lemma {:induction false} StartFull(experts: seq<nat>, e: nat)
    ensures StartUpTo(experts, e, |experts|) == Start(experts, e)
  {
    if e > 0 { StartFull(experts, e - 1); }
  }

  /** The segments tile the slots: the last one ends at the number of slots. */
  lemma SegmentsTile(j: Job)
    requires JobOk(j)
    ensures Start(j.experts, j.numExperts) == |j.experts|
  {
    StartIsSum(j.experts, j.numExperts, |j.experts|);
    StartFull(j.experts, j.numExperts);
  }

  lemma PlaceInRange(j: Job, m: State, s: nat)
    requires Inv(j, m) && s < |j.experts| && m.stage[s] > 0
    ensures Start(j.experts, j.experts[s]) <= Place(j, m, s) < Start(j.experts, j.experts[s]) + Count(j.experts, j.experts[s])
    ensures Place(j, m, s) < |j.experts|
  {
    CounterBound(j, m, j.experts[s]);
    StartMonotone(j.experts, j.experts[s], j.numExperts);
    SegmentsTile(j);
  }

  lemma SamePlaced(j: Job, m: State, m': State)
    requires JobOk(j) && Shaped(j, m) && Shaped(j, m') && CountersOk(j, m) && m'.counter == m.counter
    requires forall s :: 0 <= s < |j.experts| ==> (m'.stage[s] > 0 <==> m.stage[s] > 0)
    ensures CountersOk(j, m')
  {
    forall f: nat | f < j.numExperts ensures m'.counter[f] == |Placed(j, m', f)| {
      assert Placed(j, m', f) == Placed(j, m, f);
    }
  }

  lemma TakeCounters(j: Job, m: State, s: nat)
    requires Inv(j, m) && s < |j.experts| && m.stage[s] == 0
    ensures CountersOk(j, Step(j, m, s).value)
  {
    hide LocalsLow;
    hide LocalsDiffer;
    hide InverseOk;
    hide SortedOk;
    hide Start;
    var m' := Step(j, m, s).value;
    var e := j.experts[s];
    forall f: nat | f < j.numExperts ensures m'.counter[f] == |Placed(j, m', f)| {
      if f == e { assert Placed(j, m', e) == Placed(j, m, e) + {s}; } else { assert Placed(j, m', f) == Placed(j, m, f); }
    }
  }

  lemma TakeLocals(j: Job, m: State, s: nat)
    requires Inv(j, m) && s < |j.experts| && m.stage[s] == 0
    ensures LocalsLow(j, Step(j, m, s).value) && LocalsDiffer(j, Step(j, m, s).value)
  {
    hide CountersOk;
    hide InverseOk;
    hide SortedOk;
    hide Start;
    var m' := Step(j, m, s).value;
    forall a: nat, b: nat | a < |j.experts| && b < |j.experts| && Rivals(j, m', a, b)
      ensures m'.local[a] != m'.local[b]
    {
      assert a != s && b != s ==> Rivals(j, m, a, b);
    }
  }

  lemma TakePlace(j: Job, m: State, s: nat)
    requires Inv(j, m) && s < |j.experts| && m.stage[s] == 0
    ensures Inv(j, Step(j, m, s).value)
  {
    hide CountersOk;
    hide LocalsLow;
    hide LocalsDiffer;
    hide Start;
    TakeCounters(j, m, s);
    TakeLocals(j, m, s);
  }

  lemma SameRivals(j: Job, m: State, m': State)
    requires Shaped(j, m) && Shaped(j, m') && LocalsDiffer(j, m) && m'.local == m.local
    requires forall s :: 0 <= s < |j.experts| ==> (m'.stage[s] > 0 <==> m.stage[s] > 0)
    ensures LocalsDiffer(j, m')
  {
    forall a: nat, b: nat | a < |j.experts| && b < |j.experts| && Rivals(j, m', a, b)
      ensures m'.local[a] != m'.local[b]
    {
      assert Rivals(j, m, a, b);
    }
  }

  lemma StoreInverse(j: Job, m: State, s: nat)
    requires Inv(j, m) && s < |j.experts| && m.stage[s] == 1
    ensures Inv(j, Step(j, m, s).value)
  {
    hide CountersOk;
    hide LocalsDiffer;
    hide Start;
    SamePlaced(j, m, Step(j, m, s).value);
    SameRivals(j, m, Step(j, m, s).value);
  }

  lemma StoreToken(j: Job, m: State, s: nat)
    requires Inv(j, m) && s < |j.experts| && m.stage[s] == 2 && Step(j, m, s).Some?
    ensures Inv(j, Step(j, m, s).value)
  {
    hide CountersOk;
    hide LocalsDiffer;
    hide Start;
    var m' := Step(j, m, s).value;
    SamePlaced(j, m, m');
    SameRivals(j, m, m');
    forall t: nat | t < |j.experts| && m'.stage[t] >= 3
      ensures Place(j, m', t) < |m'.sorted| && m'.sorted[Place(j, m', t)] == Some(t / j.topK)
    {
      if t != s { PlacesDiffer(j, m, s, t); }
    }
  }

  /** Every step of every interleaving keeps the invariant; a thread that has not finished
      can always step. */
  lemma StepKeeps(j: Job, m: State, s: nat)
    requires Inv(j, m) && s < |j.experts|
    ensures Step(j, m, s).Some? <==> m.stage[s] < 3
    ensures Step(j, m, s).Some? ==> Inv(j, Step(j, m, s).value)
  {
    if m.stage[s] == 0 { TakePlace(j, m, s); }
    else if m.stage[s] == 1 { StoreInverse(j, m, s); }
    else if m.stage[s] == 2 { PlaceInRange(j, m, s); StoreToken(j, m, s); }
  }

  lemma {:induction false} RunKeeps(j: Job, choices: seq<nat>)
    requires JobOk(j) && Run(j, choices).Some?
    ensures Inv(j, Run(j, choices).value)
  {
    if choices == [] {
      BeginInv(j);
    } else {
      RunKeeps(j, choices[..|choices| - 1]);
      StepKeeps(j, Run(j, choices[..|choices| - 1]).value, choices[|choices| - 1]);
    }
  }

  // ---- the result, whatever the order ----

  function InverseOf(j: Job, m: State, s: nat): nat
    requires Shaped(j, m) && s < |j.experts| && m.inverse[s].Some?
  {
    m.inverse[s].value
  }

  /** inverse_order sends different slots to different places, all in range, and the token
      stored there is the slot's own. */
  lemma InverseIsInjective(j: Job, choices: seq<nat>, s: nat, t: nat)
    requires JobOk(j) && Run(j, choices).Some? && Finished(j, Run(j, choices).value)
    requires s < |j.experts| && t < |j.experts| && s != t
    ensures var m := Run(j, choices).value;
      && m.inverse[s].Some? && m.inverse[t].Some? && m.inverse[s] != m.inverse[t]
      && m.inverse[s].value < |j.experts|
      && m.sorted[m.inverse[s].value] == Some(s / j.topK)
  {
    RunKeeps(j, choices);
    var m := Run(j, choices).value;
    PlacesDiffer(j, m, s, t);
    PlaceInRange(j, m, s);
  }

  /** The local places of expert e's slots among the first n. */
  function Locals(j: Job, m: State, e: nat, n: nat): set<nat>
    requires Shaped(j, m) && n <= |j.experts|
  {
    set s: nat | s < n && j.experts[s] == e :: m.local[s]
  }

  lemma {:induction false} LocalsSize(j: Job, m: State, e: nat, n: nat)
    requires Inv(j, m) && Finished(j, m) && n <= |j.experts|
    ensures |Locals(j, m, e, n)| == CountUpTo(j.experts, e, n)
  {
    hide CountersOk;
    hide LocalsLow;
    hide InverseOk;
    hide SortedOk;
    if n == 0 {
      assert Locals(j, m, e, n) == {};
    } else {
      LocalsSize(j, m, e, n - 1);
      if j.experts[n - 1] == e {
        assert Locals(j, m, e, n) == Locals(j, m, e, n - 1) + {m.local[n - 1]};
        forall s: nat | s < n - 1 && j.experts[s] == e ensures m.local[s] != m.local[n - 1] {
          assert Rivals(j, m, s, n - 1);
        }
      } else {
        assert Locals(j, m, e, n) == Locals(j, m, e, n - 1);
      }
    }
  }

  function Upto(n: nat): (r: set<nat>)
    ensures |r| == n && forall i: nat :: i in r <==> i < n
  {
    if n == 0 then {} else Upto(n - 1) + {n - 1}
  }

  lemma LocalsCover(j: Job, m: State, e: nat, i: nat) returns (s: nat)
    requires Inv(j, m) && Finished(j, m) && e < j.numExperts && i < Count(j.experts, e)
    ensures s < |j.experts| && j.experts[s] == e && m.local[s] == i
  {
    hide CountersOk;
    hide InverseOk;
    hide SortedOk;
    hide LocalsDiffer;
    var n, c := |j.experts|, Count(j.experts, e);
    LocalsSize(j, m, e, n);
    CounterBound(j, m, e);
    SubsetSize(Locals(j, m, e, n), Upto(c));
    assert i in Locals(j, m, e, n);
    s :| s < n && j.experts[s] == e && m.local[s] == i;
  }

  /** Each expert's slots fill exactly its segment [start, end): every place of the segment
      is some slot's and holds that slot's token, and only its slots land there. */
  lemma SegmentFilled(j: Job, choices: seq<nat>, e: nat, place: nat)
    requires JobOk(j) && Run(j, choices).Some? && Finished(j, Run(j, choices).value) && e < j.numExperts
    ensures var m := Run(j, choices).value;
      (Start(j.experts, e) <= place < Start(j.experts, e) + Count(j.experts, e)) <==>
      exists s: nat :: s < |j.experts| && j.experts[s] == e && Holds(j, m, s, place)
  {
    hide CountersOk;
    hide LocalsLow;
    hide LocalsDiffer;
    hide Start;
    RunKeeps(j, choices);
    var m := Run(j, choices).value;
    if Start(j.experts, e) <= place < Start(j.experts, e) + Count(j.experts, e) {
      var s := LocalsCover(j, m, e, place - Start(j.experts, e));
      assert Holds(j, m, s, place);
    }
    if s: nat :| s < |j.experts| && j.experts[s] == e && Holds(j, m, s, place) {
      PlaceInRange(j, m, s);
    }
  }

  /** Slot s has been given `place`, and its token is stored there. */
  predicate Holds(j: Job, m: State, s: nat, place: nat)
    requires j.topK > 0 && Shaped(j, m) && s < |j.experts|
  {
    m.inverse[s] == Some(place) && place < |m.sorted| && m.sorted[place] == Some(s / j.topK)
  }

  // ---- the combine ----

  predicate InSegment(j: Job, e: nat, i: nat) {
    Start(j.experts, e) <= i < Start(j.experts, e) + Count(j.experts, e)
  }

  /** The grouped matrix product: row i of the sorted batch goes through the expert whose
      segment it lies in; what the expert computes is left open. */
  ghost predicate ExpertOutputs(j: Job, m: State, f: (nat, nat) -> real, out: seq<real>)
    requires Shaped(j, m)
  {
    && |out| == |j.experts|
    && forall i: nat, e: nat :: i < |out| && e < j.numExperts && m.sorted[i].Some? && InSegment(j, e, i) ==>
      out[i] == f(e, m.sorted[i].value)
  }

  /** The weighted sum of a token's first n experts, straight from the routing. */
  function Direct(j: Job, f: (nat, nat) -> real, scores: seq<real>, token: nat, n: nat): real
    requires n <= j.topK && token * j.topK + j.topK <= |j.experts| == |scores|
  {
    if n == 0 then 0.0 else
    Direct(j, f, scores, token, n - 1) +
      f(j.experts[token * j.topK + n - 1], token) * scores[token * j.topK + n - 1]
  }

  lemma TokenOfSlot(token: nat, k: nat, topK: nat)
    requires k < topK
    ensures (token * topK + k) / topK == token
  {
    var s := token * topK + k;
    assert s == (s / topK) * topK + s % topK;
    if s / topK < token { MulApart(s / topK, token, topK); }
    if s / topK > token { MulApart(token, s / topK, topK); }
  }

  /** _moe_gather_combine_kernel for one token: whatever order the slots were bucketed in,
      the gathered sum is the direct one. */
  method GatherCombine(j: Job, ghost choices: seq<nat>, ghost f: (nat, nat) -> real, inverse: seq<nat>,
                       out: seq<real>, scores: seq<real>, token: nat) returns (sum: real)
    requires JobOk(j) && Run(j, choices).Some? && Finished(j, Run(j, choices).value)
    requires token * j.topK + j.topK <= |j.experts| == |scores| == |inverse| == |out|
    requires forall s :: 0 <= s < |inverse| ==> Run(j, choices).value.inverse[s] == Some(inverse[s])
    requires ExpertOutputs(j, Run(j, choices).value, f, out)
    ensures sum == Direct(j, f, scores, token, j.topK)
  {
    hide Run;
    hide Finished;
    hide ExpertOutputs;
    hide JobOk;
    sum := 0.0;
    for k := 0 to j.topK
      invariant sum == Direct(j, f, scores, token, k)
    {
      var slot := token * j.topK + k;
      Term(j, choices, f, inverse, out, token, k);
      sum := sum + out[inverse[slot]] * scores[slot];
    }
  }

  /** The k-th term of a token's sum. */
  lemma Term(j: Job, choices: seq<nat>, f: (nat, nat) -> real, inverse: seq<nat>, out: seq<real>, token: nat, k: nat)
    requires JobOk(j) && Run(j, choices).Some? && Finished(j, Run(j, choices).value)
    requires token * j.topK + j.topK <= |j.experts| == |inverse| == |out| && k < j.topK
    requires forall s :: 0 <= s < |inverse| ==> Run(j, choices).value.inverse[s] == Some(inverse[s])
    requires ExpertOutputs(j, Run(j, choices).value, f, out)
    ensures var slot := token * j.topK + k;
      inverse[slot] < |out| && out[inverse[slot]] == f(j.experts[slot], token)
  {
    hide Run;
    hide Finished;
    hide ExpertOutputs;
    var slot := token * j.topK + k;
    SlotOutput(j, choices, f, out, slot, inverse[slot]);
    TokenOfSlot(token, k, j.topK);
  }

  lemma SlotOutput(j: Job, choices: seq<nat>, f: (nat, nat) -> real, out: seq<real>, s: nat, place: nat)
    requires JobOk(j) && Run(j, choices).Some? && Finished(j, Run(j, choices).value) && s < |j.experts|
    requires Run(j, choices).value.inverse[s] == Some(place) && ExpertOutputs(j, Run(j, choices).value, f, out)
    ensures place < |out| && out[place] == f(j.experts[s], s / j.topK)
  {
    RunKeeps(j, choices);
    PlaceInRange(j, Run(j, choices).value, s);
    assert InSegment(j, j.experts[s], place);
  }
}
