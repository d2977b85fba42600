/** The persistent kernel as a transition system.

    Every streaming multiprocessor (SM) walks its own instruction list in order
    (decode/megakernel.cuh, worker_loop). A task waits until shared counters reach
    their targets, runs, and adds one arrival to at most one counter. A drain
    claims entries off a shared queue until the queue is exhausted. A sync joins
    the grid barrier. Any SM that can step may step next. */
module Machine {
  import opened Wrappers

  datatype BarKind =
    | BLayer | BQkv | BCombine | BAttn | BSilu | BFfnDown | BOproj
    | BRouter | BTopk | BRoute | BGather | BMoeUp | BMoeDown

  /** One counter: an array of the launch descriptor and an index into it. */
  datatype Bar = Bar(kind: BarKind, idx: int)

  datatype Wait = Wait(bar: Bar, target: nat)

  datatype QueueKind = AttnQueue | MoeUpQueue | MoeDownQueue

  datatype QueueId = QueueId(kind: QueueKind, layer: nat)

  /** What an instruction asks of the machine. */
  datatype Op =
    | Task(waits: seq<Wait>, arrive: Option<Bar>)
    | Drain(queue: QueueId, gate: seq<Wait>)
    | Sync

  datatype Program = Program(lists: seq<seq<Op>>, queues: map<QueueId, seq<Op>>)

  /** Ready: about to look at the instruction at `pos`. Holding(e): a drain that
      claimed entry e and has not finished it. Joined(g): a sync that counted
      itself in generation g. */
  datatype Stage = Ready | Holding(entry: nat) | Joined(gen: nat)

  datatype Core = Core(pos: nat, stage: Stage)

  datatype Event = Slot(sm: nat, pos: nat) | Claim(queue: QueueId, entry: nat)

  /** `fired` is history: the events that have finished. No step reads it. */
  datatype State = State(
    cores: seq<Core>,
    counts: map<Bar, nat>,
    heads: map<QueueId, nat>,
    gen: nat,
    joined: nat,
    fired: set<Event>)

  // ---- semantics ----

  predicate WellFormed(p: Program) {
    && (forall q, e :: q in p.queues && 0 <= e < |p.queues[q]| ==> p.queues[q][e].Task?)
    && (forall j, k :: 0 <= j < |p.lists| && 0 <= k < |p.lists[j]| && p.lists[j][k].Drain?
          ==> p.lists[j][k].queue in p.queues)
  }

  function Start(p: Program): State {
    State(seq(|p.lists|, j => Core(0, Ready)), map[], map[], 0, 0, {})
  }

  function Count(m: State, bar: Bar): nat {
    if bar in m.counts then m.counts[bar] else 0
  }

  function Head(m: State, q: QueueId): nat {
    if q in m.heads then m.heads[q] else 0
  }

  predicate Satisfied(m: State, waits: seq<Wait>) {
    forall i :: 0 <= i < |waits| ==> waits[i].target <= Count(m, waits[i].bar)
  }

  function Bump(m: State, arrive: Option<Bar>): map<Bar, nat> {
    if arrive.Some? then m.counts[arrive.value := Count(m, arrive.value) + 1] else m.counts
  }

  /** SM `j` finishes the instruction it is at. */
  function Advance(m: State, j: nat): State
    requires j < |m.cores|
  {
    m.(cores := m.cores[j := Core(m.cores[j].pos + 1, Ready)],
       fired := m.fired + {Slot(j, m.cores[j].pos)})
  }

  predicate Finished(p: Program, m: State)
    requires |m.cores| == |p.lists|
  {
    forall j :: 0 <= j < |p.lists| ==> m.cores[j].pos >= |p.lists[j]|
  }

  function StepTask(m: State, j: nat, op: Op): Option<State>
    requires j < |m.cores| && op.Task?
  {
    if Satisfied(m, op.waits) then Some(Advance(m, j).(counts := Bump(m, op.arrive))) else None
  }

  function StepDrain(p: Program, m: State, j: nat, op: Op): Option<State>
    requires WellFormed(p) && j < |m.cores| && op.Drain? && op.queue in p.queues
  {
    var queue := p.queues[op.queue];
    match m.cores[j].stage
    case Holding(e) =>
      if e < |queue| && Satisfied(m, queue[e].waits) then
        Some(m.(cores := m.cores[j := Core(m.cores[j].pos, Ready)],
                counts := Bump(m, queue[e].arrive),
                fired := m.fired + {Claim(op.queue, e)}))
      else None
    case _ =>
      if !Satisfied(m, op.gate) then None else
      var local := Head(m, op.queue);
      var claimed := m.(heads := m.heads[op.queue := local + 1]);
      if local < |queue| then
        Some(claimed.(cores := m.cores[j := Core(m.cores[j].pos, Holding(local))]))
      else Some(Advance(claimed, j))
  }

  function StepSync(m: State, j: nat): Option<State>
    requires j < |m.cores|
  {
    match m.cores[j].stage
    case Joined(g) => if g != m.gen then Some(Advance(m, j)) else None
    case _ =>
      if m.joined + 1 == |m.cores| then
        Some(Advance(m, j).(gen := m.gen + 1, joined := 0))
      else
        Some(m.(cores := m.cores[j := Core(m.cores[j].pos, Joined(m.gen))],
                joined := m.joined + 1))
  }

  /** The step SM `j` can take, if any. */
  function Step(p: Program, m: State, j: nat): Option<State>
    requires WellFormed(p) && |m.cores| == |p.lists| && j < |p.lists|
  {
    var c := m.cores[j];
    if c.pos >= |p.lists[j]| then None else
    match p.lists[j][c.pos]
    case Task(_, _) => StepTask(m, j, p.lists[j][c.pos])
    case Drain(_, _) => StepDrain(p, m, j, p.lists[j][c.pos])
    case Sync => StepSync(m, j)
  }

  /** The state after the SMs step in the order `choices`; None if a chosen SM could not. */
  function Exec(p: Program, choices: seq<nat>): (r: Option<State>)
    requires WellFormed(p)
    ensures r.Some? ==> |r.value.cores| == |p.lists|
  {
    if choices == [] then Some(Start(p)) else
    var before := Exec(p, choices[..|choices| - 1]);
    var j := choices[|choices| - 1];
    if before.None? || j >= |p.lists| then None else Step(p, before.value, j)
  }

  // ---- events ----

  predicate ValidEvent(p: Program, ev: Event) {
    match ev
    case Slot(j, k) => j < |p.lists| && k < |p.lists[j]|
    case Claim(q, e) => q in p.queues && e < |p.queues[q]|
  }

  function OpOf(p: Program, ev: Event): Op
    requires ValidEvent(p, ev)
  {
    match ev
    case Slot(j, k) => p.lists[j][k]
    case Claim(q, e) => p.queues[q][e]
  }

  function Arrival(op: Op): Option<Bar> {
    if op.Task? then op.arrive else None
  }

  predicate ArrivesOn(p: Program, ev: Event, bar: Bar) {
    ValidEvent(p, ev) && Arrival(OpOf(p, ev)) == Some(bar)
  }

  function Arrived(p: Program, fired: set<Event>, bar: Bar): set<Event> {
    set ev | ev in fired && ArrivesOn(p, ev, bar)
  }

  function SyncsBefore(ops: seq<Op>, k: nat): nat
    requires k <= |ops|
  {
    if k == 0 then 0 else SyncsBefore(ops, k - 1) + (if ops[k - 1].Sync? then 1 else 0)
  }

  lemma SyncsMonotone(ops: seq<Op>, a: nat, b: nat)
    requires a <= b <= |ops|
    ensures SyncsBefore(ops, a) <= SyncsBefore(ops, b)
  {
    if a < b { SyncsMonotone(ops, a, b - 1); }
  }

  // ---- what every run keeps ----

  predicate HoldsEntry(p: Program, m: State, j: nat, q: QueueId, e: nat) {
    && j < |m.cores| && |m.cores| == |p.lists|
    && m.cores[j].stage == Holding(e)
    && m.cores[j].pos < |p.lists[j]|
    && p.lists[j][m.cores[j].pos].Drain?
    && p.lists[j][m.cores[j].pos].queue == q
  }

  ghost predicate CoresOk(p: Program, m: State) {
    && |m.cores| == |p.lists|
    && (forall j :: 0 <= j < |m.cores| ==> m.cores[j].pos <= |p.lists[j]|)
    && (forall j :: 0 <= j < |m.cores| && m.cores[j].stage != Ready ==>
          m.cores[j].pos < |p.lists[j]|)
    && (forall j :: 0 <= j < |m.cores| && m.cores[j].stage.Holding? ==>
          p.lists[j][m.cores[j].pos].Drain?)
    && (forall j :: 0 <= j < |m.cores| && m.cores[j].stage.Joined? ==>
          p.lists[j][m.cores[j].pos].Sync?)
  }

  ghost predicate FiredOk(p: Program, m: State)
    requires CoresOk(p, m)
  {
    && (forall ev :: ev in m.fired ==> ValidEvent(p, ev))
    && (forall j, k :: 0 <= j < |p.lists| && 0 <= k < |p.lists[j]| ==>
          (Slot(j, k) in m.fired <==> k < m.cores[j].pos))
  }

  ghost predicate QueuesOk(p: Program, m: State)
    requires CoresOk(p, m) && WellFormed(p)
  {
    && (forall q, e: nat :: Claim(q, e) in m.fired ==> e < Head(m, q))
    && (forall q, e :: q in p.queues && 0 <= e < |p.queues[q]| && e < Head(m, q) ==>
          Claim(q, e) in m.fired || exists j: nat :: HoldsEntry(p, m, j, q, e))
    && (forall j: nat, q, e: nat :: HoldsEntry(p, m, j, q, e) ==>
          e < |p.queues[q]| && e < Head(m, q) && Claim(q, e) !in m.fired)
    && (forall i: nat, j: nat, q, e: nat :: HoldsEntry(p, m, i, q, e) && HoldsEntry(p, m, j, q, e) ==> i == j)
    && (forall j, k :: 0 <= j < |p.lists| && 0 <= k < m.cores[j].pos && p.lists[j][k].Drain? ==>
          |p.queues[p.lists[j][k].queue]| <= Head(m, p.lists[j][k].queue))
  }

  ghost predicate CountsOk(p: Program, m: State) {
    forall bar :: Count(m, bar) == |Arrived(p, m.fired, bar)|
  }

  function JoinedNow(m: State): set<nat> {
    set j | 0 <= j < |m.cores| && m.cores[j].stage == Joined(m.gen)
  }

  ghost predicate SyncsOk(p: Program, m: State)
    requires CoresOk(p, m)
  {
    && m.joined == |JoinedNow(m)|
    && (|m.cores| > 0 ==> m.joined < |m.cores|)
    && (forall j :: 0 <= j < |m.cores| ==>
          match m.cores[j].stage
          case Joined(g) =>
            SyncsBefore(p.lists[j], m.cores[j].pos) == g && (g == m.gen || g + 1 == m.gen)
          case _ => SyncsBefore(p.lists[j], m.cores[j].pos) == m.gen)
  }

  ghost predicate Inv(p: Program, m: State)
    requires WellFormed(p)
  {
    CoresOk(p, m) && FiredOk(p, m) && QueuesOk(p, m) && CountsOk(p, m) && SyncsOk(p, m)
  }

  lemma StartInv(p: Program)
    requires WellFormed(p)
    ensures Inv(p, Start(p))
  {
    var m := Start(p);
    assert JoinedNow(m) == {};
    forall bar ensures Count(m, bar) == |Arrived(p, m.fired, bar)| {
      assert Arrived(p, m.fired, bar) == {};
    }
  }

  /** Firing one more event moves exactly the counter it arrives on. */
  lemma CountsStep(p: Program, m: State, m': State, ev: Event)
    requires CountsOk(p, m) && ValidEvent(p, ev) && ev !in m.fired
    requires m'.fired == m.fired + {ev}
    requires m'.counts == Bump(m, Arrival(OpOf(p, ev)))
    ensures CountsOk(p, m')
  {
    forall bar ensures Count(m', bar) == |Arrived(p, m'.fired, bar)| {
      if ArrivesOn(p, ev, bar) {
        assert Arrived(p, m'.fired, bar) == Arrived(p, m.fired, bar) + {ev};
      } else {
        assert Arrived(p, m'.fired, bar) == Arrived(p, m.fired, bar);
      }
    }
  }

  lemma CountsSame(p: Program, m: State, m': State)
    requires CountsOk(p, m) && m'.fired == m.fired && m'.counts == m.counts
    ensures CountsOk(p, m')
  {
    forall bar ensures Count(m', bar) == |Arrived(p, m'.fired, bar)| {
      assert Count(m', bar) == Count(m, bar);
    }
  }

  lemma SetSizeBound(s: set<nat>, n: nat)
    requires forall x :: x in s ==> x < n
    ensures |s| <= n
    ensures |s| == n ==> forall x :: 0 <= x < n ==> x in s
  {
    if n == 0 {
      assert forall x :: x !in s;
    } else {
      var t := s - {n - 1};
      SetSizeBound(t, n - 1);
      if n - 1 in s { assert s == t + {n - 1}; } else { assert s == t; }
    }
  }

  // ---- one step keeps the invariant ----

  /** A step that leaves queue heads, claims and holders alone keeps QueuesOk. */
  lemma QueuesSame(p: Program, m: State, m': State)
    requires WellFormed(p) && CoresOk(p, m) && CoresOk(p, m') && QueuesOk(p, m)
    requires m'.heads == m.heads
    requires forall q, e: nat :: Claim(q, e) in m'.fired <==> Claim(q, e) in m.fired
    requires forall i: nat, q, e: nat :: HoldsEntry(p, m', i, q, e) <==> HoldsEntry(p, m, i, q, e)
    requires forall j, k :: 0 <= j < |p.lists| && 0 <= k < m'.cores[j].pos && p.lists[j][k].Drain? ==>
               k < m.cores[j].pos
    ensures QueuesOk(p, m')
  {
    forall q, e: nat | q in p.queues && e < |p.queues[q]| && e < Head(m', q)
      ensures Claim(q, e) in m'.fired || exists j: nat :: HoldsEntry(p, m', j, q, e)
    {
      if Claim(q, e) !in m'.fired {
        var j: nat :| HoldsEntry(p, m, j, q, e);
        assert HoldsEntry(p, m', j, q, e);
      }
    }
  }

  lemma TaskStepInv(p: Program, m: State, j: nat)
    requires WellFormed(p) && Inv(p, m) && j < |p.lists|
    requires m.cores[j].pos < |p.lists[j]| && p.lists[j][m.cores[j].pos].Task?
    requires Step(p, m, j).Some?
    ensures Inv(p, Step(p, m, j).value)
  {
    hide Arrived;
    hide ArrivesOn;
    var m' := Step(p, m, j).value;
    CountsStep(p, m, m', Slot(j, m.cores[j].pos));
    assert JoinedNow(m') == JoinedNow(m);
    QueuesSame(p, m, m');
  }

  /** What a drain step does to the cores, for either outcome. */
  lemma DrainCores(p: Program, m: State, m': State, j: nat)
    requires WellFormed(p) && Inv(p, m) && j < |p.lists|
    requires m.cores[j].pos < |p.lists[j]| && p.lists[j][m.cores[j].pos].Drain?
    requires StepDrain(p, m, j, p.lists[j][m.cores[j].pos]) == Some(m')
    ensures CoresOk(p, m')
    ensures m'.cores == m.cores[j := m'.cores[j]]
    ensures if m.cores[j].stage.Holding? then m'.cores[j] == Core(m.cores[j].pos, Ready)
      else if Head(m, p.lists[j][m.cores[j].pos].queue) < |p.queues[p.lists[j][m.cores[j].pos].queue]| then
        m'.cores[j] == Core(m.cores[j].pos, Holding(Head(m, p.lists[j][m.cores[j].pos].queue)))
      else m'.cores[j] == Core(m.cores[j].pos + 1, Ready)
  {
    hide QueuesOk;
    hide CountsOk;
    hide SyncsOk;
    hide FiredOk;
  }

  lemma FinishEntryQueues(p: Program, m: State, m': State, j: nat)
    requires WellFormed(p) && Inv(p, m) && j < |p.lists|
    requires m.cores[j].stage.Holding?
    requires StepDrain(p, m, j, p.lists[j][m.cores[j].pos]) == Some(m')
    ensures CoresOk(p, m') && QueuesOk(p, m')
  {
    hide CountsOk;
    hide SyncsOk;
    hide FiredOk;
    DrainCores(p, m, m', j);
    var q := p.lists[j][m.cores[j].pos].queue;
    var e := m.cores[j].stage.entry;
    assert HoldsEntry(p, m, j, q, e);
    forall i: nat, r, f: nat
      ensures HoldsEntry(p, m', i, r, f) <==> HoldsEntry(p, m, i, r, f) && i != j
    {}
    forall r, f: nat | r in p.queues && f < |p.queues[r]| && f < Head(m', r)
      ensures Claim(r, f) in m'.fired || exists i: nat :: HoldsEntry(p, m', i, r, f)
    {
      if Claim(r, f) !in m'.fired {
        var i: nat :| HoldsEntry(p, m, i, r, f);
        assert HoldsEntry(p, m', i, r, f);
      }
    }
  }

  lemma ClaimEntryQueues(p: Program, m: State, m': State, j: nat)
    requires WellFormed(p) && Inv(p, m) && j < |p.lists|
    requires m.cores[j].pos < |p.lists[j]| && p.lists[j][m.cores[j].pos].Drain?
    requires !m.cores[j].stage.Holding?
    requires StepDrain(p, m, j, p.lists[j][m.cores[j].pos]) == Some(m')
    ensures CoresOk(p, m') && QueuesOk(p, m')
  {
    hide CountsOk;
    hide SyncsOk;
    hide FiredOk;
    DrainCores(p, m, m', j);
    var q := p.lists[j][m.cores[j].pos].queue;
    var local := Head(m, q);
    var claimed := local < |p.queues[q]|;
    assert Claim(q, local) !in m.fired;
    ClaimHolders(p, m, m', j, q, local);
    forall r, f: nat | r in p.queues && f < |p.queues[r]| && f < Head(m', r)
      ensures Claim(r, f) in m'.fired || exists i: nat :: HoldsEntry(p, m', i, r, f)
    {
      if r == q && f == local {
        assert HoldsEntry(p, m', j, q, local);
      } else if Claim(r, f) !in m'.fired {
        var i: nat :| HoldsEntry(p, m, i, r, f);
        assert HoldsEntry(p, m', i, r, f);
      }
    }
  }

  /** Claiming adds one holder, when there was an entry left to claim. */
  lemma ClaimHolders(p: Program, m: State, m': State, j: nat, q: QueueId, local: nat)
    requires WellFormed(p) && CoresOk(p, m) && j < |p.lists| && q in p.queues
    requires m.cores[j].pos < |p.lists[j]| && p.lists[j][m.cores[j].pos].Drain?
    requires p.lists[j][m.cores[j].pos].queue == q && !m.cores[j].stage.Holding?
    requires |m'.cores| == |m.cores|
    requires m'.cores == m.cores[j := m'.cores[j]]
    requires if local < |p.queues[q]| then m'.cores[j] == Core(m.cores[j].pos, Holding(local))
             else m'.cores[j] == Core(m.cores[j].pos + 1, Ready)
    ensures forall i: nat, r, f: nat :: HoldsEntry(p, m', i, r, f) <==>
      HoldsEntry(p, m, i, r, f) || (local < |p.queues[q]| && i == j && r == q && f == local)
  {
  }

  lemma DrainStepInv(p: Program, m: State, j: nat)
    requires WellFormed(p) && Inv(p, m) && j < |p.lists|
    requires m.cores[j].pos < |p.lists[j]| && p.lists[j][m.cores[j].pos].Drain?
    requires Step(p, m, j).Some?
    ensures Inv(p, Step(p, m, j).value)
  {
    hide Arrived;
    hide ArrivesOn;
    var m' := Step(p, m, j).value;
    var q := p.lists[j][m.cores[j].pos].queue;
    DrainCores(p, m, m', j);
    assert JoinedNow(m') == JoinedNow(m);
    if m.cores[j].stage.Holding? {
      assert HoldsEntry(p, m, j, q, m.cores[j].stage.entry);
      CountsStep(p, m, m', Claim(q, m.cores[j].stage.entry));
      FinishEntryQueues(p, m, m', j);
    } else {
      if Head(m, q) < |p.queues[q]| {
        CountsSame(p, m, m');
      } else {
        CountsStep(p, m, m', Slot(j, m.cores[j].pos));
      }
      ClaimEntryQueues(p, m, m', j);
    }
  }

  lemma SyncJoin(p: Program, m: State, m': State, j: nat)
    requires WellFormed(p) && Inv(p, m) && j < |p.lists|
    requires m.cores[j].pos < |p.lists[j]| && p.lists[j][m.cores[j].pos].Sync?
    requires !m.cores[j].stage.Joined? && m.joined + 1 < |m.cores|
    requires StepSync(m, j) == Some(m')
    ensures Inv(p, m')
  {
    hide Arrived;
    hide ArrivesOn;
    hide QueuesOk;
    hide CountsOk;
    CountsSame(p, m, m');
    QueuesSame(p, m, m');
    assert JoinedNow(m') == JoinedNow(m) + {j};
  }

  lemma SyncComplete(p: Program, m: State, m': State, j: nat)
    requires WellFormed(p) && Inv(p, m) && j < |p.lists|
    requires m.cores[j].pos < |p.lists[j]| && p.lists[j][m.cores[j].pos].Sync?
    requires !m.cores[j].stage.Joined? && m.joined + 1 == |m.cores|
    requires StepSync(m, j) == Some(m')
    ensures Inv(p, m')
  {
    hide Arrived;
    hide ArrivesOn;
    CountsStep(p, m, m', Slot(j, m.cores[j].pos));
    QueuesSame(p, m, m');
    LastToJoin(m, j);
    assert JoinedNow(m') == {};
  }

  lemma SyncRelease(p: Program, m: State, m': State, j: nat)
    requires WellFormed(p) && Inv(p, m) && j < |p.lists|
    requires m.cores[j].pos < |p.lists[j]| && p.lists[j][m.cores[j].pos].Sync?
    requires m.cores[j].stage.Joined?
    requires StepSync(m, j) == Some(m')
    ensures Inv(p, m')
  {
    hide Arrived;
    hide ArrivesOn;
    CountsStep(p, m, m', Slot(j, m.cores[j].pos));
    QueuesSame(p, m, m');
    assert JoinedNow(m') == JoinedNow(m);
  }

  lemma SyncStepInv(p: Program, m: State, j: nat)
    requires WellFormed(p) && Inv(p, m) && j < |p.lists|
    requires m.cores[j].pos < |p.lists[j]| && p.lists[j][m.cores[j].pos].Sync?
    requires Step(p, m, j).Some?
    ensures Inv(p, Step(p, m, j).value)
  {
    var m' := Step(p, m, j).value;
    if m.cores[j].stage.Joined? {
      SyncRelease(p, m, m', j);
    } else if m.joined + 1 == |m.cores| {
      SyncComplete(p, m, m', j);
    } else {
      SyncJoin(p, m, m', j);
    }
  }

  /** When all other SMs but one have joined, that one is the only SM not waiting. */
  lemma LastToJoin(m: State, j: nat)
    requires j < |m.cores| && !m.cores[j].stage.Joined?
    requires |JoinedNow(m)| + 1 == |m.cores|
    ensures forall i :: 0 <= i < |m.cores| && i != j ==> m.cores[i].stage == Joined(m.gen)
  {
    var s := JoinedNow(m) + {j};
    assert |s| == |m.cores|;
    SetSizeBound(s, |m.cores|);
    forall i | 0 <= i < |m.cores| && i != j
      ensures m.cores[i].stage == Joined(m.gen)
    {
      assert i in s;
      assert i in JoinedNow(m);
    }
  }

  lemma StepInv(p: Program, m: State, j: nat)
    requires WellFormed(p) && Inv(p, m) && j < |p.lists|
    requires Step(p, m, j).Some?
    ensures Inv(p, Step(p, m, j).value)
  {
    match p.lists[j][m.cores[j].pos] {
      case Task(_, _) => TaskStepInv(p, m, j);
      case Drain(_, _) => DrainStepInv(p, m, j);
      case Sync => SyncStepInv(p, m, j);
    }
  }

  /** Every run, however the SMs interleave, keeps the invariant. */
  lemma {:induction false} RunInv(p: Program, choices: seq<nat>)
    requires WellFormed(p) && Exec(p, choices).Some?
    ensures Inv(p, Exec(p, choices).value)
  {
    if choices == [] {
      StartInv(p);
    } else {
      RunInv(p, choices[..|choices| - 1]);
      StepInv(p, Exec(p, choices[..|choices| - 1]).value, choices[|choices| - 1]);
    }
  }
}
