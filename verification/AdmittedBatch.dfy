/** A batch of cold prompts that was admitted together never runs out of blocks. */
module AdmittedBatch {
  import opened Wrappers
  import opened KvModel
  import opened KvInvariant
  import opened KvPages
  import opened KvRebind
  import opened RowLife
  import opened RowLifeSteps
  import opened RowLifeWrites
  import opened RowLifecycle
  import opened Admission
  import opened ColdPrefill

  // ---- preparing, as an action ----

  function PrepareStep(x: Life, r: nat): Life
    requires LifeShape(x) && r < |x.rows| && x.rows[r].Live?
  {
    var n := |x.rows[r].tokens|;
    x.(sys := PrepareMasked(x.sys, OneRow(Geo(x).rows, r, n), OneRow(Geo(x).rows, r, 1)))
  }

  lemma NextPrepares(x: Life, r: nat)
    requires LifeInv(x) && x.sys.status == Done && Geo(x).window > 0 && CanPrepare(x, r)
    requires PrepareStep(x, r).sys.status == Done
    ensures Next(x, PrepareRow(r)) == PrepareStep(x, r)
  {
    hide LifeInv;
    hide PrepareMasked;
  }

  lemma LengthKeepsCold(x: Life, r: nat, chunk: nat, last: seq<nat>, n: nat)
    requires Cold(x, chunk) && ColdRow(x, r, chunk, last)
    ensures var y := x.(sys := SetLen(x.sys, r, n));
      && Cold(y, chunk) && ColdRow(y, r, chunk, last) && Balance(y, r) == Balance(x, r) && OtherRowsSame(x.sys, y.sys, r)
  {
    hide LifeInv;
    hide LayerBlocks;
    hide Allowed;
    hide KeepFrom;
    ShapeOf(x);
    var y := x.(sys := SetLen(x.sys, r, n));
    MarksKeep(x, y.sys.h);
    forall l: nat, r': nat, k: nat | l < Geo(x).layers && r' < |x.rows| && k < Geo(x).pages
      ensures PageOf(y.sys.h, l, r', k) == PageOf(x.sys.h, l, r', k) {}
    forall l: nat | l < Geo(x).layers ensures Held(y.sys.h, l, r) == Held(x.sys.h, l, r) {}
    SameTotals(x.sys.h, y.sys.h, r, Geo(x).layers);
    forall l: nat | l < Geo(x).layers ensures ColdLayer(y, r, chunk, last[l], l) {
      assert ColdLayer(x, r, chunk, last[l], l);
    }
  }

  lemma {:induction false} SameTotals(h: Handle, h': Handle, r: nat, n: nat)
    requires HandleShape(h) && HandleShape(h') && h.geo == h'.geo && r < h.geo.rows && n <= h.geo.layers
    requires forall l: nat :: l < h.geo.layers ==> Held(h', l, r) == Held(h, l, r)
    ensures RowTotal(h', r, n) == RowTotal(h, r, n)
  {
    hide Held;
    if n > 0 { SameTotals(h, h', r, n - 1); }
  }

  lemma PrepareActionStaysCold(x: Life, r: nat, chunk: nat, last: seq<nat>)
    requires Cold(x, chunk) && ColdRow(x, r, chunk, last) && Balance(x, r) >= Charge(x, r, chunk) && CanPrepare(x, r)
    ensures PrepareStep(x, r).sys.status == Done
    ensures var z := Next(x, PrepareRow(r));
      && Cold(z, chunk) && ColdRow(z, r, chunk, last) && Balance(z, r) == Balance(x, r)
      && z.rows == x.rows && SameFrame(x.sys, z.sys) && OtherRowsSame(x.sys, z.sys, r)
  {
    hide LifeInv;
    hide Balance;
    hide ColdRow;
    hide Required;
    hide PrepareLayers;
    hide OtherRowsSame;
    ShapeOf(x);
    var n := |x.rows[r].tokens|;
    FitsContext(x, r);
    PrepareOneRow(x.sys, r, n, 0);
    var m := x.(sys := SetLen(x.sys, r, n));
    LengthKeepsCold(x, r, chunk, last, n);
    ShapeOf(m);
    PrepareStaysCold(m, r, chunk, last, 0);
    NextPrepares(x, r);
    RowsSameTwice(x.sys, m.sys, PrepareStep(x, r).sys, r);
  }

  lemma RowsSameTwice(s: Sys, m: Sys, t: Sys, r: nat)
    requires SysShape(s) && SysShape(m) && SysShape(t) && SameFrame(s, m) && SameFrame(m, t)
    requires OtherRowsSame(s, m, r) && OtherRowsSame(m, t, r)
    ensures OtherRowsSame(s, t, r)
  {
    hide SlotAt;
    hide RowAt;
  }

  // ---- several rows ----

  /** lasts[r] is empty for a row that is not part of the batch. */
  ghost predicate Members(x: Life, chunk: nat, lasts: seq<seq<nat>>)
    requires LifeShape(x)
  {
    |lasts| == |x.rows| && forall r: nat :: r < |lasts| && lasts[r] != [] ==> ColdRow(x, r, chunk, lasts[r])
  }

  /** What the batch may still take, over rows below k. */
  ghost function Owed(x: Life, chunk: nat, lasts: seq<seq<nat>>, k: nat): int
    requires LifeShape(x) && Members(x, chunk, lasts) && k <= |lasts|
  {
    if k == 0 then 0 else
    Owed(x, chunk, lasts, k - 1) +
    OwedBy(x, chunk, lasts, k - 1)
  }

  ghost function OwedBy(x: Life, chunk: nat, lasts: seq<seq<nat>>, r: nat): int
    requires LifeShape(x) && Members(x, chunk, lasts) && r < |lasts|
  {
    if lasts[r] == [] then 0 else
    assert ColdRow(x, r, chunk, lasts[r]);
    Charge(x, r, chunk) - RowTotal(x.sys.h, r, Geo(x).layers)
  }

  ghost predicate ColdBatch(x: Life, chunk: nat, lasts: seq<seq<nat>>) {
    && Cold(x, chunk) && Members(x, chunk, lasts)
    && |x.sys.pool.free| >= Owed(x, chunk, lasts, |lasts|)
  }

  lemma {:induction false} OwedCovers(x: Life, chunk: nat, lasts: seq<seq<nat>>, k: nat, r: nat)
    requires LifeShape(x) && Members(x, chunk, lasts) && k <= |lasts| && r < |lasts| && lasts[r] != []
    ensures ColdRow(x, r, chunk, lasts[r])
    ensures 0 <= Owed(x, chunk, lasts, k)
    ensures r < k ==> Charge(x, r, chunk) - RowTotal(x.sys.h, r, Geo(x).layers) <= Owed(x, chunk, lasts, k)
  {
    hide ColdLayer;
    hide WithinCharge;
    hide Required;
    hide RowTotal;
    assert ColdRow(x, r, chunk, lasts[r]);
    if k > 0 {
      OwedCovers(x, chunk, lasts, k - 1, r);
      if lasts[k - 1] != [] {
        assert ColdRow(x, k - 1, chunk, lasts[k - 1]);
        TotalWithin(x.sys.h, k - 1, chunk, |x.rows[k - 1].tokens|, 0, Geo(x).layers);
      }
    }
  }

  lemma MemberHasRoom(x: Life, chunk: nat, lasts: seq<seq<nat>>, r: nat)
    requires ColdBatch(x, chunk, lasts) && r < |lasts| && lasts[r] != []
    ensures ColdRow(x, r, chunk, lasts[r]) && Balance(x, r) >= Charge(x, r, chunk)
    ensures RowTotal(x.sys.h, r, Geo(x).layers) <= Charge(x, r, chunk)
  {
    hide LifeInv;
    hide ColdLayer;
    hide WithinCharge;
    hide Required;
    hide RowTotal;
    ShapeOf(x);
    OwedCovers(x, chunk, lasts, |lasts|, r);
    TotalWithin(x.sys.h, r, chunk, |x.rows[r].tokens|, 0, Geo(x).layers);
  }

  /** A step of row r leaves the other members as they were. */
  lemma OthersStayCold(x: Life, z: Life, r: nat, chunk: nat, r': nat, last: seq<nat>)
    requires LifeShape(x) && LifeShape(z) && SameFrame(x.sys, z.sys) && SameFrame(x.sys, z.sys) && OtherRowsSame(x.sys, z.sys, r)
    requires r < |x.rows| && r' < |x.rows| && r' != r && z.rows[r'] == x.rows[r'] && ColdRow(x, r', chunk, last)
    ensures ColdRow(z, r', chunk, last)
    ensures RowTotal(z.sys.h, r', Geo(z).layers) == RowTotal(x.sys.h, r', Geo(x).layers)
  {
    hide LayerBlocks;
    hide Allowed;
    hide KeepFrom;
    hide SlotAt;
    hide RowAt;
    forall l: nat | l < Geo(x).layers ensures Held(z.sys.h, l, r') == Held(x.sys.h, l, r') {
      assert Evicted(z.sys.h, l, r') == Evicted(x.sys.h, l, r');
      forall k: nat | k < Geo(x).pages ensures PageOf(z.sys.h, l, r', k) == PageOf(x.sys.h, l, r', k) {}
    }
    SameTotals(x.sys.h, z.sys.h, r', Geo(x).layers);
    forall l: nat | l < Geo(x).layers ensures ColdLayer(z, r', chunk, last[l], l) {
      assert ColdLayer(x, r', chunk, last[l], l);
      assert Evicted(z.sys.h, l, r') == Evicted(x.sys.h, l, r');
    }
  }

  /** The others' totals and charges are untouched. */
  ghost predicate OthersOwe(x: Life, z: Life, lasts: seq<seq<nat>>, r: nat)
    requires LifeShape(x) && LifeShape(z) && Geo(z) == Geo(x) && |lasts| == |x.rows|
  {
    forall r': nat :: r' < |lasts| && r' != r && lasts[r'] != [] ==>
      z.rows[r'] == x.rows[r'] && RowTotal(z.sys.h, r', Geo(z).layers) == RowTotal(x.sys.h, r', Geo(x).layers)
  }

  lemma {:induction false} OwedChange(x: Life, z: Life, chunk: nat, lasts: seq<seq<nat>>, next: seq<seq<nat>>, r: nat, k: nat)
    requires LifeShape(x) && LifeShape(z) && Geo(z) == Geo(x) && Members(x, chunk, lasts) && Members(z, chunk, next)
    requires r < |lasts| && lasts[r] != [] && next[r] != [] && next == lasts[r := next[r]] && k <= |lasts|
    requires z.rows[r].Live? && x.rows[r].Live? && z.rows[r].tokens == x.rows[r].tokens
    requires OthersOwe(x, z, lasts, r)
    ensures Owed(z, chunk, next, k) - Owed(x, chunk, lasts, k) ==
      if r < k then RowTotal(x.sys.h, r, Geo(x).layers) - RowTotal(z.sys.h, r, Geo(x).layers) else 0
  {
    hide ColdLayer;
    hide WithinCharge;
    hide Required;
    hide RowTotal;
    if k > 0 {
      OwedChange(x, z, chunk, lasts, next, r, k - 1);
      if lasts[k - 1] != [] {
        assert ColdRow(x, k - 1, chunk, lasts[k - 1]) && ColdRow(z, k - 1, chunk, next[k - 1]);
      }
    }
  }

  lemma StepKeepsBatch(x: Life, z: Life, chunk: nat, lasts: seq<seq<nat>>, r: nat, last: seq<nat>)
    requires ColdBatch(x, chunk, lasts) && r < |lasts| && lasts[r] != [] && Cold(z, chunk) && Geo(z) == Geo(x)
    requires LifeShape(x) && LifeShape(z) && SameFrame(x.sys, z.sys) && ColdRow(z, r, chunk, last)
    requires z.rows[r].tokens == (if x.rows[r].Live? then x.rows[r].tokens else [])
    requires Balance(z, r) == Balance(x, r) && OtherRowsSame(x.sys, z.sys, r)
    requires forall r' :: 0 <= r' < |x.rows| && r' != r ==> z.rows[r'] == x.rows[r']
    ensures ColdBatch(z, chunk, lasts[r := last])
  {
    hide LifeInv;
    hide ColdLayer;
    hide WithinCharge;
    hide Required;
    hide RowTotal;
    hide OtherRowsSame;
    var next := lasts[r := last];
    assert ColdRow(x, r, chunk, lasts[r]);
    forall r': nat | r' < |lasts| && r' != r && lasts[r'] != []
      ensures ColdRow(z, r', chunk, next[r'])
      ensures RowTotal(z.sys.h, r', Geo(z).layers) == RowTotal(x.sys.h, r', Geo(x).layers)
    {
      OthersStayCold(x, z, r, chunk, r', lasts[r']);
    }
    assert last != [];
    OwedChange(x, z, chunk, lasts, next, r, |lasts|);
  }

  // ---- runs of a batch ----

  /** The two operations that prefill performs on a member row, chunk by chunk. */
  ghost predicate BatchAction(x: Life, chunk: nat, batch: set<nat>, a: Action)
    requires LifeShape(x)
  {
    match a
    case PrepareRow(r) => r in batch && CanPrepare(x, r)
    case PrefillChunk(l, r, end) => r in batch && CanChunk(x, l, r, end) && end <= x.rows[r].done[l] + chunk
    case _ => false
  }

  /** The operation got every block it asked for. */
  ghost predicate Succeeds(x: Life, chunk: nat, batch: set<nat>, a: Action)
    requires LifeShape(x) && BatchAction(x, chunk, batch, a)
  {
    match a
    case PrepareRow(r) => PrepareStep(x, r).sys.status == Done
    case PrefillChunk(l, r, end) => ChunkStep(x, l, r, end).sys.status == Done
  }

  ghost predicate Prefills(x: Life, chunk: nat, batch: set<nat>, actions: seq<Action>)
    requires LifeInv(x) && x.sys.status == Done && Geo(x).window > 0
    decreases |actions|
  {
    actions == [] ||
    (LifeShape(x) && BatchAction(x, chunk, batch, actions[0]) &&
     (NextKeeps(x, actions[0]); Prefills(Next(x, actions[0]), chunk, batch, actions[1..])))
  }

  /** Every operation of the run succeeds, and no member ever holds more than its charge. */
  ghost predicate RunsThrough(x: Life, chunk: nat, batch: set<nat>, actions: seq<Action>)
    requires LifeInv(x) && x.sys.status == Done && Geo(x).window > 0 && Prefills(x, chunk, batch, actions)
    decreases |actions|
  {
    && (forall r :: r in batch && r < |x.rows| && x.rows[r].Live? ==>
          RowTotal(x.sys.h, r, Geo(x).layers) <= Charge(x, r, chunk))
    && (actions == [] ||
        (Succeeds(x, chunk, batch, actions[0]) &&
         (NextKeeps(x, actions[0]); RunsThrough(Next(x, actions[0]), chunk, batch, actions[1..]))))
  }

  ghost predicate InBatch(lasts: seq<seq<nat>>, batch: set<nat>) {
    forall r: nat :: r in batch <==> r < |lasts| && lasts[r] != []
  }

  lemma PrepareInBatch(x: Life, chunk: nat, lasts: seq<seq<nat>>, r: nat)
    requires ColdBatch(x, chunk, lasts) && r < |lasts| && lasts[r] != [] && LifeShape(x) && CanPrepare(x, r)
    ensures PrepareStep(x, r).sys.status == Done
    ensures ColdBatch(Next(x, PrepareRow(r)), chunk, lasts)
  {
    hide LifeInv;
    hide ColdLayer;
    hide WithinCharge;
    hide Next;
    hide OtherRowsSame;
    hide Balance;
    hide Owed;
    hide Required;
    MemberHasRoom(x, chunk, lasts, r);
    PrepareActionStaysCold(x, r, chunk, lasts[r]);
    var z := Next(x, PrepareRow(r));
    ShapeOf(z);
    StepKeepsBatch(x, z, chunk, lasts, r, lasts[r]);
    assert lasts[r := lasts[r]] == lasts;
  }

  lemma ChunkInBatch(x: Life, chunk: nat, lasts: seq<seq<nat>>, l: nat, r: nat, end: nat)
    requires ColdBatch(x, chunk, lasts) && r < |lasts| && lasts[r] != [] && LifeShape(x) && CanChunk(x, l, r, end)
    requires end <= x.rows[r].done[l] + chunk
    ensures ChunkStep(x, l, r, end).sys.status == Done && |lasts[r]| == Geo(x).layers
    ensures ColdBatch(Next(x, PrefillChunk(l, r, end)), chunk, lasts[r := lasts[r][l := x.rows[r].done[l]]])
  {
    hide LifeInv;
    hide ColdLayer;
    hide WithinCharge;
    hide Next;
    hide OtherRowsSame;
    hide Balance;
    hide Owed;
    hide Required;
    hide StepChunk;
    MemberHasRoom(x, chunk, lasts, r);
    ChunkStaysCold(x, r, chunk, lasts[r], l, end);
    var z := Next(x, PrefillChunk(l, r, end));
    ShapeOf(z);
    StepKeepsBatch(x, z, chunk, lasts, r, lasts[r][l := x.rows[r].done[l]]);
  }

  lemma BatchStep(x: Life, chunk: nat, batch: set<nat>, lasts: seq<seq<nat>>, a: Action) returns (next: seq<seq<nat>>)
    requires ColdBatch(x, chunk, lasts) && InBatch(lasts, batch) && LifeShape(x) && BatchAction(x, chunk, batch, a)
    ensures Succeeds(x, chunk, batch, a)
    ensures ColdBatch(Next(x, a), chunk, next) && InBatch(next, batch)
  {
    hide LifeInv;
    hide Members;
    hide Next;
    hide Owed;
    hide StepChunk;
    hide PrepareStep;
    match a {
      case PrepareRow(r) =>
        PrepareInBatch(x, chunk, lasts, r);
        next := lasts;
      case PrefillChunk(l, r, end) =>
        ChunkInBatch(x, chunk, lasts, l, r, end);
        next := lasts[r := lasts[r][l := x.rows[r].done[l]]];
    }
  }

  lemma {:induction false} BatchRuns(x: Life, chunk: nat, batch: set<nat>, lasts: seq<seq<nat>>, actions: seq<Action>)
    requires ColdBatch(x, chunk, lasts) && InBatch(lasts, batch) && LifeInv(x) && Prefills(x, chunk, batch, actions)
    ensures RunsThrough(x, chunk, batch, actions)
    decreases |actions|
  {
    hide LifeInv;
    hide Members;
    hide Owed;
    hide Succeeds;
    hide BatchAction;
    hide Next;
    hide RowTotal;
    hide Required;
    ShapeOf(x);
    forall r | r in batch && r < |x.rows| && x.rows[r].Live?
      ensures RowTotal(x.sys.h, r, Geo(x).layers) <= Charge(x, r, chunk)
    {
      MemberHasRoom(x, chunk, lasts, r);
    }
    if actions != [] {
      var next := BatchStep(x, chunk, batch, lasts, actions[0]);
      NextKeeps(x, actions[0]);
      BatchRuns(Next(x, actions[0]), chunk, batch, next, actions[1..]);
    }
  }

  // ---- admission ----

  /** Row r has just been taken for a prompt of which nothing was cached. */
  ghost predicate JustTaken(x: Life, r: nat)
    requires LifeShape(x)
  {
    && r < |x.rows| && x.rows[r].Live? && x.rows[r].shared == 0 && x.rows[r].tokens != [] && RowBlank(x.sys.h, r)
    && forall l: nat :: l < Geo(x).layers ==> x.rows[r].done[l] == 0
  }

  ghost predicate AllTaken(x: Life, batch: set<nat>)
    requires LifeShape(x)
  {
    forall r :: r in batch ==> JustTaken(x, r)
  }

  /** What _take_prefill_batch reserves for the members below k. */
  ghost function Reserved(x: Life, chunk: nat, batch: set<nat>, k: nat): nat
    requires LifeShape(x) && AllTaken(x, batch)
  {
    if k == 0 then 0 else Reserved(x, chunk, batch, k - 1) + ReservedBy(x, chunk, batch, k - 1)
  }

  ghost function ReservedBy(x: Life, chunk: nat, batch: set<nat>, r: nat): nat
    requires LifeShape(x) && AllTaken(x, batch)
  {
    if r !in batch then 0 else assert JustTaken(x, r); Charge(x, r, chunk)
  }

  lemma BlankIsCold(x: Life, r: nat, chunk: nat)
    requires LifeShape(x) && JustTaken(x, r) && Geo(x).window > 0
    ensures ColdRow(x, r, chunk, seq(Geo(x).layers, _ => 0))
  {
    hide LayerBlocks;
    hide SlotAt;
    hide RowAt;
    forall l: nat | l < Geo(x).layers ensures Held(x.sys.h, l, r) == {} {
      assert Evicted(x.sys.h, l, r) == 0;
      forall k: nat | k < Geo(x).pages ensures PageOf(x.sys.h, l, r, k) == -1 {}
    }
  }

  lemma {:induction false} BlankTotal(h: Handle, r: nat, n: nat)
    requires HandleShape(h) && r < h.geo.rows && n <= h.geo.layers && RowBlank(h, r)
    ensures RowTotal(h, r, n) == 0
  {
    hide SlotAt;
    hide RowAt;
    if n > 0 {
      BlankTotal(h, r, n - 1);
      var l := n - 1;
      assert Evicted(h, l, r) == 0;
      forall k: nat | k < h.geo.pages ensures PageOf(h, l, r, k) == -1 {}
      assert Held(h, l, r) == {};
    }
  }

  lemma {:induction false} OwedIsReserved(x: Life, chunk: nat, batch: set<nat>, lasts: seq<seq<nat>>, k: nat)
    requires LifeShape(x) && AllTaken(x, batch) && Members(x, chunk, lasts) && InBatch(lasts, batch) && k <= |lasts|
    ensures Owed(x, chunk, lasts, k) == Reserved(x, chunk, batch, k)
  {
    hide ColdLayer;
    hide WithinCharge;
    hide Required;
    hide RowTotal;
    if k > 0 {
      OwedIsReserved(x, chunk, batch, lasts, k - 1);
      if k - 1 in batch {
        assert JustTaken(x, k - 1);
        BlankTotal(x.sys.h, k - 1, Geo(x).layers);
      }
    }
  }

  /** The admission bound. A batch of cold prompts whose charges together fit the free
      blocks: however their preparing and their chunks interleave, no operation ever runs
      out of blocks, and no row ever holds more than it was charged. */
  lemma AdmittedNeverRunOut(x: Life, chunk: nat, batch: set<nat>, actions: seq<Action>)
    requires Cold(x, chunk) && LifeShape(x) && AllTaken(x, batch)
    requires |x.sys.pool.free| >= Reserved(x, chunk, batch, |x.rows|)
    requires Prefills(x, chunk, batch, actions)
    ensures RunsThrough(x, chunk, batch, actions)
  {
    hide LifeInv;
    hide ColdRow;
    hide Reserved;
    var start := seq(Geo(x).layers, _ => 0);
    var lasts := seq(|x.rows|, (r: nat) => if r in batch then start else []);
    forall r: nat | r < |lasts| && lasts[r] != [] ensures ColdRow(x, r, chunk, lasts[r]) { BlankIsCold(x, r, chunk); }
    assert forall r: nat :: r in batch ==> JustTaken(x, r);
    assert |start| > 0;
    OwedIsReserved(x, chunk, batch, lasts, |lasts|);
    BatchRuns(x, chunk, batch, lasts, actions);
  }
}
