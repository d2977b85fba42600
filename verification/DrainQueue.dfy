/** The shared attention queue: built from live row lengths, uploaded only when the split
    counts change, and patched to its layer by whoever claims an entry (decode/schedule.py). */
module DrainQueue {
  import opened Wrappers
  import opened Arithmetic
  import opened Machine
  import opened Schedule
  import opened Splits

  /** ATTN_DRAIN_MIN_SPLITS: the combine wave is unconditional. */
  const LEAST: nat := 2

  /** The queue depends on the launch only through the split counts. */
  function QueueFor(s: Shape, splits: seq<nat>, layer: nat, rows: nat): seq<Inst>
    requires ShapeOk(s)
  {
    AttnQueueTasks(s, Env([], [], splits, []), layer, rows)
  }

  predicate Fits(s: Shape, p: Policy) { p.batch == s.batch && p.hkv == s.hkv }

  function LiveSplits(p: Policy, lens: seq<int>, k: int): seq<nat>
    requires p.block > 0
  {
    if BaseTasks(p) >= p.sms then seq(p.batch, _ => LEAST) else Ragged(p, lens, 0, k, LEAST)
  }

  lemma {:induction false} HeadsLength(s: Shape, layer: nat, row: nat, kvhs: nat, n: nat)
    requires ShapeOk(s)
    ensures |AttnRowTasks(s, layer, row, kvhs, n, 0)| == kvhs * n
  {
    if kvhs > 0 {
      HeadsLength(s, layer, row, kvhs - 1, n);
      MulStep(kvhs - 1, n);
    }
  }

  lemma {:induction false} QueueLength(s: Shape, splits: seq<nat>, layer: nat, rows: nat)
    requires ShapeOk(s) && rows <= |splits|
    ensures |QueueFor(s, splits, layer, rows)| == s.hkv * Sum(splits[..rows])
  {
    if rows > 0 {
      QueueLength(s, splits, layer, rows - 1);
      HeadsLength(s, layer, rows - 1, s.hkv, splits[rows - 1]);
      assert splits[..rows][..rows - 1] == splits[..rows - 1];
      Spread(s.hkv, Sum(splits[..rows - 1]), splits[rows - 1]);
    }
  }

  /** build_attn_drain_queue: row by row, head by head, split by split. */
  method BuildAttnDrainQueue(s: Shape, p: Policy, lens: seq<int>, k: int)
    returns (r: Result<(seq<Inst>, seq<nat>), Refusal>)
    requires ShapeOk(s) && Fits(s, p)
    ensures r.Ok? ==> p.block > 0 && |lens| == p.batch && p.maxSplits >= LEAST
    ensures r.Ok? ==> r.value.1 == LiveSplits(p, lens, k) && r.value.0 == QueueFor(s, r.value.1, 0, s.batch)
    ensures DrainOk(p, lens, LEAST) ==> r.Ok?
  {
    if |lens| != p.batch { return Err(BadLengths); }
    var splits := AttnDrainSplitsByRow(p, 0, 0, Some(lens), k, LEAST);
    if splits.Err? { return Err(splits.error); }
    var n := splits.value;
    var words: seq<Inst> := [];
    for row := 0 to s.batch
      invariant words == QueueFor(s, n, 0, row)
    {
      var before := words;
      for kvh := 0 to s.hkv
        invariant words == before + AttnRowTasks(s, 0, row, kvh, n[row], 0)
      {
        var sofar := words;
        for split := 0 to n[row]
          invariant words == sofar + AttnHeadTasks(s, 0, row, kvh, n[row], 0)[..split]
        {
          words := words + [AttnDecode(0, row, kvh, split, n[row], 0, QkvWait(s))];
        }
        assert words == sofar + AttnHeadTasks(s, 0, row, kvh, n[row], 0);
      }
    }
    r := Ok((words, n));
  }

  /** What a claimer turns an entry into. */
  function Patch(x: Inst, layer: nat): Inst {
    match x
    case AttnDecode(_, row, kvh, split, n, window, wait) => AttnDecode(layer, row, kvh, split, n, window, wait)
    case _ => x
  }

  lemma {:induction false} PatchedRow(s: Shape, layer: nat, row: nat, kvhs: nat, n: nat, i: nat)
    requires ShapeOk(s) && i < |AttnRowTasks(s, 0, row, kvhs, n, 0)|
    ensures |AttnRowTasks(s, layer, row, kvhs, n, 0)| == |AttnRowTasks(s, 0, row, kvhs, n, 0)|
    ensures AttnRowTasks(s, layer, row, kvhs, n, 0)[i] == Patch(AttnRowTasks(s, 0, row, kvhs, n, 0)[i], layer)
  {
    HeadsLength(s, layer, row, kvhs, n);
    HeadsLength(s, 0, row, kvhs, n);
    HeadsLength(s, layer, row, kvhs - 1, n);
    HeadsLength(s, 0, row, kvhs - 1, n);
    if i < |AttnRowTasks(s, 0, row, kvhs - 1, n, 0)| { PatchedRow(s, layer, row, kvhs - 1, n, i); }
  }

  /** One queue serves every layer: the placeholder queue, patched, is the layer's queue. */
  lemma {:induction false} OneQueueServesAll(s: Shape, splits: seq<nat>, layer: nat, rows: nat, i: nat)
    requires ShapeOk(s) && rows <= |splits| && i < |QueueFor(s, splits, 0, rows)|
    ensures |QueueFor(s, splits, layer, rows)| == |QueueFor(s, splits, 0, rows)|
    ensures QueueFor(s, splits, layer, rows)[i] == Patch(QueueFor(s, splits, 0, rows)[i], layer)
  {
    hide AttnRowTasks;
    QueueLength(s, splits, layer, rows);
    QueueLength(s, splits, 0, rows);
    QueueLength(s, splits, layer, rows - 1);
    QueueLength(s, splits, 0, rows - 1);
    var before := |QueueFor(s, splits, 0, rows - 1)|;
    if i < before {
      OneQueueServesAll(s, splits, layer, rows - 1, i);
    } else {
      HeadsLength(s, 0, rows - 1, s.hkv, splits[rows - 1]);
      PatchedRow(s, layer, rows - 1, s.hkv, splits[rows - 1], i - before);
    }
  }

  /** Live splits are what the kernel's combine wave needs, and the queue they give fits the
      buffer allocated for the largest split count. */
  lemma LiveQueueFits(s: Shape, p: Policy, lens: seq<int>, k: int)
    requires ShapeOk(s) && Fits(s, p) && DrainOk(p, lens, LEAST)
    ensures |LiveSplits(p, lens, k)| == s.batch
    ensures forall row :: 0 <= row < s.batch ==> LEAST <= LiveSplits(p, lens, k)[row] <= p.maxSplits
    ensures 0 < |QueueFor(s, LiveSplits(p, lens, k), 0, s.batch)| <= s.batch * s.hkv * Most(1, p.maxSplits)
  {
    hide Ragged;
    var n := LiveSplits(p, lens, k);
    forall row: nat | row < s.batch ensures LEAST <= n[row] <= p.maxSplits {
      if BaseTasks(p) < p.sms { RaggedBounds(p, lens, 0, k, LEAST, row); }
    }
    QueueLength(s, n, 0, s.batch);
    assert n[..s.batch] == n;
    FitsCapacity(n, s.hkv, p.maxSplits);
    SumAtLeast(n);
    MulGrows(1, Sum(n), s.hkv);
  }

  /** The device buffers of the queue, with the split counts last uploaded. */
  class DrainBuffers {
    const words: array<Inst>
    var numSplits: seq<nat>
    var splitsHost: Option<seq<nat>>
    var queueLen: nat

    /** The live prefix is the queue of the split counts last uploaded. */
    ghost predicate Valid(s: Shape)
      requires ShapeOk(s)
      reads this, words
    {
      splitsHost.Some? ==> Holds(s, splitsHost.value)
    }

    ghost predicate Holds(s: Shape, splits: seq<nat>)
      requires ShapeOk(s)
      reads this, words
    {
      && numSplits == splits && |splits| == s.batch
      && queueLen == |QueueFor(s, splits, 0, s.batch)| <= words.Length
      && words[..queueLen] == QueueFor(s, splits, 0, s.batch)
    }

    constructor (s: Shape, p: Policy)
      requires ShapeOk(s) && Fits(s, p)
      ensures Valid(s) && fresh(words) && words.Length == p.batch * p.hkv * Most(1, p.maxSplits)
    {
      var capacity := p.batch * p.hkv * Most(1, p.maxSplits);
      words := new Inst[capacity](_ => GridSync);
      numSplits := [];
      splitsHost := None;
      queueLen := 0;
    }

    /** _refresh_attn_drain_queue: whether or not anything is uploaded, the kernel then
        reads exactly the queue of the current lengths. */
    method Refresh(s: Shape, p: Policy, lens: seq<int>) returns (r: Result<bool, Refusal>)
      requires ShapeOk(s) && Fits(s, p) && Valid(s)
      modifies this, words
      ensures Valid(s)
      ensures r.Ok? ==> p.block > 0 && Holds(s, LiveSplits(p, lens, 1))
      ensures r.Ok? ==> (r.value <==> old(splitsHost) != Some(LiveSplits(p, lens, 1)))
      ensures r.Ok? && !r.value ==> words[..] == old(words[..])
      ensures DrainOk(p, lens, LEAST) && words.Length == p.batch * p.hkv * Most(1, p.maxSplits) ==> r.Ok?
    {
      var built := BuildAttnDrainQueue(s, p, lens, 1);
      if built.Err? { return Err(built.error); }
      var queue, splits := built.value.0, built.value.1;
      if DrainOk(p, lens, LEAST) { LiveQueueFits(s, p, lens, 1); }
      if queue == [] { return Err(NoRows); }
      if |queue| > words.Length { return Err(TooLong); }
      var changed := splitsHost != Some(splits);
      if changed {
        for i := 0 to |queue|
          invariant words[..i] == queue[..i] && numSplits == old(numSplits) && splitsHost == old(splitsHost)
        {
          words[i] := queue[i];
        }
        numSplits := splits;
        splitsHost := Some(splits);
      }
      queueLen := |queue|;
      r := Ok(changed);
    }
  }
}
