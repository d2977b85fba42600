/** How many splits an attention task gets: a uniform policy for static layers, and a
    ragged one for the drain queue (decode/schedule.py). */
module Splits {
  import opened Arithmetic
  import opened Wrappers

  datatype Policy = Policy(
    batch: nat, hkv: nat, sms: nat,
    block: int,        // page_block
    maxSplits: int,    // max_attn_splits
    minChunk: int)     // min_attn_chunk

  datatype Refusal = BadBlock | BadChunk | BadLengths | BadMinimum | NoRows | TooLong

  const CAP: int := 16
  const SHORT: int := 65537

  function BaseTasks(p: Policy): int { Most(1, p.batch * p.hkv) }

  function MinBlocks(p: Policy): int requires p.block > 0 { Most(1, p.minChunk / p.block) }

  // ---- the uniform policy ----

  /** Tokens one query attends: the window's left radius is inclusive, so it spans one more. */
  function Span(tokens: int, window: nat): int {
    if window > 0 then Least(tokens, window + 1) else tokens
  }

  function Capped(maxSplits: int, tokens: int): int {
    if tokens <= SHORT then Least(maxSplits, CAP) else maxSplits
  }

  function Blocks(tokens: int, block: int): int requires block > 0 {
    Most(1, (tokens + block - 1) / block)
  }

  /** _choose_attn_splits */
  function ChooseSplits(p: Policy, seqLen: int, window: nat): (r: Result<nat, Refusal>)
    ensures r.Ok? ==> r.value >= 1
  {
    var most := Most(1, p.maxSplits);
    if most <= 1 || BaseTasks(p) >= p.sms then Ok(1)
    else if p.block <= 0 then Err(BadBlock)
    else if p.minChunk <= 0 || p.minChunk % p.block != 0 then Err(BadChunk)
    else
      var tokens := Span(seqLen, window);
      var byChunk := Most(1, Blocks(tokens, p.block) / MinBlocks(p));
      var bySms := Most(1, (p.sms + BaseTasks(p) - 1) / BaseTasks(p));
      Ok(Most(1, Least(Least(Capped(most, tokens), bySms), byChunk)))
  }

  /** A longer context never gets fewer splits, so a schedule built for the upper end of a
      range never under-splits inside it. */
  lemma ChooseGrows(p: Policy, a: int, b: int, window: nat)
    requires a <= b
    ensures ChooseSplits(p, a, window).Ok? == ChooseSplits(p, b, window).Ok?
    ensures ChooseSplits(p, a, window).Ok? ==> ChooseSplits(p, a, window).value <= ChooseSplits(p, b, window).value
  {
    if ChooseSplits(p, a, window).Ok? && p.block > 0 {
      var x, y := Span(a, window), Span(b, window);
      DivGrows(x + p.block - 1, y + p.block - 1, p.block);
      DivGrows(Blocks(x, p.block), Blocks(y, p.block), MinBlocks(p));
    }
  }

  /** More than one split is chosen only when every split still covers the smallest chunk,
      some SM would otherwise have no task, and the cap allows it. */
  lemma ChooseFits(p: Policy, seqLen: int, window: nat)
    requires ChooseSplits(p, seqLen, window).Ok? && ChooseSplits(p, seqLen, window).value > 1
    ensures var n := ChooseSplits(p, seqLen, window).value;
      && p.block > 0 && n * MinBlocks(p) <= Blocks(Span(seqLen, window), p.block)
      && (n - 1) * BaseTasks(p) < p.sms
      && n <= p.maxSplits && (Span(seqLen, window) <= SHORT ==> n <= CAP)
  {
    var n := ChooseSplits(p, seqLen, window).value;
    var m, total := MinBlocks(p), Blocks(Span(seqLen, window), p.block);
    Floor(n, total, m);
    Ceil(n, p.sms, BaseTasks(p));
  }

  lemma Floor(n: int, total: int, d: int)
    requires d > 0 && n <= total / d
    ensures n * d <= total
  {
    assert n * d <= (total / d) * d;
  }

  lemma Ceil(n: int, total: int, d: int)
    requires d > 0 && n <= (total + d - 1) / d
    ensures (n - 1) * d < total
  {
    Floor(n, total + d - 1, d);
    assert (n - 1) * d == n * d - d;
  }

  // ---- the ragged policy ----

  /** Pages that row length n reads, its current token included. */
  function RowBlocks(p: Policy, n: int, window: nat): int requires p.block > 0 {
    Blocks(Most(1, Span(n + 1, window)), p.block)
  }

  function AllBlocks(p: Policy, lens: seq<int>, window: nat): (w: seq<int>)
    requires p.block > 0
    ensures |w| == |lens|
  {
    seq(|lens|, i requires 0 <= i < |lens| => RowBlocks(p, lens[i], window))
  }

  /** Pages per task: about k tasks for every SM, and never less than the smallest chunk. */
  function Grain(p: Policy, work: int, k: int): (g: int)
    requires p.block > 0
    ensures g >= 1
  {
    var tasks := Most(1, Most(1, k) * p.sms);
    Most(MinBlocks(p), (p.hkv * Most(1, work) + tasks - 1) / tasks)
  }

  /** Splits of a row of w pages: w / g rounded, within the limits. */
  function RowSplit(p: Policy, w: int, g: int, minSplits: nat, most: int): (n: nat)
    requires p.block > 0 && g >= 1
    ensures n >= minSplits
  {
    Most(minSplits, Least(Least((w + g / 2) / g, most), Most(1, (w + MinBlocks(p) - 1) / MinBlocks(p))))
  }

  predicate LongRow(lens: seq<int>, window: nat) {
    exists i :: 0 <= i < |lens| && Most(1, Span(lens[i] + 1, window)) > SHORT
  }

  function RaggedMost(p: Policy, lens: seq<int>, window: nat, minSplits: nat): int {
    Most(if LongRow(lens, window) then Most(1, p.maxSplits) else Least(Most(1, p.maxSplits), CAP), minSplits)
  }

  function Ragged(p: Policy, lens: seq<int>, window: nat, k: int, minSplits: nat): (r: seq<nat>)
    requires p.block > 0
    ensures |r| == |lens|
  {
    var w := AllBlocks(p, lens, window);
    var g := Grain(p, Sum(w), k);
    seq(|lens|, i requires 0 <= i < |lens| => RowSplit(p, w[i], g, minSplits, RaggedMost(p, lens, window, minSplits)))
  }

  /** The smallest chunk is a whole number of pages. */
  predicate ChunkOk(p: Policy) { p.block > 0 && p.minChunk > 0 && p.minChunk % p.block == 0 }

  predicate DrainOk(p: Policy, lens: seq<int>, minSplits: nat) {
    ChunkOk(p) && |lens| == p.batch && p.maxSplits >= minSplits >= 1
  }

  predicate IsUniform(p: Policy, window: nat, seqLen: int, minSplits: nat, out: seq<nat>) {
    && ChooseSplits(p, seqLen, window).Ok?
    && out == seq(p.batch, _ => Most(minSplits, ChooseSplits(p, seqLen, window).value))
  }

  predicate IsRagged(p: Policy, window: nat, lens: seq<int>, k: int, minSplits: nat, out: seq<nat>) {
    && p.block > 0 && |lens| == p.batch && Most(1, p.maxSplits) >= minSplits
    && out == if BaseTasks(p) >= p.sms then seq(p.batch, _ => minSplits) else Ragged(p, lens, window, k, minSplits)
  }

  /** _attn_drain_splits_by_row */
  method AttnDrainSplitsByRow(p: Policy, window: nat, attnSeqLen: int, lens: Option<seq<int>>, k: int, minimum: int)
    returns (r: Result<seq<nat>, Refusal>)
    ensures var minSplits := Most(1, minimum);
      match lens {
        case None =>
          && (r.Ok? <==> ChunkOk(p))
          && (r.Ok? ==> IsUniform(p, window, attnSeqLen, minSplits, r.value))
        case Some(ns) =>
          && (r.Ok? <==> ChunkOk(p) && |ns| == p.batch && Most(1, p.maxSplits) >= minSplits && (ns == [] ==> p.sms <= 1))
          && (r.Ok? ==> IsRagged(p, window, ns, k, minSplits, r.value))
      }
  {
    if p.block <= 0 { return Err(BadBlock); }
    if p.minChunk <= 0 || p.minChunk % p.block != 0 { return Err(BadChunk); }
    var minSplits: nat := Most(1, minimum);
    if lens.None? {
      return Ok(seq(p.batch, _ => Most(minSplits, ChooseSplits(p, attnSeqLen, window).value)));
    }
    var ns := lens.value;
    if |ns| != p.batch { return Err(BadLengths); }
    var most := Most(1, p.maxSplits);
    if most < minSplits { return Err(BadMinimum); }
    if BaseTasks(p) >= p.sms { return Ok(seq(p.batch, _ => minSplits)); }
    if ns == [] { return Err(NoRows); }
    var longest := 0;
    var w: seq<int> := [];
    var work := 0;
    for i := 0 to |ns|
      invariant w == AllBlocks(p, ns[..i], window) && work == Sum(w)
      invariant forall j :: 0 <= j < i ==> Most(1, Span(ns[j] + 1, window)) <= longest
      invariant longest > SHORT ==> exists j :: 0 <= j < i && Most(1, Span(ns[j] + 1, window)) > SHORT
    {
      var e := Most(1, Span(ns[i] + 1, window));
      longest := Most(longest, e);
      assert (w + [Blocks(e, p.block)])[..|w|] == w;
      w := w + [Blocks(e, p.block)];
      work := work + w[i];
      assert w == AllBlocks(p, ns[..i + 1], window);
    }
    assert ns[..|ns|] == ns;
    assert LongRow(ns, window) <==> longest > SHORT;
    most := Most(Capped(most, longest), minSplits);
    var g := Grain(p, work, k);
    var out: seq<nat> := [];
    for i := 0 to |w|
      invariant out == Ragged(p, ns, window, k, minSplits)[..i]
    {
      out := out + [RowSplit(p, w[i], g, minSplits, most)];
    }
    r := Ok(out);
  }

  /** Every row gets between the two limits. */
  lemma RaggedBounds(p: Policy, lens: seq<int>, window: nat, k: int, minSplits: nat, i: nat)
    requires DrainOk(p, lens, minSplits) && i < |lens|
    ensures minSplits <= Ragged(p, lens, window, k, minSplits)[i] <= p.maxSplits
  {
  }

  /** Within a batch a longer row never gets fewer splits. */
  lemma LongerRowsGetMore(p: Policy, lens: seq<int>, window: nat, k: int, minSplits: nat, i: nat, j: nat)
    requires DrainOk(p, lens, minSplits) && i < |lens| && j < |lens| && lens[i] <= lens[j]
    ensures Ragged(p, lens, window, k, minSplits)[i] <= Ragged(p, lens, window, k, minSplits)[j]
  {
    var a, b := Most(1, Span(lens[i] + 1, window)), Most(1, Span(lens[j] + 1, window));
    DivGrows(a + p.block - 1, b + p.block - 1, p.block);
    var w := AllBlocks(p, lens, window);
    var g := Grain(p, Sum(w), k);
    DivGrows(w[i] + g / 2, w[j] + g / 2, g);
    DivGrows(w[i] + MinBlocks(p) - 1, w[j] + MinBlocks(p) - 1, MinBlocks(p));
  }

  lemma RowSplitBound(p: Policy, w: int, g: int, minSplits: nat, most: int)
    requires p.block > 0 && g >= 1
    ensures RowSplit(p, w, g, minSplits, most) <= minSplits || RowSplit(p, w, g, minSplits, most) <= (w + g / 2) / g
  {
  }

  /** Twice a row's share, in grains. */
  lemma RowShare(p: Policy, w: int, g: int, minSplits: nat, most: int)
    requires p.block > 0 && g >= 1 && w >= 1 && minSplits >= 1
    ensures 2 * g * RowSplit(p, w, g, minSplits, most) <= 2 * g * minSplits + 2 * w + g
  {
    hide RowSplit;
    RowSplitBound(p, w, g, minSplits, most);
    ShareBound(w, g, minSplits, RowSplit(p, w, g, minSplits, most), (w + g / 2) / g);
  }

  lemma ShareBound(w: int, g: int, least: int, s: int, q: int)
    requires g >= 1 && w >= 1 && least >= 1 && q == (w + g / 2) / g && (s <= least || s <= q)
    ensures 2 * g * s <= 2 * g * least + 2 * w + g
  {
    if s <= least {
      Times(2 * g, s, least);
    } else {
      Floor(q, w + g / 2, g);
      Times(2 * g, s, q);
      Times(2 * g, 0, least);
      assert 2 * g * q == 2 * (q * g);
    }
  }

  lemma Times(g: int, a: int, b: int)
    requires g >= 0 && a <= b
    ensures g * a <= g * b
  {
  }

  lemma {:induction false} ShareSum(p: Policy, w: seq<int>, out: seq<int>, g: int, minSplits: nat, most: int)
    requires p.block > 0 && g >= 1 && minSplits >= 1 && |out| == |w|
    requires forall i :: 0 <= i < |w| ==> w[i] >= 1 && out[i] == RowSplit(p, w[i], g, minSplits, most)
    ensures 2 * g * Sum(out) <= 2 * g * minSplits * |w| + 2 * Sum(w) + g * |w|
  {
    hide RowSplit;
    if w != [] {
      var n := |w| - 1;
      ShareSum(p, w[..n], out[..n], g, minSplits, most);
      RowShare(p, w[n], g, minSplits, most);
      Spread(2 * g, Sum(out[..n]), out[n]);
      Spread(2 * g * minSplits, n, 1);
      Spread(g, n, 1);
    }
  }

  lemma Spread(g: int, a: int, b: int)
    ensures g * (a + b) == g * a + g * b
  {
  }

  /** The queue never exceeds k tasks an SM by more than half a task, plus the minimum, for
      every row and head. */
  lemma QueueBound(p: Policy, lens: seq<int>, window: nat, k: int, minSplits: nat)
    requires DrainOk(p, lens, minSplits) && lens != [] && p.batch * p.hkv < p.sms && k >= 1
    ensures var heads := p.batch * p.hkv;
      2 * (p.hkv * Sum(Ragged(p, lens, window, k, minSplits))) <= 2 * (k * p.sms) + heads + 2 * minSplits * heads
  {
    hide RaggedMost;
    hide Span;
    var w := AllBlocks(p, lens, window);
    var work := Sum(w);
    var g := Grain(p, work, k);
    var out := Ragged(p, lens, window, k, minSplits);
    ShareSum(p, w, out, g, minSplits, RaggedMost(p, lens, window, minSplits));
    SumAtLeast(w);
    GrainCovers(p, work, k);
    Combine(p.hkv, Sum(out), work, g, minSplits, |w|, k * p.sms);
  }

  lemma {:induction false} SumAtLeast(w: seq<int>)
    requires forall i :: 0 <= i < |w| ==> w[i] >= 1
    ensures Sum(w) >= |w|
  {
    if w != [] { SumAtLeast(w[..|w| - 1]); }
  }

  /** k * sms tasks of one grain each cover all pages of all heads. */
  lemma GrainCovers(p: Policy, work: int, k: int)
    requires p.block > 0 && work >= 1 && k >= 1 && p.sms >= 1
    ensures p.hkv * work <= Grain(p, work, k) * (k * p.sms)
  {
    var tasks := k * p.sms;
    assert tasks >= 1;
    var g := Grain(p, work, k);
    var n := p.hkv * work;
    var c := (n + tasks - 1) / tasks;
    assert c <= g;
    assert c * tasks >= n by { assert n + tasks - 1 < c * tasks + tasks; }
    Times(tasks, c, g);
  }

  lemma Combine(hkv: nat, total: int, work: int, g: int, minSplits: nat, rows: nat, tasks: int)
    requires g >= 1 && 2 * g * total <= 2 * g * minSplits * rows + 2 * work + g * rows && hkv * work <= g * tasks
    ensures 2 * (hkv * total) <= 2 * tasks + rows * hkv + 2 * minSplits * (rows * hkv)
  {
    var left, right := 2 * (hkv * total), 2 * tasks + rows * hkv + 2 * minSplits * (rows * hkv);
    Times(hkv, 2 * g * total, 2 * g * minSplits * rows + 2 * work + g * rows);
    assert hkv * (2 * g * total) == g * left;
    assert hkv * (2 * g * minSplits * rows) == g * (2 * minSplits * (rows * hkv));
    assert hkv * (g * rows) == g * (rows * hkv);
    assert hkv * (2 * work) == 2 * (hkv * work);
    Spread(hkv, 2 * g * minSplits * rows + 2 * work, g * rows);
    Spread(hkv, 2 * g * minSplits * rows, 2 * work);
    Spread(g, 2 * tasks, rows * hkv);
    Spread(g, 2 * tasks + rows * hkv, 2 * minSplits * (rows * hkv));
    assert g * left <= g * right;
    if left > right { Times(g, right + 1, left); Spread(g, right, 1); }
  }

  /** So it always fits the buffer that was allocated for the worst case. */
  lemma {:induction false} FitsCapacity(out: seq<int>, hkv: nat, most: int)
    requires forall i :: 0 <= i < |out| ==> 0 <= out[i] <= most
    ensures 0 <= Sum(out) <= |out| * most
    ensures hkv * Sum(out) <= |out| * hkv * Most(1, most)
  {
    if out != [] {
      FitsCapacity(out[..|out| - 1], hkv, most);
      assert |out| * most == (|out| - 1) * most + most;
    }
    Times(hkv, Sum(out), |out| * most);
    assert hkv * (|out| * most) == |out| * hkv * most;
    Times(|out| * hkv, most, Most(1, most));
  }
}
