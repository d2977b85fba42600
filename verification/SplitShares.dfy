/** What the two split policies choose, said of the tokens a row attends: the uniform one takes
    the most splits that its limits allow, the ragged one each row's rounded share of the work
    (decode/schedule.py). */
module SplitShares {
  import opened Arithmetic
  import opened Wrappers
  import opened Splits

  /** The positions a query at position n attends; the window's radius is inclusive. */
  function Attended(n: int, window: nat): set<nat> {
    Interval(if window > 0 && n > window then n - window else 0, if n >= 0 then n + 1 else 0)
  }

  /** Right: position t is attended exactly if it is no later than n and within the radius. */
  lemma AttendedIff(n: int, window: nat, t: nat)
    ensures t in Attended(n, window) <==> t <= n && (window > 0 ==> n - t <= window)
  {
  }

  lemma AttendedSize(n: int, window: nat)
    ensures |Attended(n - 1, window)| == Most(0, Span(n, window))
  {
  }

  /** The pages of `count` tokens that start on a page, and one page for none. */
  predicate ArePages(w: int, count: nat, block: int) {
    w >= 1 && count <= w * block && (w == 1 || (w - 1) * block < count)
  }

  lemma BlocksArePages(count: int, block: int)
    requires block > 0
    ensures ArePages(Blocks(count, block), Most(0, count), block)
  {
    QuotientBounds(count + block - 1, block);
    var q := (count + block - 1) / block;
    MulStep(q - 1, block);
    if q < 1 { MulGrows(q, 0, block); }
  }

  lemma PagesAreUnique(a: int, b: int, count: nat, block: int)
    requires block > 0 && ArePages(a, count, block) && ArePages(b, count, block)
    ensures a == b
  {
    if a < b { MulGrows(a, b - 1, block); }
    if b < a { MulGrows(b, a - 1, block); }
  }

  // ---- the uniform policy ----

  /** n splits of the w pages attended keep to the limits: the maximum, the cap on a short
      context, no split less than the smallest chunk, no task more than needed to give every
      SM one. */
  predicate Allowed(p: Policy, count: nat, w: int, n: int) {
    && n <= p.maxSplits && (count <= 65537 ==> n <= 16)
    && (n - 1) * BaseTasks(p) < p.sms
    && n * p.minChunk <= w * p.block
  }

  /** The policy chooses the most splits allowed, and one when no more are. */
  lemma ChooseIsGreatest(p: Policy, seqLen: int, window: nat, w: int, n: int)
    requires ChooseSplits(p, seqLen, window).Ok? && ChunkOk(p) && n >= 1
    requires ArePages(w, |Attended(seqLen - 1, window)|, p.block)
    ensures var chosen := ChooseSplits(p, seqLen, window).value; var count := |Attended(seqLen - 1, window)|;
      && (chosen > 1 ==> Allowed(p, count, w, chosen))
      && (n > 1 && Allowed(p, count, w, n) ==> n <= chosen)
  {
    hide Attended;
    hide ArePages;
    AttendedSize(seqLen, window);
    var tokens := Span(seqLen, window);
    BlocksArePages(tokens, p.block);
    PagesAreUnique(w, Blocks(tokens, p.block), |Attended(seqLen - 1, window)|, p.block);
    var chosen := ChooseSplits(p, seqLen, window).value;
    if chosen > 1 {
      ChooseFits(p, seqLen, window);
      ChunkPages(p, chosen, w);
    }
    if n > 1 && Allowed(p, |Attended(seqLen - 1, window)|, w, n) {
      ChunkPages(p, n, w);
      NoMoreFit(p, seqLen, window, n);
    }
  }

  /** A chunk is a whole number of pages. */
  lemma ChunkPages(p: Policy, n: int, w: int)
    requires ChunkOk(p)
    ensures MinBlocks(p) * p.block == p.minChunk
    ensures n * p.minChunk <= w * p.block <==> n * MinBlocks(p) <= w
    ensures n * p.minChunk < w * p.block <==> n * MinBlocks(p) < w
  {
    var m := MinBlocks(p);
    assert p.minChunk == (p.minChunk / p.block) * p.block;
    assert p.minChunk / p.block >= 1;
    assert n * p.minChunk == (n * m) * p.block;
    if n * m <= w { MulGrows(n * m, w, p.block); } else { MulApart(w, n * m, p.block); }
    if n * m < w { MulApart(n * m, w, p.block); } else { MulGrows(w, n * m, p.block); }
  }

  lemma NoMoreFit(p: Policy, seqLen: int, window: nat, n: int)
    requires ChooseSplits(p, seqLen, window).Ok? && p.block > 0 && n > 1
    requires n * MinBlocks(p) <= Blocks(Span(seqLen, window), p.block) && (n - 1) * BaseTasks(p) < p.sms
    requires n <= p.maxSplits && (Span(seqLen, window) <= SHORT ==> n <= CAP)
    ensures n <= ChooseSplits(p, seqLen, window).value
  {
    var m, total, tasks := MinBlocks(p), Blocks(Span(seqLen, window), p.block), BaseTasks(p);
    AtLeast(n, total, m);
    assert (n - 1) * tasks >= tasks by { MulGrows(1, n - 1, tasks); }
    MulStep(n - 1, tasks);
    AtLeast(n, p.sms + tasks - 1, tasks);
  }

  lemma AtLeast(n: int, total: int, d: int)
    requires d > 0 && n * d <= total
    ensures n <= total / d
  {
    DivExact(n, d);
    DivGrows(n * d, total, d);
  }

  // ---- the ragged policy ----

  /** Tasks of g pages, of at least the smallest chunk, that are not more than k for an SM. */
  predicate Covers(p: Policy, work: int, k: int, g: int) {
    g * p.block >= p.minChunk && p.hkv * work <= g * (Most(1, k) * p.sms)
  }

  /** The least such number of pages. */
  ghost predicate IsGrain(p: Policy, work: int, k: int, g: int) {
    g >= 1 && Covers(p, work, k, g) && forall f :: 1 <= f && Covers(p, work, k, f) ==> g <= f
  }

  lemma GrainIsLeast(p: Policy, work: int, k: int)
    requires ChunkOk(p) && work >= 1 && p.sms >= 1
    ensures IsGrain(p, work, k, Grain(p, work, k))
  {
    var g, m, n, tasks := Grain(p, work, k), MinBlocks(p), p.hkv * work, Most(1, k) * p.sms;
    assert tasks >= 1 by { MulGrows(1, Most(1, k), p.sms); }
    var c := (n + tasks - 1) / tasks;
    QuotientBounds(n + tasks - 1, tasks);
    ChunkPages(p, 1, g);
    Times(tasks, c, g);
    forall f | 1 <= f && Covers(p, work, k, f) ensures g <= f {
      ChunkPages(p, 1, f);
      if f < c { MulApart(f, c, tasks); }
    }
  }

  lemma GrainIsUnique(p: Policy, work: int, k: int, g: int, f: int)
    requires IsGrain(p, work, k, g) && IsGrain(p, work, k, f)
    ensures g == f
  {
  }

  /** The pages each row attends. */
  predicate RowPages(p: Policy, lens: seq<int>, window: nat, w: seq<int>) {
    |w| == |lens| && forall i :: 0 <= i < |w| ==> ArePages(w[i], |Attended(lens[i], window)|, p.block)
  }

  lemma PagesAreAll(p: Policy, lens: seq<int>, window: nat, w: seq<int>)
    requires p.block > 0 && RowPages(p, lens, window, w)
    ensures w == AllBlocks(p, lens, window) && forall i :: 0 <= i < |w| ==> w[i] >= 1
  {
    hide Attended;
    hide Blocks;
    forall i | 0 <= i < |w| ensures w[i] == AllBlocks(p, lens, window)[i] && w[i] >= 1 {
      AttendedSize(lens[i] + 1, window);
      var e := Most(1, Span(lens[i] + 1, window));
      BlocksArePages(e, p.block);
      OnePageForNone(Blocks(e, p.block), Most(0, Span(lens[i] + 1, window)), p.block);
      PagesAreUnique(w[i], Blocks(e, p.block), |Attended(lens[i], window)|, p.block);
    }
  }

  lemma OnePageForNone(w: int, count: nat, block: int)
    requires block > 0 && ArePages(w, Most(1, count), block)
    ensures ArePages(w, count, block)
  {
    if w > 1 { MulGrows(1, w - 1, block); }
  }

  /** Some row attends more tokens than the cap on splits is meant for. */
  predicate SomeLong(lens: seq<int>, window: nat) {
    exists i :: 0 <= i < |lens| && |Attended(lens[i], window)| > 65537
  }

  /** n is below the maximum, below the cap where it applies, and the row of w pages has
      more than n smallest chunks. */
  predicate Unlimited(p: Policy, lens: seq<int>, window: nat, w: int, n: int) {
    n < p.maxSplits && (n < 16 || SomeLong(lens, window)) && n * p.minChunk < w * p.block
  }

  /** The share of row i, with its w[i] pages: w[i] / g rounded half up, where no limit binds;
      never more unless the minimum demands it, and never less unless a limit does. */
  lemma ShareOfRow(p: Policy, lens: seq<int>, window: nat, k: int, minSplits: nat, w: seq<int>, g: int, i: nat)
    requires DrainOk(p, lens, minSplits) && p.sms >= 1 && i < |lens|
    requires RowPages(p, lens, window, w) && IsGrain(p, Sum(w), k, g)
    ensures var n := Ragged(p, lens, window, k, minSplits)[i];
      && minSplits <= n <= p.maxSplits
      && (n > minSplits ==> Unlimited(p, lens, window, w[i], n - 1) && 2 * (g * n) <= 2 * w[i] + g)
      && (Unlimited(p, lens, window, w[i], n) ==> 2 * w[i] < 2 * (g * n) + g)
  {
    hide Attended;
    hide ArePages;
    hide IsGrain;
    PagesAreAll(p, lens, window, w);
    SumAtLeast(w);
    GrainIsLeast(p, Sum(w), k);
    GrainIsUnique(p, Sum(w), k, g, Grain(p, Sum(w), k));
    LongMeansLong(lens, window);
    var n := Ragged(p, lens, window, k, minSplits)[i];
    RaggedBounds(p, lens, window, k, minSplits, i);
    ChunkPages(p, n, w[i]);
    ChunkPages(p, n - 1, w[i]);
    ShareRounds(p, w[i], g, minSplits, RaggedMost(p, lens, window, minSplits));
  }

  lemma LongMeansLong(lens: seq<int>, window: nat)
    ensures SomeLong(lens, window) <==> LongRow(lens, window)
  {
    hide Attended;
    forall i | 0 <= i < |lens| ensures |Attended(lens[i], window)| == Most(0, Span(lens[i] + 1, window)) {
      AttendedSize(lens[i] + 1, window);
    }
  }

  lemma ShareRounds(p: Policy, w: int, g: int, minSplits: nat, most: int)
    requires p.block > 0 && g >= 1 && w >= 1 && minSplits >= 1
    ensures var n, m := RowSplit(p, w, g, minSplits, most), MinBlocks(p);
      && (n > minSplits ==> n <= most && (n - 1) * m < w && 2 * (g * n) <= 2 * w + g)
      && (n < most && n * m < w ==> 2 * w < 2 * (g * n) + g)
  {
    var n, m, q := RowSplit(p, w, g, minSplits, most), MinBlocks(p), (w + g / 2) / g;
    var chunks := (w + m - 1) / m;
    QuotientBounds(w + g / 2, g);
    QuotientBounds(w + m - 1, m);
    if n > minSplits {
      assert n <= q && n <= Most(1, chunks);
      MulGrows(n, q, g);
      MulGrows(n - 1, chunks - 1, m);
      MulStep(chunks - 1, m);
    }
    if n < most && n * m < w {
      if n >= chunks { MulGrows(chunks, n, m); }
      assert n >= q;
      MulGrows(q, n, g);
    }
  }

  /** Where no limit binds, the queue holds all the work in grains, up to half a grain for
      each row and head. */
  lemma QueueReaches(p: Policy, lens: seq<int>, window: nat, k: int, minSplits: nat, w: seq<int>, g: int)
    requires DrainOk(p, lens, minSplits) && p.sms >= 1
    requires RowPages(p, lens, window, w) && IsGrain(p, Sum(w), k, g)
    requires forall i :: 0 <= i < |w| ==> Unlimited(p, lens, window, w[i], Ragged(p, lens, window, k, minSplits)[i])
    ensures var queue := p.hkv * Sum(Ragged(p, lens, window, k, minSplits));
      2 * (p.hkv * Sum(w)) <= 2 * (g * queue) + g * (p.batch * p.hkv)
  {
    hide Attended;
    hide ArePages;
    hide IsGrain;
    hide Ragged;
    hide Unlimited;
    var out := Ragged(p, lens, window, k, minSplits);
    forall i | 0 <= i < |w| ensures 2 * w[i] <= 2 * (g * out[i]) + g {
      ShareOfRow(p, lens, window, k, minSplits, w, g, i);
    }
    SumReaches(w, out, g);
    EveryHead(p.hkv, Sum(w), Sum(out), g, |w|);
  }

  lemma EveryHead(hkv: nat, work: int, total: int, g: int, rows: nat)
    requires 2 * work <= 2 * (g * total) + g * rows
    ensures 2 * (hkv * work) <= 2 * (g * (hkv * total)) + g * (rows * hkv)
  {
    var a, b := g * total, g * rows;
    Times(hkv, 2 * work, 2 * a + b);
    Spread(hkv, 2 * a, b);
    assert hkv * a == g * (hkv * total);
    assert hkv * b == g * (rows * hkv);
  }

  lemma {:induction false} SumReaches(w: seq<int>, out: seq<int>, g: int)
    requires |w| == |out| && forall i :: 0 <= i < |w| ==> 2 * w[i] <= 2 * (g * out[i]) + g
    ensures 2 * Sum(w) <= 2 * (g * Sum(out)) + g * |w|
  {
    if w != [] {
      var n := |w| - 1;
      SumReaches(w[..n], out[..n], g);
      Spread(g, Sum(out[..n]), out[n]);
      Spread(g, n, 1);
    }
  }
}
