/** Which blocks an attention split reads, and when it has none (attn_decode). */
module SplitBlocks {
  import opened Arithmetic
  import opened Schedule
  import opened WaveArrivals

  /** The blocks that a query of this length attends. */
  function WindowBlocks(tokens: nat, window: nat): (n: nat)
    requires tokens > 0
    ensures n > 0
  {
    WindowHasBlocks(tokens, window);
    CeilDiv(tokens, KV_BLOCK) - FirstBlock(tokens, window)
  }

  lemma WindowHasBlocks(tokens: nat, window: nat)
    requires tokens > 0
    ensures FirstBlock(tokens, window) < CeilDiv(tokens, KV_BLOCK)
  {
    CeilDivBounds(tokens, KV_BLOCK);
    if window > 0 && tokens > window + 1 { QuotientBounds(tokens - (window + 1), KV_BLOCK); }
  }

  /** Splits are filled from the first one on: split p of n has nothing to read exactly when
      the splits before it already take all blocks. */
  lemma EmptyIff(env: Env, row: nat, p: nat, n: nat, window: nat)
    requires n > 0
    ensures EmptySplit(env, row, p, n, window) <==>
      p * CeilDiv(WindowBlocks(Tokens(env, row), window), n) >= WindowBlocks(Tokens(env, row), window)
  {
    hide CeilDiv;
    hide FirstBlock;
    var tokens := Tokens(env, row);
    var total := WindowBlocks(tokens, window);
    CeilDivBounds(total, n);
    assert BlocksPerSplit(tokens, window, n) == CeilDiv(total, n);
  }

  /** The first split of an active row always has a block to read. */
  lemma FirstSplitReads(env: Env, x: Inst)
    requires x.AttnDecode? && Active(env, x.row) && x.split == 0 && x.numSplits > 0
    ensures !Idle(env, x)
  {
    hide EmptySplit;
    EmptyIff(env, x.row, 0, x.numSplits, x.window);
  }

  // ---- the splits share the window out ----

  /** Split p of n reads block b. */
  predicate Reads(tokens: nat, window: nat, n: nat, p: nat, b: nat)
    requires n > 0
  {
    var size := BlocksPerSplit(tokens, window, n);
    var begin := FirstBlock(tokens, window) + p * size;
    begin <= b < begin + size && b < CeilDiv(tokens, KV_BLOCK)
  }

  lemma EmptyReadsNothing(env: Env, row: nat, p: nat, n: nat, window: nat)
    requires n > 0
    ensures EmptySplit(env, row, p, n, window) <==> forall b: nat :: !Reads(Tokens(env, row), window, n, p, b)
  {
    hide CeilDiv;
    var begin := FirstBlock(Tokens(env, row), window) + p * BlocksPerSplit(Tokens(env, row), window, n);
    if !EmptySplit(env, row, p, n, window) { assert Reads(Tokens(env, row), window, n, p, begin); }
  }

  /** The query of a row of this length attends token t; the left radius is inclusive. */
  predicate Attends(tokens: nat, window: nat, t: nat) { t < tokens && (window > 0 ==> tokens - 1 - t <= window) }

  /** The blocks from the window's first to the last hold exactly the tokens attended. */
  lemma AttendedBlocks(tokens: nat, window: nat, b: nat)
    requires tokens > 0
    ensures FirstBlock(tokens, window) <= b < CeilDiv(tokens, KV_BLOCK) <==>
      exists t: nat :: Attends(tokens, window, t) && t / KV_BLOCK == b
  {
    var from := if window > 0 && tokens > window + 1 then tokens - (window + 1) else 0;
    assert FirstBlock(tokens, window) == from / KV_BLOCK by { DivBounds(0, KV_BLOCK, 0); }
    var blocks := CeilDiv(tokens, KV_BLOCK);
    CeilDivBounds(tokens, KV_BLOCK);
    forall t: nat | Attends(tokens, window, t) ensures from / KV_BLOCK <= t / KV_BLOCK < blocks {
      DivGrows(from, t, KV_BLOCK);
      BelowQuotient(blocks - 1, t, KV_BLOCK);
    }
    if from / KV_BLOCK <= b < blocks {
      var t := if b == from / KV_BLOCK then from else b * KV_BLOCK;
      QuotientBounds(from, KV_BLOCK);
      DivExact(b, KV_BLOCK);
      if b > from / KV_BLOCK {
        MulApart(from / KV_BLOCK, b, KV_BLOCK);
        MulApart(b, blocks, KV_BLOCK);
      }
      assert Attends(tokens, window, t) && t / KV_BLOCK == b;
    }
  }

  /** Each block with an attended token is read by one split, no other block by any, and no
      block by two. */
  lemma EachBlockOnce(tokens: nat, window: nat, n: nat, b: nat)
    requires tokens > 0 && n > 0
    ensures (exists p: nat :: p < n && Reads(tokens, window, n, p, b)) <==>
      exists t: nat :: Attends(tokens, window, t) && t / KV_BLOCK == b
    ensures forall p: nat, q: nat :: Reads(tokens, window, n, p, b) && Reads(tokens, window, n, q, b) ==> p == q
  {
    hide Reads;
    AttendedBlocks(tokens, window, b);
    if FirstBlock(tokens, window) <= b < CeilDiv(tokens, KV_BLOCK) { var p := SplitOf(tokens, window, n, b); }
    forall p: nat | Reads(tokens, window, n, p, b) ensures FirstBlock(tokens, window) <= b < CeilDiv(tokens, KV_BLOCK) {
      ReadsInside(tokens, window, n, p, b);
    }
    forall p: nat, q: nat | Reads(tokens, window, n, p, b) && Reads(tokens, window, n, q, b) ensures p == q {
      OneReader(tokens, window, n, p, q, b);
    }
  }

  lemma ReadsInside(tokens: nat, window: nat, n: nat, p: nat, b: nat)
    requires n > 0 && Reads(tokens, window, n, p, b)
    ensures FirstBlock(tokens, window) <= b < CeilDiv(tokens, KV_BLOCK)
  {
    hide FirstBlock;
    hide CeilDiv;
  }

  lemma OneReader(tokens: nat, window: nat, n: nat, p: nat, q: nat, b: nat)
    requires n > 0 && Reads(tokens, window, n, p, b) && Reads(tokens, window, n, q, b)
    ensures p == q
  {
    hide FirstBlock;
    hide BlocksPerSplit;
    hide CeilDiv;
    var size := BlocksPerSplit(tokens, window, n);
    if p < q { MulApart(p, q, size); }
    if q < p { MulApart(q, p, size); }
  }

  lemma SplitOf(tokens: nat, window: nat, n: nat, b: nat) returns (p: nat)
    requires tokens > 0 && n > 0 && FirstBlock(tokens, window) <= b < CeilDiv(tokens, KV_BLOCK)
    ensures p < n && Reads(tokens, window, n, p, b)
  {
    hide FirstBlock;
    hide CeilDiv;
    var first, size := FirstBlock(tokens, window), BlocksPerSplit(tokens, window, n);
    assert n * size >= CeilDiv(tokens, KV_BLOCK) - first && size > 0 by {
      CeilDivBounds(CeilDiv(tokens, KV_BLOCK) - first, n);
    }
    hide BlocksPerSplit;
    p := (b - first) / size;
    QuotientBounds(b - first, size);
    if p >= n { MulGrows(n, p, size); }
  }
}
