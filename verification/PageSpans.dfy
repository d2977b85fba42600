/** What a request is charged, counted in the pages its tokens lie on: the admission formulas
    charge neither less nor more (prefill/torch_prefill.py, serving/session.py). */
module PageSpans {
  import opened Arithmetic
  import opened KvModel
  import opened Admission

  /** The pages that hold `count` consecutive tokens from `start` on. */
  function PagesHit(start: nat, count: nat, block: nat): set<nat>
    requires block > 0
  {
    set t | start <= t < start + count :: t / block
  }

  /** The pages hit are those from the first token's to the last token's. */
  lemma HitsInterval(start: nat, count: nat, block: nat)
    requires block > 0 && count > 0
    ensures PagesHit(start, count, block) == Interval(start / block, (start + count - 1) / block + 1)
    ensures |PagesHit(start, count, block)| == (start + count - 1) / block + 1 - start / block
  {
    var first, last := start / block, (start + count - 1) / block;
    DivGrows(start, start + count - 1, block);
    forall k: nat | first <= k <= last ensures k in PagesHit(start, count, block) {
      var t := TokenOn(start, count, block, k);
      assert t / block == k;
    }
    forall t: nat | start <= t < start + count ensures first <= t / block <= last {
      DivGrows(start, t, block);
      DivGrows(t, start + count - 1, block);
    }
    assert PagesHit(start, count, block) == Interval(first, last + 1);
  }

  lemma TokenOn(start: nat, count: nat, block: nat, k: nat) returns (t: nat)
    requires block > 0 && count > 0 && start / block <= k <= (start + count - 1) / block
    ensures start <= t < start + count && t / block == k
  {
    t := start;
    if k > start / block {
      t := k * block;
      QuotientBounds(start, block);
      QuotientBounds(start + count - 1, block);
      MulApart(start / block, k, block);
      MulGrows(k, (start + count - 1) / block, block);
      DivExact(k, block);
    }
  }

  /** The most pages that `count` consecutive tokens can lie on. */
  ghost predicate MostHit(most: nat, count: nat, block: nat)
    requires block > 0
  {
    && (forall start: nat :: |PagesHit(start, count, block)| <= most)
    && exists start: nat :: |PagesHit(start, count, block)| == most
  }

  /** max_sliding_window_pages is that maximum: no run of tokens needs more, and one that
      starts on the last token of a page needs as many. */
  lemma WindowIsMostHit(count: nat, block: nat)
    requires block > 0
    ensures MostHit(WindowPages(count, block), count, block)
  {
    hide WindowPages;
    forall start: nat ensures |PagesHit(start, count, block)| <= WindowPages(count, block) {
      SpanFits(start, count, block);
    }
    SpanReached(count, block);
    assert |PagesHit(block - 1, count, block)| == WindowPages(count, block);
  }

  lemma SpanFits(start: nat, count: nat, block: nat)
    requires block > 0
    ensures |PagesHit(start, count, block)| <= WindowPages(count, block)
  {
    if count == 0 {
      assert PagesHit(start, count, block) == {};
    } else {
      hide PagesHit;
      HitsInterval(start, count, block);
      QuotientGap(start, count, block);
    }
  }

  lemma QuotientGap(start: nat, count: nat, block: nat)
    requires block > 0 && count > 0
    ensures (start + count - 1) / block + 1 - start / block <= (count + 2 * block - 2) / block
  {
    var first, last, width := start / block, (start + count - 1) / block, (count + 2 * block - 2) / block;
    assert first * block <= start < first * block + block by { QuotientBounds(start, block); }
    assert last * block <= start + count - 1 by { QuotientBounds(start + count - 1, block); }
    assert count + 2 * block - 2 < width * block + block by { QuotientBounds(count + 2 * block - 2, block); }
    Gap(first, last, width, start, count, block);
  }

  lemma Gap(first: nat, last: nat, width: nat, start: nat, count: nat, block: nat)
    requires first * block <= start < first * block + block && last * block <= start + count - 1
    requires count + 2 * block - 2 < width * block + block
    ensures last + 1 - first <= width
  {
    assert (first + width) * block == first * block + width * block;
    if first + width <= last { MulGrows(first + width, last, block); }
  }

  lemma SpanReached(count: nat, block: nat)
    requires block > 0
    ensures |PagesHit(block - 1, count, block)| == WindowPages(count, block)
  {
    if count == 0 { assert PagesHit(block - 1, count, block) == {}; return; }
    HitsInterval(block - 1, count, block);
    DivBounds(block - 1, block, 0);
    OnePage(block - 1 + count - 1, block);
  }

  lemma MostIsUnique(a: nat, b: nat, count: nat, block: nat)
    requires block > 0 && MostHit(a, count, block) && MostHit(b, count, block)
    ensures a == b
  {
  }

  /** The pages of a prompt; an empty one is charged a page. */
  function PromptHit(tokens: nat, block: nat): int
    requires block > 0
  {
    Most(1, |PagesHit(0, tokens, block)|)
  }

  lemma PromptIsHit(tokens: nat, block: nat)
    requires block > 0
    ensures PromptPages(tokens, block) == PromptHit(tokens, block)
  {
    if tokens == 0 {
      assert PagesHit(0, tokens, block) == {};
      DivBounds(block - 1, block, 0);
    } else {
      HitsInterval(0, tokens, block);
      OnePage(tokens - 1, block);
      DivBounds(0, block, 0);
      assert tokens + block - 1 == (tokens - 1) + block;
      DivGrows(0, tokens - 1, block);
    }
  }

  function LayersOf(g: Geometry, layers: nat, sliding: bool): set<nat>
    requires GeometryOk(g)
  {
    set l: nat | l < layers && Sliding(g, l) == sliding
  }

  lemma LayersStep(g: Geometry, layers: nat, sliding: bool)
    requires GeometryOk(g)
    ensures |LayersOf(g, layers + 1, sliding)| ==
      |LayersOf(g, layers, sliding)| + if Sliding(g, layers) == sliding then 1 else 0
  {
    hide Sliding;
    if Sliding(g, layers) == sliding {
      assert LayersOf(g, layers + 1, sliding) == LayersOf(g, layers, sliding) + {layers};
    } else {
      assert LayersOf(g, layers + 1, sliding) == LayersOf(g, layers, sliding);
    }
  }

  /** What a prompt is charged: its own pages for each full layer, and for each sliding
      layer two windows and one chunk, wherever they start, or its own pages if fewer. */
  lemma {:induction false} ChargeInSpans(g: Geometry, chunk: nat, tokens: nat, window: nat, chunkPages: nat, layers: nat)
    requires GeometryOk(g) && g.window > 0
    requires MostHit(window, g.window, g.block) && MostHit(chunkPages, chunk, g.block)
    ensures var pages := PromptHit(tokens, g.block);
      Required(g, chunk, tokens, layers) ==
      |LayersOf(g, layers, false)| * pages + |LayersOf(g, layers, true)| * Least(pages, 2 * window + chunkPages)
  {
    hide LayerBlocks;
    hide PromptHit;
    hide MostHit;
    if layers == 0 {
      assert LayersOf(g, 0, false) == LayersOf(g, 0, true) == {};
      return;
    }
    var l, pages := layers - 1, PromptHit(tokens, g.block);
    ChargeInSpans(g, chunk, tokens, window, chunkPages, l);
    LayerInSpans(g, chunk, tokens, window, chunkPages, l);
    LayersStep(g, l, false);
    LayersStep(g, l, true);
    MulStep(|LayersOf(g, l, false)|, pages);
    MulStep(|LayersOf(g, l, true)|, Least(pages, 2 * window + chunkPages));
  }

  lemma LayerInSpans(g: Geometry, chunk: nat, tokens: nat, window: nat, chunkPages: nat, l: nat)
    requires GeometryOk(g) && g.window > 0
    requires MostHit(window, g.window, g.block) && MostHit(chunkPages, chunk, g.block)
    ensures var pages := PromptHit(tokens, g.block);
      LayerBlocks(g, chunk, tokens, l) == if Sliding(g, l) then Least(pages, 2 * window + chunkPages) else pages
  {
    hide WindowPages;
    hide MostHit;
    hide PromptPages;
    hide PromptHit;
    WindowIsMostHit(g.window, g.block);
    WindowIsMostHit(chunk, g.block);
    MostIsUnique(window, WindowPages(g.window, g.block), g.window, g.block);
    MostIsUnique(chunkPages, WindowPages(chunk, g.block), chunk, g.block);
    PromptIsHit(tokens, g.block);
  }

  /** A row of this length after prefill, over all layers: its own pages for each full layer,
      and one window, wherever it starts, for each sliding one. */
  function RowInSpans(g: Geometry, tokens: nat, window: nat, layers: nat): int
    requires GeometryOk(g)
  {
    var pages := PromptHit(tokens, g.block);
    if g.window == 0 then layers * pages
    else |LayersOf(g, layers, false)| * pages + |LayersOf(g, layers, true)| * Least(pages, window)
  }

  function RowsInSpans(g: Geometry, capacities: seq<nat>, window: nat, layers: nat): (r: seq<int>)
    requires GeometryOk(g)
    ensures |r| == |capacities|
  {
    seq(|capacities|, i requires 0 <= i < |capacities| => RowInSpans(g, capacities[i], window, layers))
  }

  /** The estimate is the sum over the rows. */
  lemma {:induction false} EstimateInSpans(g: Geometry, capacities: seq<nat>, window: nat, layers: nat)
    requires GeometryOk(g) && MostHit(window, g.window, g.block)
    ensures SteadyBlocks(g, capacities, layers) == Sum(RowsInSpans(g, capacities, window, layers))
  {
    hide MostHit;
    hide RowInSpans;
    if layers == 0 {
      forall i | 0 <= i < |capacities| ensures RowsInSpans(g, capacities, window, 0)[i] == 0 {
        NoLayers(g, capacities[i], window);
      }
      SumZero(RowsInSpans(g, capacities, window, 0));
    } else {
      EstimateInSpans(g, capacities, window, layers - 1);
      OneMoreLayer(g, capacities, window, layers - 1);
    }
  }

  lemma NoLayers(g: Geometry, tokens: nat, window: nat)
    requires GeometryOk(g)
    ensures RowInSpans(g, tokens, window, 0) == 0
  {
    assert LayersOf(g, 0, false) == LayersOf(g, 0, true) == {};
  }

  lemma {:induction false} OneMoreLayer(g: Geometry, capacities: seq<nat>, window: nat, l: nat)
    requires GeometryOk(g) && MostHit(window, g.window, g.block)
    ensures Sum(RowsInSpans(g, capacities, window, l + 1)) == Sum(RowsInSpans(g, capacities, window, l)) + SteadyRows(g, capacities, l)
  {
    hide MostHit;
    hide RowInSpans;
    hide WindowPages;
    hide PromptPages;
    if capacities != [] {
      var n := |capacities| - 1;
      OneMoreLayer(g, capacities[..n], window, l);
      assert RowsInSpans(g, capacities, window, l)[..n] == RowsInSpans(g, capacities[..n], window, l);
      assert RowsInSpans(g, capacities, window, l + 1)[..n] == RowsInSpans(g, capacities[..n], window, l + 1);
      RowOneMore(g, capacities[n], window, l);
    }
  }

  lemma RowOneMore(g: Geometry, tokens: nat, window: nat, l: nat)
    requires GeometryOk(g) && MostHit(window, g.window, g.block)
    ensures RowInSpans(g, tokens, window, l + 1) == RowInSpans(g, tokens, window, l) +
      var pages := PromptPages(tokens, g.block);
      if Sliding(g, l) && g.window > 0 then Least(pages, WindowPages(g.window, g.block)) else pages
  {
    hide MostHit;
    hide WindowPages;
    hide PromptPages;
    hide PromptHit;
    var pages := PromptHit(tokens, g.block);
    PromptIsHit(tokens, g.block);
    WindowIsMostHit(g.window, g.block);
    MostIsUnique(window, WindowPages(g.window, g.block), g.window, g.block);
    LayersStep(g, l, false);
    LayersStep(g, l, true);
    MulStep(l, pages);
    MulStep(|LayersOf(g, l, false)|, pages);
    MulStep(|LayersOf(g, l, true)|, Least(pages, window));
  }
}
