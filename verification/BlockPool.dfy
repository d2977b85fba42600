/** The block pool as the original keeps it: counts and hashes per block, and the free
    queue as a doubly linked list threaded through the blocks (kv/cache.cpp). */
module BlockPool {
  import opened Wrappers
  import opened PrefixKeys
  import opened KvModel
  import opened KvInvariant

  const NONE: int := -1

  /** `order` is the sequence that the links spell. */
  ghost predicate Linked(order: seq<nat>, prev: seq<int>, next: seq<int>, queued: seq<bool>, head: int, tail: int) {
    && |prev| == |next| == |queued|
    && Distinct(order)
    && (forall i :: 0 <= i < |order| ==> order[i] < |next|)
    && (forall b :: 0 <= b < |queued| ==> (queued[b] <==> b in order))
    && head == (if order == [] then NONE else order[0])
    && tail == (if order == [] then NONE else order[|order| - 1])
    && NextSpells(order, next) && PrevSpells(order, prev)
  }

  predicate NextAt(order: seq<nat>, next: seq<int>, i: nat)
    requires i < |order| && order[i] < |next|
  {
    next[order[i]] == if i + 1 < |order| then order[i + 1] else NONE
  }

  predicate PrevAt(order: seq<nat>, prev: seq<int>, i: nat)
    requires i < |order| && order[i] < |prev|
  {
    prev[order[i]] == if i > 0 then order[i - 1] else NONE
  }

  ghost predicate NextSpells(order: seq<nat>, next: seq<int>)
    requires forall i :: 0 <= i < |order| ==> order[i] < |next|
  {
    forall i: nat {:trigger NextAt(order, next, i)} :: i < |order| ==> NextAt(order, next, i)
  }

  ghost predicate PrevSpells(order: seq<nat>, prev: seq<int>)
    requires forall i :: 0 <= i < |order| ==> order[i] < |prev|
  {
    forall i: nat {:trigger PrevAt(order, prev, i)} :: i < |order| ==> PrevAt(order, prev, i)
  }

  class KVBlockPool {
    const refCnt: array<nat>
    const blockHash: array<Option<Key>>
    const prevFree: array<int>
    const nextFree: array<int>
    const inFreeQueue: array<bool>
    var freeHead: int
    var freeTail: int
    var freeCount: nat
    var peakActive: int
    var evictedBlocks: nat
    var prefixCache: map<Key, seq<int>>
    ghost var order: seq<nat>

    ghost predicate Valid()
      reads this, refCnt, blockHash, prevFree, nextFree, inFreeQueue
    {
      && refCnt.Length == blockHash.Length == prevFree.Length == nextFree.Length == inFreeQueue.Length
      && prevFree != nextFree
      && Linked(order, prevFree[..], nextFree[..], inFreeQueue[..], freeHead, freeTail)
      && freeCount == |order|
      && PoolShape(Abs())
    }

    /** Everything a pool operation may change. */
    ghost function Frame(): set<object>
    {
      {this, refCnt, blockHash, prevFree, nextFree, inFreeQueue}
    }

    ghost function Abs(): Pool
      reads this, refCnt, blockHash
    {
      Pool(refCnt[..], blockHash[..], order, prefixCache, peakActive, evictedBlocks)
    }

    /** init_once: every block starts in the free queue, in index order. */
    constructor (n: nat)
      ensures Valid() && Abs() == EmptyPool(n) && refCnt.Length == n
      ensures fresh(refCnt) && fresh(blockHash) && fresh(prevFree) && fresh(nextFree) && fresh(inFreeQueue)
    {
      refCnt := new nat[n](_ => 0);
      blockHash := new Option<Key>[n](_ => None);
      prevFree := new int[n](_ => NONE);
      nextFree := new int[n](_ => NONE);
      inFreeQueue := new bool[n](_ => false);
      freeHead, freeTail, freeCount, peakActive, evictedBlocks := NONE, NONE, 0, 0, 0;
      prefixCache := map[];
      order := [];
      new;
      for i := 0 to n
        invariant Valid() && order == seq(i, (k: nat) => k)
        invariant refCnt[..] == seq(n, _ => 0) && blockHash[..] == seq(n, _ => None)
        invariant peakActive == 0 && evictedBlocks == 0 && prefixCache == map[]
        invariant fresh(refCnt) && fresh(blockHash) && fresh(prevFree) && fresh(nextFree) && fresh(inFreeQueue)
      {
        PushFreeTail(i);
      }
    }

    method PushFreeTail(b: nat)
      requires Valid() && b < refCnt.Length
      modifies this, prevFree, nextFree, inFreeQueue
      ensures Valid() && refCnt[..] == old(refCnt[..]) && blockHash[..] == old(blockHash[..])
      ensures Abs() == old(if refCnt[b] != 0 || b in order then Abs() else Abs().(free := order + [b]))
    {
      if inFreeQueue[b] || refCnt[b] != 0 { return; }
      ghost var was := order;
      prevFree[b] := freeTail;
      nextFree[b] := NONE;
      if freeTail != NONE { nextFree[freeTail] := b; } else { freeHead := b; }
      freeTail := b;
      inFreeQueue[b] := true;
      freeCount := freeCount + 1;
      order := was + [b];
      Appended(was, b, old(prevFree[..]), old(nextFree[..]), old(inFreeQueue[..]),
        prevFree[..], nextFree[..], inFreeQueue[..], old(freeHead), old(freeTail), freeHead, freeTail);
    }

    method RemoveFromFreeQueue(b: nat)
      requires Valid() && b < refCnt.Length
      modifies this, prevFree, nextFree, inFreeQueue
      ensures Valid() && refCnt[..] == old(refCnt[..]) && blockHash[..] == old(blockHash[..])
      ensures Abs() == old(Abs()).(free := Without(old(order), b))
    {
      hide NextSpells;
      hide PrevSpells;
      hide IndexIn;
      if !inFreeQueue[b] { return; }
      ghost var was := order;
      ghost var i := IndexIn(was, b);
      var before, after := prevFree[b], nextFree[b];
      Neighbours(was, b, prevFree[..], nextFree[..], inFreeQueue[..], freeHead, freeTail);
      if before != NONE { nextFree[before] := after; } else { freeHead := after; }
      if after != NONE { prevFree[after] := before; } else { freeTail := before; }
      prevFree[b] := NONE;
      nextFree[b] := NONE;
      inFreeQueue[b] := false;
      freeCount := freeCount - 1;
      order := Without(was, b);
      Removed(was, b, old(prevFree[..]), old(nextFree[..]), old(inFreeQueue[..]),
        prevFree[..], nextFree[..], inFreeQueue[..], old(freeHead), old(freeTail), freeHead, freeTail);
    }

    /** The oldest free block, or NONE. */
    method PopFreeHead() returns (b: int)
      requires Valid()
      modifies this, prevFree, nextFree, inFreeQueue
      ensures Valid() && refCnt[..] == old(refCnt[..]) && blockHash[..] == old(blockHash[..])
      ensures old(order) == [] ==> b == NONE && Abs() == old(Abs())
      ensures old(order) != [] ==> b == old(order[0]) && Abs() == old(Abs()).(free := old(order[1..]))
    {
      b := freeHead;
      if b == NONE { return; }
      FirstOut(order);
      RemoveFromFreeQueue(b);
    }

    function ActiveBlocks(): int
      reads this, refCnt
    {
      refCnt.Length - freeCount
    }

    method UpdatePeak()
      requires Valid()
      modifies this
      ensures Valid() && refCnt[..] == old(refCnt[..]) && Abs() == Raise(old(Abs()))
    {
      if peakActive < ActiveBlocks() { peakActive := ActiveBlocks(); }
    }

    /** prefix_cache_remove_block_nolock */
    method RemoveHash(b: nat)
      requires Valid() && b < refCnt.Length
      modifies this, blockHash
      ensures Valid() && Abs() == Unhash(old(Abs()), b)
    {
      if blockHash[b].None? { return; }
      var h := blockHash[b].value;
      if h in prefixCache {
        var ids := prefixCache[h];
        var hasAny := false;
        for i := 0 to |ids|
          invariant |ids| == |prefixCache[h]|
          invariant forall k :: 0 <= k < i ==> ids[k] == Blank(prefixCache[h], b)[k]
          invariant forall k :: i <= k < |ids| ==> ids[k] == prefixCache[h][k]
          invariant hasAny <==> exists k :: 0 <= k < i && ids[k] >= 0
          invariant h in prefixCache && Valid() && Abs() == old(Abs())
        {
          if ids[i] == b { ids := ids[i := -1]; }
          if ids[i] >= 0 { hasAny := true; }
        }
        assert ids == Blank(prefixCache[h], b);
        prefixCache := if hasAny then prefixCache[h := ids] else prefixCache - {h};
      }
      blockHash[b] := None;
      evictedBlocks := evictedBlocks + 1;
    }

    /** kv_acquire_block_nolock; NONE when the pool is exhausted. */
    method AcquireBlock() returns (b: int)
      requires Valid()
      modifies this, refCnt, blockHash, prevFree, nextFree, inFreeQueue
      ensures Valid()
      ensures match Acquire(old(Abs()))
        case None => b == NONE && Abs() == old(Abs())
        case Some(got) => b == got.1 && Abs() == got.0
    {
      b := PopFreeHead();
      if b == NONE { return; }
      ghost var popped := Abs();
      RemoveHash(b);
      assert Abs() == Unhash(popped, b);
      refCnt[b] := 1;
      UpdatePeak();
    }

    /** kv_retain_block_nolock; false for an id that is no block. */
    method RetainBlock(b: int) returns (ok: bool)
      requires Valid()
      modifies this, refCnt, prevFree, nextFree, inFreeQueue
      ensures Valid() && blockHash[..] == old(blockHash[..])
      ensures ok <==> 0 <= b < refCnt.Length
      ensures Abs() == if ok then Retain(old(Abs()), b) else old(Abs())
    {
      hide Linked;
      hide Without;
      ok := 0 <= b < refCnt.Length;
      if !ok { return; }
      if refCnt[b] == 0 { RemoveFromFreeQueue(b); }
      refCnt[b] := refCnt[b] + 1;
      assert refCnt[..] == old(refCnt[..])[b := old(refCnt[b]) + 1];
      UpdatePeak();
    }

    /** kv_release_block_nolock; false on a bad id or on underflow. */
    method ReleaseBlock(b: int) returns (ok: bool)
      requires Valid()
      modifies this, refCnt, prevFree, nextFree, inFreeQueue
      ensures Valid() && blockHash[..] == old(blockHash[..])
      ensures ok <==> 0 <= b < refCnt.Length && Release(old(Abs()), b).Some?
      ensures Abs() == if ok then Release(old(Abs()), b).value else old(Abs())
    {
      ok := 0 <= b < refCnt.Length && refCnt[b] > 0;
      if !ok { return; }
      refCnt[b] := refCnt[b] - 1;
      if refCnt[b] == 0 { PushFreeTail(b); }
    }

    /** prefix_cache_clear */
    method ClearPrefixCache()
      requires Valid()
      modifies this, blockHash
      ensures Valid() && Abs() == ClearCache(old(Abs()))
    {
      prefixCache := map[];
      for i := 0 to blockHash.Length
        invariant Valid() && prefixCache == map[] && refCnt[..] == old(refCnt[..]) && order == old(order)
        invariant peakActive == old(peakActive) && evictedBlocks == old(evictedBlocks)
        invariant forall k :: 0 <= k < i ==> blockHash[k] == None
      {
        blockHash[i] := None;
      }
      assert blockHash[..] == seq(blockHash.Length, _ => None);
    }
  }

  /** Taking out the first element leaves the rest. */
  lemma FirstOut(free: seq<nat>)
    requires free != []
    ensures Without(free, free[0]) == free[1..]
  {
    assert IndexIn(free, free[0]) == 0;
  }

  lemma Appended(was: seq<nat>, b: nat, p: seq<int>, n: seq<int>, q: seq<bool>, p': seq<int>, n': seq<int>,
                 q': seq<bool>, head: int, tail: int, head': int, tail': int)
    requires Linked(was, p, n, q, head, tail) && b < |q| && b !in was
    requires |p'| == |n'| == |q'| == |q|
    requires p' == p[b := tail]
    requires n' == if tail == NONE then n[b := NONE] else n[b := NONE][tail := b]
    requires q' == q[b := true] && tail' == b && head' == if tail == NONE then b else head
    ensures Linked(was + [b], p', n', q', head', tail')
  {
    var order := was + [b];
    forall c: nat | c < |q'| ensures q'[c] <==> c in order {}
    if was != [] { assert tail == was[|was| - 1]; assert was[|was| - 1] in was; }
    forall i: nat | i < |order| ensures NextAt(order, n', i) && PrevAt(order, p', i) {
      if i < |was| {
        assert was[i] in was;
        assert NextAt(was, n, i) && PrevAt(was, p, i);
      }
    }
  }

  /** What stands on either side of a queued block. */
  lemma Neighbours(was: seq<nat>, b: nat, p: seq<int>, n: seq<int>, q: seq<bool>, head: int, tail: int)
    requires Linked(was, p, n, q, head, tail) && b < |q| && b in was
    ensures var i := IndexIn(was, b);
      && i < |was| && was[i] == b
      && p[b] == (if i > 0 then was[i - 1] else NONE)
      && n[b] == (if i + 1 < |was| then was[i + 1] else NONE)
      && (p[b] != NONE ==> 0 <= p[b] < |q| && p[b] != b)
      && (n[b] != NONE ==> 0 <= n[b] < |q| && n[b] != b)
  {
    var i := IndexIn(was, b);
    assert NextAt(was, n, i) && PrevAt(was, p, i);
  }

  lemma WithoutAt(was: seq<nat>, b: nat)
    requires b in was && Distinct(was)
    ensures var i := IndexIn(was, b); var order := Without(was, b);
      && i < |was| && |order| == |was| - 1
      && forall k :: 0 <= k < |order| ==> order[k] == (if k < i then was[k] else was[k + 1]) && order[k] != b
  {
    hide IndexIn;
    var i := IndexIn(was, b);
    assert Without(was, b) == was[..i] + was[i + 1..];
  }

  function Cut(was: seq<nat>, i: nat): seq<nat>
    requires i < |was|
  {
    was[..i] + was[i + 1..]
  }

  function Skip(i: nat, k: nat): nat { if k < i then k else k + 1 }

  /** Unlinking position i makes its predecessor point past it. */
  function Bridged(was: seq<nat>, i: nat, next: seq<int>): seq<int>
    requires i < |was| && (forall k :: 0 <= k < |was| ==> was[k] < |next|)
  {
    var after := if i + 1 < |was| then was[i + 1] else NONE;
    (if i > 0 then next[was[i - 1] := after] else next)[was[i] := NONE]
  }

  function BridgedBack(was: seq<nat>, i: nat, prev: seq<int>): seq<int>
    requires i < |was| && (forall k :: 0 <= k < |was| ==> was[k] < |prev|)
  {
    var before := if i > 0 then was[i - 1] else NONE;
    (if i + 1 < |was| then prev[was[i + 1] := before] else prev)[was[i] := NONE]
  }

  lemma CutAt(was: seq<nat>, i: nat, k: nat)
    requires i < |was| && k < |was| - 1
    ensures Cut(was, i)[k] == was[Skip(i, k)]
  {
  }

  lemma BridgedAt(was: seq<nat>, i: nat, next: seq<int>, k: nat)
    requires Distinct(was) && i < |was| && (forall j :: 0 <= j < |was| ==> was[j] < |next|)
    requires k < |was| - 1 && NextAt(was, next, Skip(i, k))
    ensures Cut(was, i)[k] < |Bridged(was, i, next)| && NextAt(Cut(was, i), Bridged(was, i, next), k)
  {
    var j := Skip(i, k);
    CutAt(was, i, k);
    assert was[j] != was[i];
    if i > 0 && j != i - 1 { assert was[j] != was[i - 1]; }
    if k + 1 < |was| - 1 { CutAt(was, i, k + 1); }
  }

  lemma BridgedBackAt(was: seq<nat>, i: nat, prev: seq<int>, k: nat)
    requires Distinct(was) && i < |was| && (forall j :: 0 <= j < |was| ==> was[j] < |prev|)
    requires k < |was| - 1 && PrevAt(was, prev, Skip(i, k))
    ensures Cut(was, i)[k] < |BridgedBack(was, i, prev)| && PrevAt(Cut(was, i), BridgedBack(was, i, prev), k)
  {
    var j := Skip(i, k);
    CutAt(was, i, k);
    assert was[j] != was[i];
    if i + 1 < |was| && j != i + 1 { assert was[j] != was[i + 1]; }
    if k > 0 { CutAt(was, i, k - 1); }
  }

  lemma Relinked(was: seq<nat>, i: nat, prev: seq<int>, next: seq<int>)
    requires Distinct(was) && i < |was| && |prev| == |next| && (forall k :: 0 <= k < |was| ==> was[k] < |next|)
    requires NextSpells(was, next) && PrevSpells(was, prev)
    ensures forall k :: 0 <= k < |Cut(was, i)| ==> Cut(was, i)[k] < |next|
    ensures NextSpells(Cut(was, i), Bridged(was, i, next)) && PrevSpells(Cut(was, i), BridgedBack(was, i, prev))
  {
    forall k: nat | k < |Cut(was, i)|
      ensures Cut(was, i)[k] < |next| && NextAt(Cut(was, i), Bridged(was, i, next), k)
      ensures PrevAt(Cut(was, i), BridgedBack(was, i, prev), k)
    {
      assert NextAt(was, next, Skip(i, k)) && PrevAt(was, prev, Skip(i, k));
      BridgedAt(was, i, next, k);
      BridgedBackAt(was, i, prev, k);
    }
  }

  lemma Removed(was: seq<nat>, b: nat, p: seq<int>, n: seq<int>, q: seq<bool>, p': seq<int>, n': seq<int>,
                q': seq<bool>, head: int, tail: int, head': int, tail': int)
    requires Linked(was, p, n, q, head, tail) && b < |q| && b in was
    requires |p'| == |n'| == |q'| == |q| && q' == q[b := false]
    requires var before, after := p[b], n[b];
      && (before != NONE ==> 0 <= before < |q|) && (after != NONE ==> 0 <= after < |q|)
      && n' == (if before == NONE then n else n[before := after])[b := NONE]
      && p' == (if after == NONE then p else p[after := before])[b := NONE]
      && head' == (if before == NONE then after else head) && tail' == (if after == NONE then before else tail)
    ensures Linked(Without(was, b), p', n', q', head', tail')
  {
    hide NextSpells;
    hide PrevSpells;
    hide IndexIn;
    Neighbours(was, b, p, n, q, head, tail);
    WithoutFacts(was, b);
    WithoutAt(was, b);
    var i := IndexIn(was, b);
    Relinked(was, i, p, n);
    assert Without(was, b) == Cut(was, i);
  }
}
