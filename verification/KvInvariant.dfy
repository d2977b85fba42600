/** What every KV operation keeps, whether it succeeds or throws half way: each block's
    count equals the page-table slots that name it, a block is free exactly when its
    count is zero, and block hashes agree with the prefix cache. */
module KvInvariant {
  import opened Wrappers
  import opened PrefixKeys
  import opened KvModel

  predicate Distinct(s: seq<nat>) {
    forall i, j :: 0 <= i < j < |s| ==> s[i] != s[j]
  }

  /** `names` holds one copy of a block id per page-table slot naming it, over all handles. */
  ghost predicate Counted(p: Pool, names: multiset<int>) {
    && (forall b :: 0 <= b < |p.ref| ==> p.ref[b] == names[b])
    && Distinct(p.free)
    && (forall b :: 0 <= b < |p.ref| ==> (b in p.free <==> p.ref[b] == 0))
  }

  /** Block hashes and cache entries name each other, and no entry is all absent. */
  ghost predicate Indexed(p: Pool)
    requires PoolShape(p)
  {
    && (forall b :: 0 <= b < |p.hash| && p.hash[b].Some? ==>
          p.hash[b].value in p.cache && (b as int) in p.cache[p.hash[b].value])
    && (forall k, i :: k in p.cache && 0 <= i < |p.cache[k]| && p.cache[k][i] >= 0 ==>
          p.hash[p.cache[k][i]] == Some(k))
    && (forall k :: k in p.cache ==> AnyPage(p.cache[k]))
  }

  ghost predicate PoolOk(p: Pool, names: multiset<int>) {
    PoolShape(p) && Counted(p, names) && Indexed(p) && ActiveCount(p) <= p.peak
  }

  // ---- blocks ----

  lemma EmptyOk(n: nat)
    ensures PoolOk(EmptyPool(n), multiset{})
  {
    forall b | 0 <= b < n ensures b in EmptyPool(n).free { assert EmptyPool(n).free[b] == b; }
  }

  lemma UnhashIndexed(p: Pool, b: nat)
    requires PoolShape(p) && Indexed(p) && b < |p.ref|
    ensures Indexed(Unhash(p, b)) && Unhash(p, b).hash[b] == None
    ensures forall c :: 0 <= c < |p.hash| && c != b ==> Unhash(p, b).hash[c] == p.hash[c]
  {
    if p.hash[b].Some? {
      var h := p.hash[b].value;
      var q := Unhash(p, b);
      var ids := Blank(p.cache[h], b);
      forall c: nat | c < |q.hash| && q.hash[c].Some?
        ensures q.hash[c].value in q.cache && (c as int) in q.cache[q.hash[c].value]
      {
        if q.hash[c].value == h {
          var i :| 0 <= i < |p.cache[h]| && p.cache[h][i] == c;
          assert ids[i] == c;
        }
      }
    }
  }

  lemma AcquireOk(p: Pool, names: multiset<int>)
    requires PoolOk(p, names) && p.free != []
    ensures var got := Acquire(p).value;
      PoolOk(got.0, names + multiset{got.1 as int}) && got.0.hash[got.1] == None && p.ref[got.1] == 0
  {
    var b := p.free[0];
    var q := p.(free := p.free[1..]);
    UnhashIndexed(q, b);
    assert b in p.free;
    forall c: nat | c < |p.ref| ensures c in p.free[1..] <==> c in p.free && c != b {
      if c in p.free && c != b { var i :| 0 <= i < |p.free| && p.free[i] == c; assert p.free[1..][i - 1] == c; }
    }
  }

  lemma WithoutFacts(free: seq<nat>, b: nat)
    requires Distinct(free)
    ensures Distinct(Without(free, b))
    ensures forall c :: c in Without(free, b) <==> c in free && c != b
    ensures |Without(free, b)| == |free| - (if b in free then 1 else 0)
  {
    var i := IndexIn(free, b);
    if i < |free| {
      var r := free[..i] + free[i + 1..];
      forall c | c in free && c != b ensures c in r {
        var j :| 0 <= j < |free| && free[j] == c;
        assert r[if j < i then j else j - 1] == c;
      }
    }
  }

  lemma RetainOk(p: Pool, names: multiset<int>, b: nat)
    requires PoolOk(p, names) && b < |p.ref|
    ensures PoolOk(Retain(p, b), names + multiset{b as int}) && Retain(p, b).hash == p.hash
  {
    WithoutFacts(p.free, b);
  }

  lemma ReleaseOk(p: Pool, names: multiset<int>, b: nat)
    requires PoolOk(p, names) && b < |p.ref| && b in names
    ensures Release(p, b).Some? && PoolOk(Release(p, b).value, names - multiset{b as int})
    ensures Release(p, b).value.hash == p.hash && Release(p, b).value.cache == p.cache
  {
  }

  // ---- slots ----

  /** The invariant of one handle beside whatever the other handles name. */
  ghost predicate SysOk(s: Sys, others: multiset<int>) {
    SysShape(s) && PoolOk(s.pool, others + multiset(s.h.table))
  }

  /** A run never gets to release a block nobody holds. */
  ghost predicate Kept(s: Sys, t: Sys, others: multiset<int>) {
    SysOk(t, others) && SameFrame(s, t) && (t.status == Underflow ==> s.status == Underflow)
  }

  lemma Swap(table: seq<int>, i: nat, v: int, others: multiset<int>)
    requires i < |table|
    ensures others + multiset(table[i := v]) == others + multiset(table) - multiset{table[i]} + multiset{v}
  {
  }

  lemma DropSlotOk(s: Sys, others: multiset<int>, i: nat)
    requires SysOk(s, others) && i < |s.h.table|
    ensures Kept(s, DropSlot(s, i), others)
    ensures s.status == Done ==> DropSlot(s, i).status == Done && DropSlot(s, i).h.table == s.h.table[i := -1]
    ensures DropSlot(s, i).pool.hash == s.pool.hash && DropSlot(s, i).pool.cache == s.pool.cache
  {
    hide Indexed;
    if s.status == Done && s.h.table[i] >= 0 {
      var b := s.h.table[i];
      var names := others + multiset(s.h.table);
      assert b in multiset(s.h.table);
      ReleaseOk(s.pool, names, b);
      Swap(s.h.table, i, -1, others);
      AbsentName(Release(s.pool, b).value, names - multiset{b});
    } else if s.status == Done {
      assert s.h.table[i := -1] == s.h.table;
    }
  }

  /** -1 names no block. */
  lemma AbsentName(p: Pool, names: multiset<int>)
    requires PoolOk(p, names)
    ensures PoolOk(p, names + multiset{-1}) && PoolOk(p, names - multiset{-1})
  {
    hide Indexed;
  }

  lemma FillSlotOk(s: Sys, others: multiset<int>, i: nat)
    requires SysOk(s, others) && s.status == Done && i < |s.h.table| && s.h.table[i] == -1 && s.pool.free != []
    ensures var got := Acquire(s.pool).value; Kept(s, Put(s, got.0, i, got.1), others)
  {
    hide Indexed;
    var got := Acquire(s.pool).value;
    var names := others + multiset(s.h.table);
    AcquireOk(s.pool, names);
    Swap(s.h.table, i, got.1, others);
    AbsentName(got.0, names + multiset{got.1 as int});
    assert names - multiset{-1} + multiset{got.1 as int} == names + multiset{got.1 as int} - multiset{-1};
  }

  lemma TakeSlotOk(s: Sys, others: multiset<int>, i: nat, id: nat)
    requires SysOk(s, others) && i < |s.h.table| && s.h.table[i] == -1 && id < |s.pool.ref|
    ensures Kept(s, Put(s, Retain(s.pool, id), i, id), others)
  {
    hide Indexed;
    var names := others + multiset(s.h.table);
    RetainOk(s.pool, names, id);
    Swap(s.h.table, i, id, others);
    AbsentName(Retain(s.pool, id), names + multiset{id as int});
    assert -1 in multiset(s.h.table);
    assert names - multiset{-1} + multiset{id as int} == names + multiset{id as int} - multiset{-1};
  }

  lemma AttachSlotOk(s: Sys, others: multiset<int>, i: nat, id: int)
    requires SysOk(s, others) && i < |s.h.table| && -1 <= id < |s.pool.ref|
    ensures Kept(s, AttachSlot(s, i, id), others)
    ensures s.status == Done ==> AttachSlot(s, i, id).status == Done
    ensures AttachSlot(s, i, id).pool.hash == s.pool.hash && AttachSlot(s, i, id).pool.cache == s.pool.cache
  {
    hide Indexed;
    hide Counted;
    DropSlotOk(s, others, i);
    if s.status == Done && id >= 0 && s.h.table[i] != id { TakeSlotOk(DropSlot(s, i), others, i, id); }
  }
}
