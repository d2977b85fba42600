/** Chained prefix keys (prefill/torch_prefill.py). A key names a block of tokens and,
    through its parent, every block before it; the digest is taken to be injective. */
module PrefixKeys {
  import opened Arithmetic
  datatype Key = Seed | Chain(parent: Key, tokens: seq<int>)

  /** How many full blocks of a prompt may be shared: the last token always stays behind. */
  function Cacheable(tokens: seq<int>, block: nat): (n: nat)
    requires block >= 1
    ensures tokens != [] ==> n * block < |tokens|
    ensures tokens != [] ==> |tokens| <= n * block + block
  {
    if |tokens| == 0 then 0 else (|tokens| - 1) / block
  }

  /** The key of the first n blocks of a token sequence. */
  function KeyOf(tokens: seq<int>, block: nat, n: nat): Key
    requires n * block <= |tokens|
  {
    if n == 0 then Seed else
    MulStep(n - 1, block);
    Chain(KeyOf(tokens, block, n - 1), tokens[(n - 1) * block..(n - 1) * block + block])
  }

  /** The tokens that a key stands for. */
  function Spelled(key: Key): seq<int> {
    match key
    case Seed => []
    case Chain(parent, tokens) => Spelled(parent) + tokens
  }

  /** Round trip: the key of n blocks spells exactly the first n blocks. */
  lemma {:induction false} KeySpells(tokens: seq<int>, block: nat, n: nat)
    requires n * block <= |tokens|
    ensures Spelled(KeyOf(tokens, block, n)) == tokens[..n * block]
  {
    if n > 0 {
      MulStep(n - 1, block);
      KeySpells(tokens, block, n - 1);
    }
  }

  /** Two prompts share a key exactly when they agree on everything up to that block. */
  lemma {:induction false} SameKeyIffSamePrefix(a: seq<int>, b: seq<int>, block: nat, m: nat, n: nat)
    requires block >= 1 && m * block <= |a| && n * block <= |b|
    ensures KeyOf(a, block, m) == KeyOf(b, block, n) <==> m == n && a[..m * block] == b[..n * block]
  {
    if KeyOf(a, block, m) == KeyOf(b, block, n) {
      KeySpells(a, block, m);
      KeySpells(b, block, n);
      SameLength(m, n, block);
    } else if m == n && a[..m * block] == b[..n * block] {
      KeyOfPrefix(a, block, m, m * block);
      KeyOfPrefix(b, block, n, n * block);
    }
  }

  lemma SameLength(m: nat, n: nat, block: nat)
    requires block >= 1 && m * block == n * block
    ensures m == n
  {
    if m < n { MulApart(m, n, block); }
    if n < m { MulApart(n, m, block); }
  }

  /** A key does not look past its own blocks. */
  lemma {:induction false} KeyOfPrefix(tokens: seq<int>, block: nat, n: nat, cut: nat)
    requires n * block <= cut <= |tokens|
    ensures KeyOf(tokens[..cut], block, n) == KeyOf(tokens, block, n)
  {
    if n > 0 {
      MulStep(n - 1, block);
      KeyOfPrefix(tokens, block, n - 1, cut);
      assert tokens[..cut][(n - 1) * block..(n - 1) * block + block] == tokens[(n - 1) * block..(n - 1) * block + block];
    }
  }

  /** `key` names the first n blocks, and a token is left after them. */
  predicate IsKey(tokens: seq<int>, block: nat, n: nat, key: Key) {
    n * block < |tokens| && key == KeyOf(tokens, block, n)
  }

  /** nmc_prefix_block_keys: one key per full block, each chained to the one before. */
  method PrefixBlockKeys(tokens: seq<int>, block: nat) returns (keys: seq<Key>)
    requires block >= 1
    ensures |keys| == Cacheable(tokens, block)
    ensures forall i :: 0 <= i < |keys| ==> IsKey(tokens, block, i + 1, keys[i])
  {
    var parent := Seed;
    keys := [];
    for i := 0 to Cacheable(tokens, block)
      invariant |keys| == i && (tokens != [] ==> IsKey(tokens, block, i, parent))
      invariant forall k :: 0 <= k < i ==> IsKey(tokens, block, k + 1, keys[k])
    {
      var start := i * block;
      MulApart(i, Cacheable(tokens, block), block);
      MulStep(i, block);
      parent := Chain(parent, tokens[start..start + block]);
      keys := keys + [parent];
    }
  }

}
