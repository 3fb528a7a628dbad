/**
 The cache manager as the program writes it: an object whose methods change the free list, the
 reference counts, the hash index and the LRU list in place. Every method is proved to compute the
 corresponding function of `BlockPool`, to keep the pool invariant for the tables that exist, and
 never to index outside its vectors. No assumption about hash collisions is needed here.
 */
module KVCacheManagers {
  import opened Lists
  import opened Paging
  import opened BlockPool

  class KVCacheManager {
    const c: KvConfig
    var free: seq<Block>
    var refs: seq<nat>
    var hashToBlock: map<Hash, Block>
    var blockHash: seq<Hash>
    var lru: seq<Block>                       // front = least recently released
    ghost var labels: map<Block, seq<Token>>  // what each published block was published as

    ghost function State(): Pool
      reads this
    {
      Pool(free, refs, hashToBlock, blockHash, lru, labels)
    }

    /** `owned` is the multiset of all entries of all block tables. */
    ghost predicate Valid(owned: multiset<Block>)
      reads this
    {
      ValidConfig(c) && |refs| == |blockHash| == c.numBlocks && PoolInv(c, State(), owned)
    }

    constructor (config: KvConfig)
      requires ValidConfig(config)
      ensures c == config && State() == FreshPool(config) && Valid(multiset{})
    {
      c := config;
      refs, blockHash := seq(config.numBlocks, _ => 0), seq(config.numBlocks, _ => 0);
      hashToBlock, lru, labels := map[], [], map[];
      var out: seq<Block> := [];
      var b: int := config.numBlocks - 1;
      while b >= 0
        invariant -1 <= b < config.numBlocks
        invariant out == Countdown(config.numBlocks)[..config.numBlocks - 1 - b]
      {
        out := out + [b];
        b := b - 1;
      }
      free := out;
      new;
      FreshPoolInv(config);
    }

    /** The constructor throws on a non-positive block count or block size. */
    static method Create(numBlocks: int, blockSize: int, caching: bool, mix: (Hash, seq<Token>) -> Hash) returns (r: Option<KVCacheManager>)
      ensures r.None? <==> numBlocks <= 0 || blockSize <= 0
      ensures r.Some? ==> fresh(r.value) && r.value.c == KvConfig(numBlocks, blockSize, caching, mix) && r.value.State() == FreshPool(r.value.c) && r.value.Valid(multiset{})
    {
      if numBlocks <= 0 || blockSize <= 0 {
        return None;
      }
      var kv := new KVCacheManager(KvConfig(numBlocks, blockSize, caching, mix));
      return Some(kv);
    }

    method NumAvailableBlocks() returns (n: nat)
      ensures n == Available(State())
    {
      n := |free| + |lru|;
    }

    /** Used blocks, computed by subtraction, are the distinct blocks that some table holds. */
    method NumUsedBlocks(ghost owned: multiset<Block>, ghost used: seq<Block>) returns (n: int)
      requires Valid(owned) && NoDup(used) && forall b :: b in used <==> b in owned
      ensures n == |used|
    {
      n := c.numBlocks - (|free| + |lru|);
      Partition(c, State(), owned, used);
    }

    /** The free list, else the block at the front of the LRU list, which leaves the hash index. */
    method TakeBlock(ghost owned: multiset<Block>) returns (r: Option<Block>)
      requires Valid(owned)
      modifies this
      ensures (State(), r) == BlockPool.TakeBlock(old(State()))
      ensures r.None? <==> Available(old(State())) == 0
      ensures |refs| == |blockHash| == c.numBlocks
      ensures r.Some? ==> r.value < c.numBlocks && TookBlock(c, old(State()), owned, Own(State(), r.value), r.value)
    {
      hide PoolInv;
      TakeOwnKeepsInv(c, State(), owned);
      if free != [] {
        r := Some(free[|free| - 1]);
        free := free[..|free| - 1];
        return;
      }
      if lru == [] {
        return None;
      }
      var b := lru[0];
      lru := lru[1..];
      hashToBlock := hashToBlock - {blockHash[b]};
      blockHash := blockHash[b := 0];
      labels := labels - {b};
      r := Some(b);
    }

    /** Take a block out of the LRU list, if it is there. */
    method TouchCached(b: Block)
      modifies this`lru
      ensures lru == Without(old(lru), b)
    {
      var i := 0;
      while i < |lru| && lru[i] != b
        invariant i <= |lru| && b !in lru[..i]
      {
        i := i + 1;
      }
      if i < |lru| {
        WithoutAt(lru, b, i);
        lru := lru[..i] + lru[i + 1..];
      } else {
        WithoutAbsent(lru, b);
      }
    }

    method ReleaseBlock(b: Block, hash: Hash)
      requires b < |refs| == |blockHash| && refs[b] > 0
      modifies this
      ensures State() == BlockPool.ReleaseBlock(c, old(State()), b, hash)
      ensures |refs| == old(|refs|) && |blockHash| == old(|blockHash|)
    {
      refs := refs[b := refs[b] - 1];
      if refs[b] > 0 {
        return;
      }
      if c.caching && hash != 0 && blockHash[b] == hash {
        lru := lru + [b];
      } else {
        if blockHash[b] != 0 {
          hashToBlock := hashToBlock - {blockHash[b]};
          blockHash := blockHash[b := 0];
          labels := labels - {b};
        }
        free := free + [b];
      }
    }

    /** Publish full block `i` of a table unless its chain is broken or another block has its content. */
    method HashFullBlock(bt: Table, i: nat, tokens: seq<Token>, ghost owned: multiset<Block>) returns (bt1: Table)
      requires Valid(owned) && i < |bt.blocks| == |bt.hashes| && (i + 1) * c.blockSize <= |tokens|
      requires bt.blocks[i] in owned && Get(blockHash, bt.blocks[i]) == 0
      modifies this
      ensures (State(), bt1) == BlockPool.HashFullBlock(c, old(State()), bt, i, tokens)
      ensures bt1 == bt.(hashes := bt1.hashes) && |bt1.hashes| == |bt.hashes|
      ensures Valid(owned) && forall b: nat :: b != bt.blocks[i] ==> Get(blockHash, b) == Get(old(blockHash), b)
    {
      hide PoolInv;
      bt1 := bt;
      if !c.caching {
        return;
      }
      var prev := if i == 0 then 0 else bt.hashes[i - 1];
      if i > 0 && prev == 0 {
        return;
      }
      SpanIsMul(c.blockSize, i);
      SpanIsMul(c.blockSize, i + 1);
      SpanMono(c.blockSize, i, i + 1);
      var h := HashBlock(c, prev, tokens[i * c.blockSize..(i + 1) * c.blockSize]);
      var b := bt.blocks[i];
      if h in hashToBlock {
        return;
      }
      OwnedInRange(c, State(), owned, b);
      PublishKeepsInv(c, State(), owned, b, h, PrefixTo(c, tokens, i + 1));
      hashToBlock := hashToBlock[h := b];
      blockHash := blockHash[b := h];
      labels := labels[b := PrefixTo(c, tokens, i + 1)];
      bt1 := bt.(hashes := bt.hashes[i := h]);
    }

    /** How many leading tokens are in published blocks. */
    method LookupCachedPrefix(tokens: seq<Token>) returns (n: nat)
      requires ValidConfig(c)
      ensures n == BlockPool.LookupCachedPrefix(c, State(), tokens)
    {
      if !c.caching {
        return 0;
      }
      var full := |tokens| / c.blockSize;
      QuotIsDiv(c.blockSize, |tokens|);
      var prev, hit, i := 0, 0, 0;
      while i < full
        invariant i == hit <= full && prev == Chain(c, tokens, i)
        invariant hit + Walk(c, State(), tokens, i) == Walk(c, State(), tokens, 0)
      {
        var h := NextHash(prev, tokens, i);
        if h !in hashToBlock {
          break;
        }
        hit, prev, i := hit + 1, h, i + 1;
      }
      SpanIsMul(c.blockSize, hit);
      return hit * c.blockSize;
    }

    /** The chained hash of block `i`, computed from that of its predecessor. */
    method NextHash(prev: Hash, tokens: seq<Token>, i: nat) returns (h: Hash)
      requires ValidConfig(c) && i < Quot(c.blockSize, |tokens|) && prev == Chain(c, tokens, i)
      ensures h == Chain(c, tokens, i + 1)
    {
      FullBlocks(c.blockSize, |tokens|, i + 1);
      SpanIsMul(c.blockSize, i);
      SpanIsMul(c.blockSize, i + 1);
      SpanMono(c.blockSize, i, i + 1);
      h := HashBlock(c, prev, tokens[i * c.blockSize..(i + 1) * c.blockSize]);
    }

    /** The published blocks of the prompt's leading full blocks, with their hashes. */
    method FindHits(tokens: seq<Token>, ghost owned: multiset<Block>) returns (hits: seq<(Hash, Block)>)
      requires Valid(owned)
      ensures |hits| == CachedBlocks(c, State(), tokens) <= Quot(c.blockSize, |tokens|)
      ensures forall i :: 0 <= i < |hits| ==> hits[i].0 == Chain(c, tokens, i + 1) && hits[i].1 == HitBlock(c, State(), tokens, i)
      ensures forall i :: 0 <= i < |hits| ==> hits[i].1 < c.numBlocks && Get(blockHash, hits[i].1) != 0
    {
      hide PoolInv, Span, Piece, HashBlock;
      hits := [];
      if !c.caching {
        return;
      }
      var full := |tokens| / c.blockSize;
      QuotIsDiv(c.blockSize, |tokens|);
      var prev, i := 0, 0;
      while i < full
        invariant i == |hits| <= full && prev == Chain(c, tokens, i)
        invariant |hits| + Walk(c, State(), tokens, i) == Walk(c, State(), tokens, 0)
        invariant forall k :: 0 <= k < |hits| ==> hits[k].0 == Chain(c, tokens, k + 1) && hits[k].1 == HitBlock(c, State(), tokens, k)
        invariant forall k :: 0 <= k < |hits| ==> hits[k].1 < c.numBlocks && Get(blockHash, hits[k].1) != 0
      {
        var h := NextHash(prev, tokens, i);
        if h !in hashToBlock {
          break;
        }
        HitIsPublished(c, State(), owned, h);
        hits, prev, i := hits + [(h, hashToBlock[h])], h, i + 1;
      }
    }

    method CountIdle(hits: seq<(Hash, Block)>, tokens: seq<Token>) returns (n: nat)
      requires forall i :: 0 <= i < |hits| ==> hits[i].1 == HitBlock(c, State(), tokens, i) && hits[i].1 < |refs|
      ensures n == LruHits(c, State(), tokens, |hits|)
    {
      n := 0;
      for i := 0 to |hits|
        invariant n == LruHits(c, State(), tokens, i)
      {
        if refs[hits[i].1] == 0 {
          n := n + 1;
        }
      }
    }

    /** Add an owner to a published block. */
    method Reuse(b: Block, ghost owned: multiset<Block>)
      requires Valid(owned) && b < c.numBlocks && Get(blockHash, b) != 0
      modifies this
      ensures State() == Share(old(State()), b) && Valid(owned + multiset{b}) && blockHash == old(blockHash)
      ensures forall x: nat :: Get(refs, x) >= Get(old(refs), x)
      ensures Available(State()) == Available(old(State())) - if Get(old(refs), b) == 0 then 1 else 0
    {
      hide PoolInv, Available, Without;
      ShareKeepsInv(c, State(), owned, b);
      TouchCached(b);
      refs := refs[b := refs[b] + 1];
    }

    /** Add an owner to every hit. Even if two hits were the same block, at most the idle ones leave the pool. */
    method AdoptHits(hits: seq<(Hash, Block)>, tokens: seq<Token>, ghost owned: multiset<Block>) returns (bt: Table)
      requires Valid(owned)
      requires forall i :: 0 <= i < |hits| ==> hits[i].0 == Chain(c, tokens, i + 1) && hits[i].1 == HitBlock(c, State(), tokens, i)
      requires forall i :: 0 <= i < |hits| ==> hits[i].1 < c.numBlocks && Get(blockHash, hits[i].1) != 0
      modifies this
      ensures (State(), bt.(committed := |hits|)) == BlockPool.AdoptHits(c, old(State()), tokens, |hits|)
      ensures bt.committed == 0 && |bt.blocks| == |hits| && Valid(owned + multiset(bt.blocks))
      ensures Available(State()) >= Available(old(State())) - LruHits(c, old(State()), tokens, |hits|)
    {
      hide PoolInv, Available, Chain, HitBlock, Share, BlockPool.AdoptHits, LruHits;
      bt := EmptyTable;
      AdoptStart(c, State(), tokens);
      ghost var p := State();
      assert owned + multiset(bt.blocks) == owned;
      for i := 0 to |hits|
        invariant (State(), bt.(committed := i)) == BlockPool.AdoptHits(c, p, tokens, i)
        invariant bt.committed == 0 && |bt.blocks| == i && Valid(owned + multiset(bt.blocks))
        invariant blockHash == old(blockHash) && forall b: nat :: Get(refs, b) >= Get(p.refs, b)
        invariant Available(State()) >= Available(p) - LruHits(c, p, tokens, i)
      {
        var (h, b) := hits[i];
        ghost var before := owned + multiset(bt.blocks);
        AdoptStep(c, p, tokens, i);
        Reuse(b, before);
        assert before + multiset{b} == owned + multiset(bt.blocks + [b]);
        bt := Append(bt, b, h);
      }
    }

    /** Take `m` fresh blocks; the caller has made sure that there are so many. */
    method TakeFresh(bt0: Table, m: nat, ghost owned: multiset<Block>) returns (bt: Table)
      requires Valid(owned + multiset(bt0.blocks)) && m <= Available(State())
      modifies this
      ensures (State(), bt) == BlockPool.TakeFresh(old(State()), bt0, m)
      ensures Valid(owned + multiset(bt.blocks)) && |bt.blocks| == |bt0.blocks| + m && bt.committed == bt0.committed
      ensures Available(State()) == Available(old(State())) - m
    {
      hide PoolInv, Available;
      bt := bt0;
      ghost var p := State();
      for i := 0 to m
        invariant (State(), bt) == BlockPool.TakeFresh(p, bt0, i)
        invariant Valid(owned + multiset(bt.blocks)) && |bt.blocks| == |bt0.blocks| + i && bt.committed == bt0.committed
        invariant Available(State()) == Available(p) - i
      {
        ghost var before := owned + multiset(bt.blocks);
        var r := TakeBlock(before);
        refs := refs[r.value := 1];
        assert before + multiset{r.value} == owned + multiset(bt.blocks + [r.value]);
        bt := Append(bt, r.value, 0);
      }
    }

    /**
     All or nothing: on failure nothing changes; on success the table covers the prompt, its cached
     prefix is reported, and no block had to be evicted that was itself a hit.
     */
    method AllocatePrompt(tokens: seq<Token>, ghost owned: multiset<Block>) returns (bt: Table, r: Option<nat>)
      requires Valid(owned)
      modifies this
      ensures (State(), bt, r) == BlockPool.AllocatePrompt(c, old(State()), tokens)
      ensures Valid(owned + multiset(bt.blocks))
      ensures r.None? ==> State() == old(State()) && bt == EmptyTable
      ensures r.Some? ==> |bt.blocks| == BlocksNeeded(c, |tokens|)
    {
      hide PoolInv, Available, BlockPool.TakeFresh, BlockPool.AdoptHits, LruHits, CachedBlocks, Span;
      var needed := (|tokens| + c.blockSize - 1) / c.blockSize;
      BlocksForIsDiv(c.blockSize, |tokens|);
      ghost var p := State();
      var hits := FindHits(tokens, owned);
      var idle := CountIdle(hits, tokens);
      HitsFit(c, |tokens|, |hits|);
      assert owned + multiset(EmptyTable.blocks) == owned;
      var available: int := NumAvailableBlocks();
      if needed - |hits| > available - idle {
        return EmptyTable, None;
      }
      bt := AdoptHits(hits, tokens, owned);
      ghost var t1 := bt.(committed := |hits|);
      FreshIgnoresCommitted(State(), bt, t1, needed - |hits|);
      bt := TakeFresh(bt, needed - |hits|, owned);
      bt := bt.(committed := |hits|);
      SpanIsMul(c.blockSize, |hits|);
      r := Some(|hits| * c.blockSize);
    }

    /** One more block if the table has no slot for token `numTokens - 1`; false when the pool is dry. */
    method EnsureSlot(bt: Table, numTokens: nat, ghost rest: multiset<Block>) returns (bt1: Table, ok: bool)
      requires Valid(rest + multiset(bt.blocks))
      modifies this
      ensures (State(), bt1, ok) == BlockPool.EnsureSlot(c, old(State()), bt, numTokens)
      ensures Valid(rest + multiset(bt1.blocks))
      ensures !ok ==> State() == old(State()) && bt1 == bt && Available(State()) == 0
    {
      hide PoolInv, Available;
      var needed := (numTokens + c.blockSize - 1) / c.blockSize;
      BlocksForIsDiv(c.blockSize, numTokens);
      if needed > |bt.blocks| {
        ghost var before := rest + multiset(bt.blocks);
        TakeOwnKeepsInv(c, State(), before);
        var r := TakeBlock(before);
        if r.None? {
          return bt, false;
        }
        refs := refs[r.value := 1];
        assert before + multiset{r.value} == rest + multiset(bt.blocks + [r.value]);
        return Append(bt, r.value, 0), true;
      }
      return bt, true;
    }

    /** Blocks from `k` on have not been tried for publication. */
    ghost predicate Uncommitted(bt: Table, k: nat)
      reads this
    {
      |bt.hashes| == |bt.blocks| && NoDup(bt.blocks[if k <= |bt.blocks| then k else |bt.blocks|..]) &&
      forall i :: k <= i < |bt.blocks| ==> Get(blockHash, bt.blocks[i]) == 0
    }

    method CommitComputed(bt: Table, tokens: seq<Token>, numComputed: nat, ghost owned: multiset<Block>) returns (bt1: Table)
      requires Valid(owned) && numComputed <= |tokens| && Uncommitted(bt, bt.committed)
      requires forall b :: b in bt.blocks ==> b in owned
      modifies this
      ensures (State(), bt1) == BlockPool.CommitComputed(c, old(State()), bt, tokens, numComputed)
      ensures Valid(owned)
    {
      hide PoolInv, BlockPool.HashFullBlock;
      bt1 := bt;
      if !c.caching {
        return;
      }
      SpanIsMul(c.blockSize, bt1.committed + 1);
      while bt1.committed < |bt1.blocks| && (bt1.committed + 1) * c.blockSize <= numComputed
        invariant Valid(owned) && bt1.blocks == bt.blocks && Uncommitted(bt1, bt1.committed)
        invariant Span(c.blockSize, bt1.committed + 1) == (bt1.committed + 1) * c.blockSize
        invariant BlockPool.CommitComputed(c, State(), bt1, tokens, numComputed) == BlockPool.CommitComputed(c, old(State()), bt, tokens, numComputed)
        decreases |bt1.blocks| - bt1.committed
      {
        var i := bt1.committed;
        var bt2 := HashFullBlock(bt1, i, tokens, owned);
        LaterDiffer(bt.blocks, i);
        bt1 := bt2.(committed := i + 1);
        SpanIsMul(c.blockSize, bt1.committed + 1);
      }
    }

    /** Give all blocks of a table back, last block first; `rest` are the other tables' entries. */
    method Free(bt: Table, ghost rest: multiset<Block>) returns (bt1: Table)
      requires |bt.hashes| == |bt.blocks| && Valid(rest + multiset(bt.blocks))
      requires forall i :: 0 <= i < |bt.blocks| ==> bt.hashes[i] == Get(blockHash, bt.blocks[i])
      modifies this
      ensures State() == BlockPool.Free(c, old(State()), bt) && bt1 == EmptyTable
      ensures Valid(rest) && blockHash == old(blockHash)
    {
      hide PoolInv, BlockPool.ReleaseBlock;
      var i := |bt.blocks|;
      assert bt.blocks[..i] == bt.blocks;
      while i > 0
        invariant i <= |bt.blocks| && blockHash == old(blockHash)
        invariant Valid(rest + multiset(bt.blocks[..i]))
        invariant FreeFrom(c, State(), bt, i) == BlockPool.Free(c, old(State()), bt)
      {
        i := i - 1;
        ghost var owned := rest + multiset(bt.blocks[..i + 1]);
        assert bt.blocks[..i + 1] == bt.blocks[..i] + [bt.blocks[i]];
        assert owned - multiset{bt.blocks[i]} == rest + multiset(bt.blocks[..i]);
        ReleaseKeepsInv(c, State(), owned, bt.blocks[i], bt.hashes[i]);
        OwnedInRange(c, State(), owned, bt.blocks[i]);
        ReleaseBlock(bt.blocks[i], bt.hashes[i]);
      }
      assert rest + multiset(bt.blocks[..0]) == rest;
      bt1 := EmptyTable;
    }
  }

  lemma OwnedInRange(c: KvConfig, p: Pool, owned: multiset<Block>, b: Block)
    requires PoolInv(c, p, owned) && b in owned
    ensures b < c.numBlocks && Get(p.refs, b) > 0
  {
    assert Get(p.refs, b) == owned[b];
  }

  lemma HitIsPublished(c: KvConfig, p: Pool, owned: multiset<Block>, h: Hash)
    requires PoolInv(c, p, owned) && h in p.hashToBlock
    ensures p.hashToBlock[h] < c.numBlocks && Get(p.blockHash, p.hashToBlock[h]) != 0
  {
  }

  lemma LaterDiffer(blocks: seq<Block>, i: nat)
    requires i < |blocks| && NoDup(blocks[i..])
    ensures NoDup(blocks[i + 1..]) && forall k :: i + 1 <= k < |blocks| ==> blocks[k] != blocks[i]
  {
    assert blocks[i + 1..] == blocks[i..][1..];
    forall k | i + 1 <= k < |blocks| ensures blocks[k] != blocks[i] {
      assert blocks[i..][k - i] == blocks[k] && blocks[i..][0] == blocks[i];
    }
  }

  lemma HitsFit(c: KvConfig, n: nat, k: nat)
    requires ValidConfig(c) && k <= Quot(c.blockSize, n)
    ensures k <= BlocksNeeded(c, n)
  {
    FullBlocks(c.blockSize, n, k);
    BlocksForFits(c.blockSize, n, BlocksNeeded(c, n));
    if BlocksNeeded(c, n) < k {
      SpanMono(c.blockSize, BlocksNeeded(c, n), k);
      assert false;
    }
  }

  lemma AdoptStart(c: KvConfig, p: Pool, toks: seq<Token>)
    ensures AdoptHits(c, p, toks, 0) == (p, EmptyTable) && LruHits(c, p, toks, 0) == 0
  {
  }

  lemma AdoptStep(c: KvConfig, p: Pool, toks: seq<Token>, k: nat)
    ensures var (p1, t1) := AdoptHits(c, p, toks, k); var b := HitBlock(c, p, toks, k);
            && AdoptHits(c, p, toks, k + 1) == (Share(p1, b), Append(t1, b, Chain(c, toks, k + 1)).(committed := k + 1))
            && LruHits(c, p, toks, k + 1) == LruHits(c, p, toks, k) + if Get(p.refs, b) == 0 then 1 else 0
  {
  }

  /** Taking fresh blocks does not look at the committed count. */
  lemma {:induction false} FreshIgnoresCommitted(p: Pool, t: Table, t1: Table, m: nat)
    requires t1.blocks == t.blocks && t1.hashes == t.hashes
    ensures BlockPool.TakeFresh(p, t1, m).0 == BlockPool.TakeFresh(p, t, m).0
    ensures BlockPool.TakeFresh(p, t1, m).1 == BlockPool.TakeFresh(p, t, m).1.(committed := t1.committed)
  {
    if m > 0 {
      FreshIgnoresCommitted(p, t, t1, m - 1);
    }
  }
}
