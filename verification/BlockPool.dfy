/**
 The paged KV cache bookkeeping as a value: the pool of physical blocks, the per-sequence
 block tables, and every operation of the cache manager as a function on them.
 `KVCacheManager.dfy` proves that the imperative manager computes exactly these functions.
 */
module BlockPool {
  import opened Lists
  import opened Paging

  type Block = nat
  type Hash = nat
  type Token = int

  /** `mix` is the content hash before the reserved value 0 is remapped; nothing is assumed about it here. */
  datatype KvConfig = KvConfig(numBlocks: nat, blockSize: nat, caching: bool, mix: (Hash, seq<Token>) -> Hash)

  predicate ValidConfig(c: KvConfig) {
    c.numBlocks > 0 && c.blockSize > 0
  }

  /** `hashes` runs parallel to `blocks`; 0 means "not hashed". */
  datatype Table = Table(blocks: seq<Block>, hashes: seq<Hash>, committed: nat)

  const EmptyTable := Table([], [], 0)

  /**
   The manager's fields. `labels` is not in the program: it records, for each published block,
   the token prefix that was published, so that content statements can be made.
   */
  datatype Pool = Pool(
    free: seq<Block>,
    refs: seq<nat>,
    hashToBlock: map<Hash, Block>,
    blockHash: seq<Hash>,
    lru: seq<Block>,
    labels: map<Block, seq<Token>>)

  function Available(p: Pool): nat {
    |p.free| + |p.lru|
  }

  function BlocksNeeded(c: KvConfig, n: nat): nat
    requires ValidConfig(c)
  {
    BlocksFor(c.blockSize, n)
  }

  // ---- a fresh pool ----

  /** Highest id first, so that low ids are handed out first. */
  function Countdown(n: nat): (r: seq<Block>)
    ensures |r| == n && forall i :: 0 <= i < n ==> r[i] == n - 1 - i
  {
    if n == 0 then [] else [n - 1] + Countdown(n - 1)
  }

  function FreshPool(c: KvConfig): Pool {
    Pool(Countdown(c.numBlocks), seq(c.numBlocks, _ => 0), map[], seq(c.numBlocks, _ => 0), [], map[])
  }

  // ---- content hashing ----

  function HashBlock(c: KvConfig, prev: Hash, toks: seq<Token>): (h: Hash)
    ensures h != 0
  {
    var h := c.mix(prev, toks);
    if h == 0 then 1 else h
  }

  /** The tokens of logical block `i`; empty when the block is not full. */
  function Piece(c: KvConfig, toks: seq<Token>, i: nat): seq<Token> {
    if Span(c.blockSize, i + 1) <= |toks| then toks[Span(c.blockSize, i)..Span(c.blockSize, i + 1)] else []
  }

  /** The chained hash of the first `k` full blocks. */
  function Chain(c: KvConfig, toks: seq<Token>, k: nat): (h: Hash)
    ensures (h == 0) <==> (k == 0)
  {
    if k == 0 then 0 else HashBlock(c, Chain(c, toks, k - 1), Piece(c, toks, k - 1))
  }

  // ---- single-block operations ----

  function TakeBlock(p: Pool): (Pool, Option<Block>) {
    if p.free != [] then
      (p.(free := p.free[..|p.free| - 1]), Some(p.free[|p.free| - 1]))
    else if p.lru == [] then
      (p, None)
    else
      (Unpublish(p, p.lru[0]).(lru := p.lru[1..]), Some(p.lru[0]))
  }

  function Unpublish(p: Pool, b: Block): Pool {
    p.(hashToBlock := p.hashToBlock - {Get(p.blockHash, b)},
       blockHash := Put(p.blockHash, b, 0),
       labels := p.labels - {b})
  }

  /** Give a block that came out of `TakeBlock` its first owner. */
  function Own(p: Pool, b: Block): Pool {
    p.(refs := Put(p.refs, b, 1))
  }

  /** Add an owner to a published block, taking it out of the LRU list if it sat there. */
  function Share(p: Pool, b: Block): Pool {
    p.(lru := Without(p.lru, b), refs := Put(p.refs, b, Get(p.refs, b) + 1))
  }

  function ReleaseBlock(c: KvConfig, p: Pool, b: Block, hash: Hash): Pool {
    var left := if Get(p.refs, b) > 0 then Get(p.refs, b) - 1 else 0;
    var p1 := p.(refs := Put(p.refs, b, left));
    if left > 0 then p1
    else if c.caching && hash != 0 && Get(p.blockHash, b) == hash then p1.(lru := p.lru + [b])
    else
      var p2 := if Get(p.blockHash, b) != 0 then Unpublish(p1, b) else p1;
      p2.(free := p.free + [b])
  }

  function Publish(p: Pool, b: Block, h: Hash, prefix: seq<Token>): Pool {
    p.(hashToBlock := p.hashToBlock[h := b],
       blockHash := Put(p.blockHash, b, h),
       labels := p.labels[b := prefix])
  }

  // ---- table operations ----

  function Append(t: Table, b: Block, h: Hash): Table {
    t.(blocks := t.blocks + [b], hashes := t.hashes + [h])
  }

  /** The prefix a full block `i` of a sequence stands for. */
  function PrefixTo(c: KvConfig, toks: seq<Token>, k: nat): seq<Token> {
    if Span(c.blockSize, k) <= |toks| then toks[..Span(c.blockSize, k)] else toks
  }

  function HashFullBlock(c: KvConfig, p: Pool, t: Table, i: nat, toks: seq<Token>): (Pool, Table) {
    if !c.caching || i >= |t.hashes| then (p, t)
    else
      var prev := if i == 0 then 0 else t.hashes[i - 1];
      if i > 0 && prev == 0 then (p, t)
      else
        var h := HashBlock(c, prev, Piece(c, toks, i));
        var b := Get(t.blocks, i);
        if h in p.hashToBlock then (p, t)
        else (Publish(p, b, h, PrefixTo(c, toks, i + 1)), t.(hashes := t.hashes[i := h]))
  }

  function CommitComputed(c: KvConfig, p: Pool, t: Table, toks: seq<Token>, computed: nat): (Pool, Table)
    decreases |t.blocks| - t.committed
  {
    if c.caching && t.committed < |t.blocks| && Span(c.blockSize, t.committed + 1) <= computed then
      var (p1, t1) := HashFullBlock(c, p, t, t.committed, toks);
      CommitComputed(c, p1, t1.(committed := t.committed + 1), toks, computed)
    else (p, t)
  }

  /** Release blocks `i-1, i-2, ..., 0` of a table, in that order. */
  function FreeFrom(c: KvConfig, p: Pool, t: Table, i: nat): Pool
    decreases i
  {
    if i == 0 then p
    else FreeFrom(c, ReleaseBlock(c, p, Get(t.blocks, i - 1), Get(t.hashes, i - 1)), t, i - 1)
  }

  function Free(c: KvConfig, p: Pool, t: Table): Pool {
    FreeFrom(c, p, t, |t.blocks|)
  }

  /** How many full blocks from block `i` on are published under this sequence's chained hashes. */
  function Walk(c: KvConfig, p: Pool, toks: seq<Token>, i: nat): nat
    requires ValidConfig(c)
    decreases Quot(c.blockSize, |toks|) - i
  {
    if i < Quot(c.blockSize, |toks|) && Chain(c, toks, i + 1) in p.hashToBlock then 1 + Walk(c, p, toks, i + 1) else 0
  }

  function CachedBlocks(c: KvConfig, p: Pool, toks: seq<Token>): nat
    requires ValidConfig(c)
  {
    if c.caching then Walk(c, p, toks, 0) else 0
  }

  function LookupCachedPrefix(c: KvConfig, p: Pool, toks: seq<Token>): nat
    requires ValidConfig(c)
  {
    Span(c.blockSize, CachedBlocks(c, p, toks))
  }

  function HitBlock(c: KvConfig, p: Pool, toks: seq<Token>, i: nat): Block {
    var h := Chain(c, toks, i + 1);
    if h in p.hashToBlock then p.hashToBlock[h] else 0
  }

  /** Hits among the first `k` that nobody owns at present. */
  function LruHits(c: KvConfig, p: Pool, toks: seq<Token>, k: nat): nat {
    if k == 0 then 0
    else LruHits(c, p, toks, k - 1) + if Get(p.refs, HitBlock(c, p, toks, k - 1)) == 0 then 1 else 0
  }

  function AdoptHits(c: KvConfig, p: Pool, toks: seq<Token>, k: nat): (Pool, Table) {
    if k == 0 then (p, EmptyTable)
    else
      var (p1, t1) := AdoptHits(c, p, toks, k - 1);
      var b := HitBlock(c, p, toks, k - 1);
      (Share(p1, b), Append(t1, b, Chain(c, toks, k)).(committed := k))
  }

  /** Take `m` fresh blocks; stops early if the pool runs dry. */
  function TakeFresh(p: Pool, t: Table, m: nat): (Pool, Table) {
    if m == 0 then (p, t)
    else
      var (p1, t1) := TakeFresh(p, t, m - 1);
      match TakeBlock(p1)
      case (p2, Some(b)) => (Own(p2, b), Append(t1, b, 0))
      case (p2, None) => (p2, t1)
  }

  function AllocatePrompt(c: KvConfig, p: Pool, toks: seq<Token>): (Pool, Table, Option<nat>)
    requires ValidConfig(c)
  {
    var needed := BlocksNeeded(c, |toks|);
    var cached := CachedBlocks(c, p, toks);
    if needed - cached > Available(p) - LruHits(c, p, toks, cached) then (p, EmptyTable, None)
    else
      var (p1, t1) := AdoptHits(c, p, toks, cached);
      var (p2, t2) := TakeFresh(p1, t1, if needed >= cached then needed - cached else 0);
      (p2, t2.(committed := cached), Some(Span(c.blockSize, cached)))
  }

  function EnsureSlot(c: KvConfig, p: Pool, t: Table, n: nat): (Pool, Table, bool)
    requires ValidConfig(c)
  {
    if BlocksNeeded(c, n) > |t.blocks| then
      match TakeBlock(p)
      case (p1, Some(b)) => (Own(p1, b), Append(t, b, 0), true)
      case (p1, None) => (p1, t, false)
    else (p, t, true)
  }

  // ---- the pool invariant ----

  /**
   Every block is in exactly one of the free list, the LRU list and the owned blocks; the
   reference count of a block is its number of occurrences in `owned`, the multiset of all
   table entries; the hash index and the per-block hashes are mutually inverse. No assumption
   about hash collisions is made.
   */
  ghost predicate PoolInv(c: KvConfig, p: Pool, owned: multiset<Block>) {
    && ListsInv(c, p)
    && CountInv(p, owned)
    && HashIndexInv(c, p)
  }

  /** The free and LRU lists are disjoint, duplicate-free, and hold exactly the unowned blocks; cached means hashed. */
  ghost predicate ListsInv(c: KvConfig, p: Pool) {
    && |p.refs| == c.numBlocks && |p.blockHash| == c.numBlocks
    && NoDup(p.free) && NoDup(p.lru)
    && (forall b :: b in p.free ==> b < c.numBlocks && b !in p.lru && Get(p.blockHash, b) == 0)
    && (forall b :: b in p.lru ==> b < c.numBlocks && Get(p.blockHash, b) != 0)
    && (forall b: nat :: b < c.numBlocks ==> (Get(p.refs, b) == 0 <==> b in p.free || b in p.lru))
  }

  /** Reference counts are occurrence counts, and only a hashed block can have more than one owner. */
  ghost predicate CountInv(p: Pool, owned: multiset<Block>) {
    && (forall b: nat :: Get(p.refs, b) == owned[b])
    && (forall b: nat :: Get(p.blockHash, b) == 0 ==> Get(p.refs, b) <= 1)
  }

  ghost predicate HashIndexInv(c: KvConfig, p: Pool) {
    && (forall h :: h in p.hashToBlock ==> h != 0 && p.hashToBlock[h] < c.numBlocks && Get(p.blockHash, p.hashToBlock[h]) == h)
    && (forall b: nat :: Get(p.blockHash, b) != 0 ==>
          Get(p.blockHash, b) in p.hashToBlock && p.hashToBlock[Get(p.blockHash, b)] == b && c.caching)
    && (forall b: nat :: b in p.labels <==> Get(p.blockHash, b) != 0)
  }

  /** A table entry's stored hash is the hash of its block, and the hashed entries are a chained prefix. */
  ghost predicate TableInv(c: KvConfig, p: Pool, t: Table, toks: seq<Token>) {
    && |t.hashes| == |t.blocks|
    && (forall i :: 0 <= i < |t.blocks| ==> t.blocks[i] < c.numBlocks && t.hashes[i] == Get(p.blockHash, t.blocks[i]))
    && (forall i: nat {:trigger HashedEntry(c, t, i, toks)} :: i < |t.hashes| && t.hashes[i] != 0 ==> HashedEntry(c, t, i, toks))
  }

  ghost predicate HashedEntry(c: KvConfig, t: Table, i: nat, toks: seq<Token>)
    requires i < |t.hashes|
  {
    && i < t.committed
    && (i > 0 ==> t.hashes[i - 1] != 0)
    && Span(c.blockSize, i + 1) <= |toks|
    && t.hashes[i] == Chain(c, toks, i + 1)
  }

  /** A fresh pool satisfies the invariant with nothing owned. */
  lemma FreshPoolInv(c: KvConfig)
    ensures PoolInv(c, FreshPool(c), multiset{})
  {
    var p := FreshPool(c);
    forall b: nat | b < c.numBlocks ensures b in p.free {
      assert p.free[c.numBlocks - 1 - b] == b;
    }
  }

  // ---- each single-block operation keeps the pool invariant ----

  /** What taking a block and giving it an owner promises. */
  ghost predicate TookBlock(c: KvConfig, p: Pool, owned: multiset<Block>, p1: Pool, b: Block) {
    && PoolInv(c, p1, owned + multiset{b})
    && b < c.numBlocks && b !in owned && Get(p1.blockHash, b) == 0
    && (forall x: nat :: x != b ==> Get(p1.blockHash, x) == Get(p.blockHash, x))
    && Available(p1) == Available(p) - 1
  }

  lemma TakeFreeKeepsInv(c: KvConfig, p: Pool, owned: multiset<Block>)
    requires PoolInv(c, p, owned) && p.free != []
    ensures TookBlock(c, p, owned, Own(TakeBlock(p).0, p.free[|p.free| - 1]), p.free[|p.free| - 1])
  {
    var b := p.free[|p.free| - 1];
    var p1 := Own(TakeBlock(p).0, b);
    assert forall x :: x in p1.free <==> x in p.free && x != b;
    assert Get(p.refs, b) == 0;
  }

  lemma EvictKeepsLists(c: KvConfig, p: Pool)
    requires ListsInv(c, p) && p.free == [] && p.lru != []
    ensures ListsInv(c, Own(TakeBlock(p).0, p.lru[0]))
  {
    var p1 := Own(TakeBlock(p).0, p.lru[0]);
    assert forall x :: x in p1.lru <==> x in p.lru && x != p.lru[0];
  }

  lemma UnpublishKeepsIndex(c: KvConfig, p: Pool, b: Block)
    requires HashIndexInv(c, p)
    ensures HashIndexInv(c, Unpublish(p, b))
  {
  }

  lemma EvictKeepsInv(c: KvConfig, p: Pool, owned: multiset<Block>)
    requires PoolInv(c, p, owned) && p.free == [] && p.lru != []
    ensures TookBlock(c, p, owned, Own(TakeBlock(p).0, p.lru[0]), p.lru[0])
  {
    EvictKeepsLists(c, p);
    UnpublishKeepsIndex(c, p, p.lru[0]);
    assert Get(p.refs, p.lru[0]) == 0;
  }

  lemma TakeOwnKeepsInv(c: KvConfig, p: Pool, owned: multiset<Block>)
    requires PoolInv(c, p, owned)
    ensures TakeBlock(p).1.None? <==> Available(p) == 0
    ensures TakeBlock(p).1.None? ==> TakeBlock(p).0 == p
    ensures TakeBlock(p).1.Some? ==>
              TookBlock(c, p, owned, Own(TakeBlock(p).0, TakeBlock(p).1.value), TakeBlock(p).1.value)
  {
    if p.free != [] {
      TakeFreeKeepsInv(c, p, owned);
    } else if p.lru != [] {
      EvictKeepsInv(c, p, owned);
    }
  }

  /** A fresh pool hands its blocks out in ascending order. */
  lemma {:induction false} LowFirst(c: KvConfig, m: nat)
    requires m <= c.numBlocks
    ensures var (p, t) := TakeFresh(FreshPool(c), EmptyTable, m);
            && p.free == FreshPool(c).free[..c.numBlocks - m] && |t.blocks| == m
            && forall i :: 0 <= i < m ==> t.blocks[i] == i
  {
    if m > 0 {
      LowFirst(c, m - 1);
      var p := TakeFresh(FreshPool(c), EmptyTable, m - 1).0;
      assert p.free[|p.free| - 1] == m - 1;
      assert p.free[..|p.free| - 1] == FreshPool(c).free[..c.numBlocks - m];
    }
  }

  /** The block freed last is handed out first. */
  lemma LastFreedFirst(c: KvConfig, p: Pool, b: Block)
    requires Get(p.refs, b) == 1
    ensures TakeBlock(ReleaseBlock(c, p, b, 0)).1 == Some(b) && TakeBlock(ReleaseBlock(c, p, b, 0)).0.free == p.free
  {
    var q := ReleaseBlock(c, p, b, 0);
    assert q.free[..|p.free|] == p.free;
  }

  lemma ShareKeepsInv(c: KvConfig, p: Pool, owned: multiset<Block>, b: Block)
    requires PoolInv(c, p, owned) && Get(p.blockHash, b) != 0
    ensures PoolInv(c, Share(p, b), owned + multiset{b})
    ensures Available(Share(p, b)) == Available(p) - if Get(p.refs, b) == 0 then 1 else 0
  {
    WithoutNoDup(p.lru, b);
  }

  lemma ReleaseKeepsInv(c: KvConfig, p: Pool, owned: multiset<Block>, b: Block, hash: Hash)
    requires PoolInv(c, p, owned) && b in owned && hash == Get(p.blockHash, b)
    ensures PoolInv(c, ReleaseBlock(c, p, b, hash), owned - multiset{b})
    ensures ReleaseBlock(c, p, b, hash).blockHash == p.blockHash
    ensures ReleaseBlock(c, p, b, hash).labels == p.labels
    ensures ReleaseBlock(c, p, b, hash).hashToBlock == p.hashToBlock
  {
    assert Get(p.refs, b) > 0 && b < c.numBlocks;
    assert b !in p.free && b !in p.lru;
    ReleaseKeepsLists(c, p, b, hash);
  }

  lemma ReleaseKeepsLists(c: KvConfig, p: Pool, b: Block, hash: Hash)
    requires ListsInv(c, p) && b < c.numBlocks && Get(p.refs, b) > 0 && hash == Get(p.blockHash, b)
    requires hash != 0 ==> c.caching
    ensures ListsInv(c, ReleaseBlock(c, p, b, hash))
  {
    assert b !in p.free && b !in p.lru;
    var q := ReleaseBlock(c, p, b, hash);
    assert forall x :: x in p.free + [b] <==> x in p.free || x == b;
    assert forall x :: x in p.lru + [b] <==> x in p.lru || x == b;
  }

  lemma PublishKeepsInv(c: KvConfig, p: Pool, owned: multiset<Block>, b: Block, h: Hash, prefix: seq<Token>)
    requires PoolInv(c, p, owned) && c.caching
    requires b < c.numBlocks && b in owned && Get(p.blockHash, b) == 0
    requires h != 0 && h !in p.hashToBlock
    ensures PoolInv(c, Publish(p, b, h, prefix), owned)
    ensures owned[b] == 1
  {
  }

  /** The three populations account for every block. */
  lemma Partition(c: KvConfig, p: Pool, owned: multiset<Block>, used: seq<Block>)
    requires PoolInv(c, p, owned)
    requires NoDup(used) && forall b :: b in used <==> b in owned
    ensures |p.free| + |p.lru| + |used| == c.numBlocks
  {
    var all := p.free + p.lru + used;
    forall x: nat ensures x in all <==> x < c.numBlocks {
      assert x in all <==> x in p.free || x in p.lru || x in used;
      assert x in used <==> Get(p.refs, x) > 0;
    }
    NoDupConcat(p.free, p.lru);
    NoDupConcat(p.free + p.lru, used);
    NoDupRange(all, c.numBlocks);
  }
}
