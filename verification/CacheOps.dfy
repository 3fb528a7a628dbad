/** What the cache manager's public operations keep of the whole cache state, and what they return. */
module CacheOps {
  import opened Lists
  import opened Paging
  import opened BlockPool
  import opened Requests
  import opened PrefixCache
  import opened PrefixTree

  // ---- free ----

  lemma {:induction false} FreeFromKeeps(c: KvConfig, universe: set<seq<Token>>, p: Pool, seqs: map<Id, Sequence>, order: seq<Id>, id: Id, t: Table, i: nat)
    requires id in seqs && i <= |t.blocks| == |t.hashes|
    requires seqs[id].table == t.(blocks := t.blocks[..i], hashes := t.hashes[..i])
    requires CacheInv(c, universe, p, seqs, order)
    ensures CacheInv(c, universe, FreeFrom(c, p, t, i), WithTable(seqs, id, t.(blocks := [], hashes := [])), order)
    ensures FreeFrom(c, p, t, i).labels == p.labels
    decreases i
  {
    hide CacheInv, ReleaseBlock;
    if i == 0 {
      assert t.blocks[..0] == [] && t.hashes[..0] == [];
      assert WithTable(seqs, id, t.(blocks := [], hashes := [])) == seqs;
    } else {
      FreeStepKeeps(c, universe, p, seqs, order, id, t, i);
      var p1 := ReleaseBlock(c, p, t.blocks[i - 1], t.hashes[i - 1]);
      var seqs1 := WithTable(seqs, id, t.(blocks := t.blocks[..i - 1], hashes := t.hashes[..i - 1]));
      FreeFromKeeps(c, universe, p1, seqs1, order, id, t, i - 1);
      assert WithTable(seqs1, id, t.(blocks := [], hashes := [])) == WithTable(seqs, id, t.(blocks := [], hashes := []));
    }
  }

  lemma FreeStepKeeps(c: KvConfig, universe: set<seq<Token>>, p: Pool, seqs: map<Id, Sequence>, order: seq<Id>, id: Id, t: Table, i: nat)
    requires id in seqs && 0 < i <= |t.blocks| == |t.hashes|
    requires seqs[id].table == t.(blocks := t.blocks[..i], hashes := t.hashes[..i])
    requires CacheInv(c, universe, p, seqs, order)
    ensures var p1 := ReleaseBlock(c, p, t.blocks[i - 1], t.hashes[i - 1]);
            && CacheInv(c, universe, p1, WithTable(seqs, id, t.(blocks := t.blocks[..i - 1], hashes := t.hashes[..i - 1])), order)
            && p1.labels == p.labels
  {
    hide CacheInv, ReleaseBlock, PoolInv, TableInv, KvInv, TablesInv, ListsInv, HashIndexInv, CountInv, OrderInv, AllEntryLabels, PublishedInv, NoCollision;
    var u := seqs[id].table;
    ReleaseLastKeeps(c, universe, p, seqs, order, id);
    assert u.blocks[i - 1] == t.blocks[i - 1] && u.hashes[i - 1] == t.hashes[i - 1];
    assert u.blocks[..i - 1] == t.blocks[..i - 1] && u.hashes[..i - 1] == t.hashes[..i - 1];
    assert DropLast(u) == t.(blocks := t.blocks[..i - 1], hashes := t.hashes[..i - 1]);
    OpenCache(c, universe, p, seqs, order);
    TableOf(c, p, seqs, id);
    SplitTable(c, p, seqs, order, id);
    ReleaseStep(c, p, Others(seqs, order, id), u, seqs[id].tokens);
  }

  /** `free` gives back every entry, keeps everything published, and empties the table. */
  lemma FreeKeeps(c: KvConfig, universe: set<seq<Token>>, p: Pool, seqs: map<Id, Sequence>, order: seq<Id>, id: Id)
    requires CacheInv(c, universe, p, seqs, order) && id in seqs
    ensures CacheInv(c, universe, Free(c, p, seqs[id].table), WithTable(seqs, id, EmptyTable), order)
    ensures Free(c, p, seqs[id].table).labels == p.labels
  {
    hide *;
    var t := seqs[id].table;
    OpenCache(c, universe, p, seqs, order);
    TableLengths(c, p, seqs, id);
    assert t.blocks[..|t.blocks|] == t.blocks && t.hashes[..|t.blocks|] == t.hashes;
    FreeFromKeeps(c, universe, p, seqs, order, id, t, |t.blocks|);
    FreeIs(c, p, t);
    WithTableIs(seqs, id, t.(blocks := [], hashes := []));
    EmptyKeeps(c, universe, Free(c, p, t), WithTable(seqs, id, t.(blocks := [], hashes := [])), order, id);
    WithTableTwice(seqs, id, t.(blocks := [], hashes := []), EmptyTable);
  }

  lemma FreeIs(c: KvConfig, p: Pool, t: Table)
    ensures Free(c, p, t) == FreeFrom(c, p, t, |t.blocks|)
  {
  }

  lemma TableLengths(c: KvConfig, p: Pool, seqs: map<Id, Sequence>, id: Id)
    requires TablesInv(c, p, seqs) && id in seqs
    ensures |seqs[id].table.hashes| == |seqs[id].table.blocks|
  {
    assert TableInv(c, p, seqs[id].table, seqs[id].tokens);
  }

  lemma CacheLengths(c: KvConfig, universe: set<seq<Token>>, p: Pool, seqs: map<Id, Sequence>, order: seq<Id>, id: Id)
    requires CacheInv(c, universe, p, seqs, order) && id in seqs
    ensures ValidConfig(c) && |seqs[id].table.hashes| == |seqs[id].table.blocks|
  {
    TableLengths(c, p, seqs, id);
  }

  lemma WithTableTwice(seqs: map<Id, Sequence>, id: Id, t: Table, t': Table)
    requires id in seqs
    ensures id in WithTable(seqs, id, t)
    ensures WithTable(WithTable(seqs, id, t), id, t') == WithTable(seqs, id, t')
  {
  }

  /** An empty table may forget its commit counter. */
  lemma EmptyKeeps(c: KvConfig, universe: set<seq<Token>>, p: Pool, seqs: map<Id, Sequence>, order: seq<Id>, id: Id)
    requires CacheInv(c, universe, p, seqs, order)
    requires id in seqs && seqs[id].table.blocks == [] && seqs[id].table.hashes == []
    ensures CacheInv(c, universe, p, WithTable(seqs, id, EmptyTable), order)
  {
    hide *;
    OpenCache(c, universe, p, seqs, order);
    var seqs1 := WithTable(seqs, id, EmptyTable);
    WithTableIs(seqs, id, EmptyTable);
    EmptyIs();
    SplitTable(c, p, seqs, order, id);
    EmptyTableInv(c, p, seqs[id].tokens);
    LiftTable(c, p, seqs, order, id, p, seqs[id].(table := EmptyTable));
    KvParts(c, p, seqs1, order);
    EmptyHashed(seqs, id);
    EntriesKeepLabels(c, p, p, seqs, seqs1);
    InPlaySame(universe, seqs, seqs1);
    CloseCache(c, universe, p, seqs1, order);
  }

  lemma EmptyIs()
    ensures EmptyTable == Table([], [], 0)
  {
  }

  lemma EmptyTableInv(c: KvConfig, p: Pool, toks: seq<Token>)
    ensures TableInv(c, p, EmptyTable, toks)
  {
  }

  lemma EmptyHashed(seqs: map<Id, Sequence>, id: Id)
    requires id in seqs
    ensures forall x :: x in seqs[id := seqs[id].(table := EmptyTable)] ==>
              x in seqs && SameHashedEntries(seqs[id := seqs[id].(table := EmptyTable)][x], seqs[x])
  {
  }

  // ---- ensure_slot ----

  /** Out of memory changes nothing; otherwise exactly the missing block is added. */
  lemma EnsureSlotKeeps(c: KvConfig, universe: set<seq<Token>>, p: Pool, seqs: map<Id, Sequence>, order: seq<Id>, id: Id, n: nat)
    requires CacheInv(c, universe, p, seqs, order) && id in seqs
    ensures var t := seqs[id].table; var (p1, t1, ok) := EnsureSlot(c, p, t, n);
            && CacheInv(c, universe, p1, WithTable(seqs, id, t1), order)
            && (!ok ==> p1 == p && t1 == t && Available(p) == 0 && n > Span(c.blockSize, |t.blocks|))
            && (ok ==> t.blocks <= t1.blocks && |t1.blocks| <= |t.blocks| + 1 && t1.committed == t.committed)
            && (ok && n <= Span(c.blockSize, |t.blocks| + 1) ==> n <= Span(c.blockSize, |t1.blocks|))
            && (ok && n <= Span(c.blockSize, |t.blocks|) ==> p1 == p && t1 == t)
            && (forall b :: b in p1.labels ==> b in p.labels && p1.labels[b] == p.labels[b])
  {
    hide *;
    var t := seqs[id].table;
    CacheLengths(c, universe, p, seqs, order, id);
    EnsureCases(c, p, t, n);
    TakeFacts(c, universe, p, seqs, order);
    if BlocksNeeded(c, n) > |t.blocks| && TakeBlock(p).1.Some? {
      GrowKeeps(c, universe, p, seqs, order, id);
    } else {
      WithSameTable(seqs, id);
    }
  }

  lemma EnsureCases(c: KvConfig, p: Pool, t: Table, n: nat)
    requires ValidConfig(c)
    ensures BlocksNeeded(c, n) <= |t.blocks| <==> n <= Span(c.blockSize, |t.blocks|)
    ensures var b := TakeBlock(p).1;
            EnsureSlot(c, p, t, n) == if BlocksNeeded(c, n) <= |t.blocks| then (p, t, true)
                                      else if b.None? then (TakeBlock(p).0, t, false)
                                      else (Own(TakeBlock(p).0, b.value), Append(t, b.value, 0), true)
    ensures forall b :: var t1 := Append(t, b, 0); t.blocks <= t1.blocks && |t1.blocks| == |t.blocks| + 1 && t1.committed == t.committed
  {
    BlocksForFits(c.blockSize, n, |t.blocks|);
  }

  lemma WithSameTable(seqs: map<Id, Sequence>, id: Id)
    requires id in seqs
    ensures WithTable(seqs, id, seqs[id].table) == seqs
  {
  }

  lemma TakeFacts(c: KvConfig, universe: set<seq<Token>>, p: Pool, seqs: map<Id, Sequence>, order: seq<Id>)
    requires CacheInv(c, universe, p, seqs, order)
    ensures TakeBlock(p).1.None? <==> Available(p) == 0
    ensures TakeBlock(p).1.None? ==> TakeBlock(p).0 == p
    ensures TakeBlock(p).1.Some? ==>
              var p1 := Own(TakeBlock(p).0, TakeBlock(p).1.value);
              Available(p1) == Available(p) - 1 && forall b :: b in p1.labels ==> b in p.labels && p1.labels[b] == p.labels[b]
  {
    hide *;
    OpenCache(c, universe, p, seqs, order);
    TakeOwnKeepsInv(c, p, Owned(seqs, order));
    if TakeBlock(p).1.Some? {
      TookParts(c, p, Owned(seqs, order), Own(TakeBlock(p).0, TakeBlock(p).1.value), TakeBlock(p).1.value);
      TakeKeepsPublished(c, universe, p);
    }
  }

  lemma TookParts(c: KvConfig, p: Pool, owned: multiset<Block>, p1: Pool, b: Block)
    requires TookBlock(c, p, owned, p1, b)
    ensures Available(p1) == Available(p) - 1 && b !in owned && PoolInv(c, p1, owned + multiset{b})
  {
  }

  // ---- commit_computed ----

  /** `b` was published from block `i` of this table, with all of its positions computed. */
  ghost predicate NewLabel(c: KvConfig, t: Table, toks: seq<Token>, computed: nat, p1: Pool, b: Block, i: nat)
    requires b in p1.labels
  {
    i < |t.blocks| && t.blocks[i] == b && Span(c.blockSize, i + 1) <= computed <= |toks|
    && p1.labels[b] == toks[..Span(c.blockSize, i + 1)]
  }

  ghost predicate LabelsGrow(c: KvConfig, p: Pool, p1: Pool, t: Table, toks: seq<Token>, computed: nat) {
    forall b :: b in p1.labels ==> (b in p.labels && p1.labels[b] == p.labels[b]) || exists i: nat :: NewLabel(c, t, toks, computed, p1, b, i)
  }

  lemma CommitOneLabels(c: KvConfig, p: Pool, t: Table, toks: seq<Token>, computed: nat)
    requires |t.hashes| == |t.blocks| && t.committed < |t.blocks| && Span(c.blockSize, t.committed + 1) <= computed <= |toks|
    ensures var (p1, t1) := HashFullBlock(c, p, t, t.committed, toks);
            LabelsGrow(c, p, p1, t, toks, computed) && t1.blocks == t.blocks && |t1.hashes| == |t.hashes| && t1.committed == t.committed
            && p1.lru == p.lru && p1.free == p.free && p1.refs == p.refs
  {
    var (p1, t1) := HashFullBlock(c, p, t, t.committed, toks);
    forall b | b in p1.labels && !(b in p.labels && p1.labels[b] == p.labels[b]) ensures NewLabel(c, t, toks, computed, p1, b, t.committed) {
    }
  }

  lemma LabelsGrowTwice(c: KvConfig, p: Pool, p1: Pool, p2: Pool, t: Table, t1: Table, toks: seq<Token>, computed: nat)
    requires LabelsGrow(c, p, p1, t, toks, computed) && LabelsGrow(c, p1, p2, t1, toks, computed) && t1.blocks == t.blocks
    ensures LabelsGrow(c, p, p2, t, toks, computed)
  {
    forall b | b in p2.labels ensures (b in p.labels && p2.labels[b] == p.labels[b]) || exists i: nat :: NewLabel(c, t, toks, computed, p2, b, i) {
      if !(b in p1.labels && p2.labels[b] == p1.labels[b]) {
        var i: nat :| NewLabel(c, t1, toks, computed, p2, b, i);
        assert NewLabel(c, t, toks, computed, p2, b, i);
      } else if !(b in p.labels && p1.labels[b] == p.labels[b]) {
        var i: nat :| NewLabel(c, t, toks, computed, p1, b, i);
        assert NewLabel(c, t, toks, computed, p2, b, i);
      }
    }
  }

  /** Publishing adds only prefixes whose every position is computed, and moves no block. */
  ghost predicate Committed(c: KvConfig, universe: set<seq<Token>>, p: Pool, seqs: map<Id, Sequence>, order: seq<Id>, id: Id, computed: nat, p1: Pool, t1: Table)
    requires id in seqs
  {
    && CacheInv(c, universe, p1, WithTable(seqs, id, t1), order)
    && t1.blocks == seqs[id].table.blocks && LabelsGrow(c, p, p1, seqs[id].table, seqs[id].tokens, computed)
    && p1.lru == p.lru && p1.free == p.free && p1.refs == p.refs
  }

  lemma CommittedTwice(c: KvConfig, universe: set<seq<Token>>, p: Pool, seqs: map<Id, Sequence>, order: seq<Id>, id: Id, computed: nat, p1: Pool, t1: Table, p2: Pool, t2: Table)
    requires id in seqs && Committed(c, universe, p, seqs, order, id, computed, p1, t1)
    requires id in WithTable(seqs, id, t1) && Committed(c, universe, p1, WithTable(seqs, id, t1), order, id, computed, p2, t2)
    ensures Committed(c, universe, p, seqs, order, id, computed, p2, t2)
  {
    hide CacheInv, LabelsGrow;
    LabelsGrowTwice(c, p, p1, p2, seqs[id].table, t1, seqs[id].tokens, computed);
    WithTableTwice(seqs, id, t1, t2);
  }

  lemma CommittedOne(c: KvConfig, universe: set<seq<Token>>, p: Pool, seqs: map<Id, Sequence>, order: seq<Id>, id: Id, computed: nat)
    requires CacheInv(c, universe, p, seqs, order) && id in seqs
    requires var t := seqs[id].table; t.committed < |t.blocks| && Span(c.blockSize, t.committed + 1) <= computed <= |seqs[id].tokens|
    ensures var (p1, t0) := HashFullBlock(c, p, seqs[id].table, seqs[id].table.committed, seqs[id].tokens);
            var t1 := t0.(committed := seqs[id].table.committed + 1);
            id in WithTable(seqs, id, t1) && Committed(c, universe, p, seqs, order, id, computed, p1, t1)
  {
    hide CacheInv, LabelsGrow, HashFullBlock;
    CacheLengths(c, universe, p, seqs, order, id);
    CommitNextKeeps(c, universe, p, seqs, order, id);
    CommitOneLabels(c, p, seqs[id].table, seqs[id].tokens, computed);
  }

  lemma {:induction false} CommitKeeps(c: KvConfig, universe: set<seq<Token>>, p: Pool, seqs: map<Id, Sequence>, order: seq<Id>, id: Id, computed: nat)
    requires CacheInv(c, universe, p, seqs, order) && id in seqs && computed <= |seqs[id].tokens|
    ensures var (p1, t1) := CommitComputed(c, p, seqs[id].table, seqs[id].tokens, computed);
            Committed(c, universe, p, seqs, order, id, computed, p1, t1)
    decreases |seqs[id].table.blocks| - seqs[id].table.committed
  {
    hide *;
    var s := seqs[id];
    var t := s.table;
    CommitCases(c, p, t, s.tokens, computed);
    if c.caching && t.committed < |t.blocks| && Span(c.blockSize, t.committed + 1) <= computed {
      CommittedOne(c, universe, p, seqs, order, id, computed);
      var (p1, t0) := HashFullBlock(c, p, t, t.committed, s.tokens);
      var t1 := t0.(committed := t.committed + 1);
      CommittedParts(c, universe, p, seqs, order, id, computed, p1, t1);
      CommitKeeps(c, universe, p1, WithTable(seqs, id, t1), order, id, computed);
      var (p2, t2) := CommitComputed(c, p1, t1, s.tokens, computed);
      CommittedTwice(c, universe, p, seqs, order, id, computed, p1, t1, p2, t2);
    } else {
      CommittedSame(c, universe, p, seqs, order, id, computed);
    }
  }

  /** Block `i` was tried: its hash, chained on its predecessor's, is in the index, unless the predecessor has none. */
  ghost predicate Tried(c: KvConfig, p: Pool, t: Table, toks: seq<Token>, i: nat)
    requires i < |t.hashes|
  {
    (i == 0 || t.hashes[i - 1] != 0) ==> HashBlock(c, if i == 0 then 0 else t.hashes[i - 1], Piece(c, toks, i)) in p.hashToBlock
  }

  lemma TryOne(c: KvConfig, p: Pool, t: Table, toks: seq<Token>)
    requires c.caching && |t.hashes| == |t.blocks| && t.committed < |t.blocks|
    ensures var (p1, t1) := HashFullBlock(c, p, t, t.committed, toks);
            && t1.blocks == t.blocks && |t1.hashes| == |t.hashes| && t1.committed == t.committed
            && (forall i :: 0 <= i < |t.hashes| && i != t.committed ==> t1.hashes[i] == t.hashes[i])
            && (forall h :: h in p.hashToBlock ==> h in p1.hashToBlock) && Tried(c, p1, t1, toks, t.committed)
  {
  }

  /** Publishing goes through the blocks from `t.committed` on, trying each. */
  lemma {:induction false} CommitTries(c: KvConfig, p: Pool, t: Table, toks: seq<Token>, computed: nat)
    requires ValidConfig(c) && |t.hashes| == |t.blocks|
    ensures var (p1, t1) := CommitComputed(c, p, t, toks, computed);
            && t1.blocks == t.blocks && |t1.hashes| == |t.hashes| && t.committed <= t1.committed
            && (forall i :: 0 <= i < t.committed && i < |t.hashes| ==> t1.hashes[i] == t.hashes[i])
            && (forall h :: h in p.hashToBlock ==> h in p1.hashToBlock)
            && (forall i: nat :: t.committed <= i < t1.committed && i < |t.hashes| ==> Tried(c, p1, t1, toks, i))
    decreases |t.blocks| - t.committed
  {
    hide HashFullBlock, HashBlock, Span, Piece;
    CommitCases(c, p, t, toks, computed);
    if c.caching && t.committed < |t.blocks| && Span(c.blockSize, t.committed + 1) <= computed {
      var (p1, t0) := HashFullBlock(c, p, t, t.committed, toks);
      var t1 := t0.(committed := t.committed + 1);
      TryOne(c, p, t, toks);
      CommitTries(c, p1, t1, toks, computed);
    }
  }

  lemma {:induction false} CommitReach(c: KvConfig, p: Pool, t: Table, toks: seq<Token>, computed: nat, i: nat)
    requires ValidConfig(c) && |t.hashes| == |t.blocks| && t.committed <= i < |t.blocks|
    ensures i < CommitComputed(c, p, t, toks, computed).1.committed <==> c.caching && Span(c.blockSize, i + 1) <= computed
    decreases |t.blocks| - t.committed
  {
    hide HashFullBlock, HashBlock, Span, Piece;
    CommitCases(c, p, t, toks, computed);
    SpanMono(c.blockSize, t.committed + 1, i + 1);
    if c.caching && Span(c.blockSize, t.committed + 1) <= computed {
      TryOne(c, p, t, toks);
      var (p1, t0) := HashFullBlock(c, p, t, t.committed, toks);
      var t1 := t0.(committed := t.committed + 1);
      if i == t.committed {
        CommitTries(c, p1, t1, toks, computed);
      } else {
        CommitReach(c, p1, t1, toks, computed, i);
      }
    }
  }

  /**
   What publishing publishes: exactly the full computed blocks are tried; a tried block whose predecessor is
   hashed has its prefix published afterwards; and it stays unhashed only if somebody else had published it before.
   */
  lemma CommitPublishes(c: KvConfig, universe: set<seq<Token>>, p: Pool, seqs: map<Id, Sequence>, order: seq<Id>, id: Id, computed: nat, i: nat)
    requires CacheInv(c, universe, p, seqs, order) && id in seqs && computed <= |seqs[id].tokens|
    requires seqs[id].table.committed <= i < |seqs[id].table.blocks|
    ensures var (p1, t1) := CommitComputed(c, p, seqs[id].table, seqs[id].tokens, computed);
            && i < |t1.hashes| && (i < t1.committed <==> c.caching && Span(c.blockSize, i + 1) <= computed)
            && (i < t1.committed && (i == 0 || t1.hashes[i - 1] != 0) ==>
                  && PublishedPrefix(c, p1, seqs[id].tokens, i + 1)
                  && (t1.hashes[i] == 0 ==> PublishedPrefix(c, p, seqs[id].tokens, i + 1)))
  {
    hide *;
    var s := seqs[id];
    OpenCache(c, universe, p, seqs, order);
    CacheLengths(c, universe, p, seqs, order, id);
    CommitTries(c, p, s.table, s.tokens, computed);
    CommitReach(c, p, s.table, s.tokens, computed, i);
    CommitKeeps(c, universe, p, seqs, order, id, computed);
    var (p1, t1) := CommitComputed(c, p, s.table, s.tokens, computed);
    CommittedParts(c, universe, p, seqs, order, id, computed, p1, t1);
    if i < t1.committed && (i == 0 || t1.hashes[i - 1] != 0) {
      var seqs1 := WithTable(seqs, id, t1);
      OpenCache(c, universe, p1, seqs1, order);
      PublishedParts(c, universe, p1);
      InPlayOf(universe, seqs1, id);
      assert TableInv(c, p1, seqs1[id].table, seqs1[id].tokens) by { TableOf(c, p1, seqs1, id); }
      TriedIsHit(c, p1, t1, s.tokens, i);
      HitLabel(c, universe, p1, s.tokens, i + 1);
      var b := p1.hashToBlock[Chain(c, s.tokens, i + 1)];
      PublishedBy(c, p1, s.tokens, i + 1, b);
      if t1.hashes[i] == 0 {
        WonBefore(c, p, p1, s.table, t1, s.tokens, computed, i, b);
      }
    }
  }

  lemma TriedIsHit(c: KvConfig, p: Pool, t: Table, toks: seq<Token>, i: nat)
    requires i < |t.hashes| && Tried(c, p, t, toks, i) && (i == 0 || t.hashes[i - 1] != 0) && TableInv(c, p, t, toks)
    ensures Chain(c, toks, i + 1) in p.hashToBlock
  {
    if i > 0 { assert HashedEntry(c, t, i - 1, toks); }
  }

  /** If the block itself got no hash, the prefix was published before. */
  lemma WonBefore(c: KvConfig, p: Pool, p1: Pool, t: Table, t1: Table, toks: seq<Token>, computed: nat, i: nat, b: Block)
    requires ValidConfig(c) && LabelsGrow(c, p, p1, t, toks, computed) && TableInv(c, p1, t1, toks) && HashIndexInv(c, p1) && t1.blocks == t.blocks
    requires i < |t1.hashes| && t1.hashes[i] == 0 && b in p1.labels && Span(c.blockSize, i + 1) <= |toks| && p1.labels[b] == toks[..Span(c.blockSize, i + 1)]
    ensures PublishedPrefix(c, p, toks, i + 1)
  {
    hide Span;
    if !(b in p.labels && p1.labels[b] == p.labels[b]) {
      var j: nat :| NewLabel(c, t, toks, computed, p1, b, j);
      assert |p1.labels[b]| == Span(c.blockSize, j + 1) == Span(c.blockSize, i + 1);
      SpanUnique(c.blockSize, i + 1, 0, j + 1, 0);
      assert false;
    }
  }

  lemma CommittedParts(c: KvConfig, universe: set<seq<Token>>, p: Pool, seqs: map<Id, Sequence>, order: seq<Id>, id: Id, computed: nat, p1: Pool, t1: Table)
    requires id in seqs && Committed(c, universe, p, seqs, order, id, computed, p1, t1)
    ensures CacheInv(c, universe, p1, WithTable(seqs, id, t1), order)
    ensures id in WithTable(seqs, id, t1) && WithTable(seqs, id, t1)[id] == seqs[id].(table := t1)
    ensures t1.blocks == seqs[id].table.blocks && LabelsGrow(c, p, p1, seqs[id].table, seqs[id].tokens, computed)
    ensures p1.lru == p.lru && p1.free == p.free && p1.refs == p.refs
  {
  }

  lemma CommittedSame(c: KvConfig, universe: set<seq<Token>>, p: Pool, seqs: map<Id, Sequence>, order: seq<Id>, id: Id, computed: nat)
    requires CacheInv(c, universe, p, seqs, order) && id in seqs
    ensures Committed(c, universe, p, seqs, order, id, computed, p, seqs[id].table)
  {
    WithSameTable(seqs, id);
  }

  lemma CommitCases(c: KvConfig, p: Pool, t: Table, toks: seq<Token>, computed: nat)
    ensures var (p1, t1) := HashFullBlock(c, p, t, t.committed, toks);
            CommitComputed(c, p, t, toks, computed) ==
            if c.caching && t.committed < |t.blocks| && Span(c.blockSize, t.committed + 1) <= computed
            then CommitComputed(c, p1, t1.(committed := t.committed + 1), toks, computed) else (p, t)
  {
    hide HashFullBlock, Span;
  }

  // ---- lookup_cached_prefix and allocate_prompt ----

  lemma {:induction false} WalkHits(c: KvConfig, p: Pool, toks: seq<Token>, i: nat, j: nat)
    requires ValidConfig(c) && i <= j < i + Walk(c, p, toks, i)
    ensures Span(c.blockSize, j + 1) <= |toks| && Chain(c, toks, j + 1) in p.hashToBlock
    decreases j - i
  {
    if i < j {
      WalkHits(c, p, toks, i + 1, j);
    } else {
      FullBlocks(c.blockSize, |toks|, j + 1);
    }
  }

  lemma {:induction false} WalkStops(c: KvConfig, p: Pool, toks: seq<Token>, i: nat)
    requires ValidConfig(c)
    ensures var k := i + Walk(c, p, toks, i); Span(c.blockSize, k + 1) <= |toks| ==> Chain(c, toks, k + 1) !in p.hashToBlock
    decreases Quot(c.blockSize, |toks|) - i
  {
    if i < Quot(c.blockSize, |toks|) && Chain(c, toks, i + 1) in p.hashToBlock {
      WalkStops(c, p, toks, i + 1);
    } else {
      FullBlocks(c.blockSize, |toks|, i + 1);
    }
  }

  /** The block-aligned prefix of length `k` blocks is published. */
  ghost predicate PublishedPrefix(c: KvConfig, p: Pool, toks: seq<Token>, k: nat) {
    Span(c.blockSize, k) <= |toks| && exists b :: b in p.labels && p.labels[b] == toks[..Span(c.blockSize, k)]
  }

  lemma PublishedParent(c: KvConfig, universe: set<seq<Token>>, p: Pool, toks: seq<Token>, k: nat)
    requires ValidConfig(c) && LabelsInv(c, universe, p) && Closed(c, p) && k >= 1 && PublishedPrefix(c, p, toks, k + 1)
    ensures PublishedPrefix(c, p, toks, k)
  {
    var b :| b in p.labels && p.labels[b] == toks[..Span(c.blockSize, k + 1)];
    SpanMono(c.blockSize, 1, k);
    assert HasParent(c, p, b);
    var a :| a in p.labels && IsChild(c, p.labels[b], p.labels[a]);
    ParentLevel(c, universe, p, toks, k, a);
  }

  lemma {:induction false} PublishedDown(c: KvConfig, universe: set<seq<Token>>, p: Pool, toks: seq<Token>, j: nat, k: nat)
    requires ValidConfig(c) && LabelsInv(c, universe, p) && Closed(c, p) && 1 <= j <= k && PublishedPrefix(c, p, toks, k)
    ensures PublishedPrefix(c, p, toks, j)
    decreases k - j
  {
    hide *;
    if j < k {
      PublishedParent(c, universe, p, toks, k - 1);
      PublishedDown(c, universe, p, toks, j, k - 1);
    }
  }

  /**
   `lookup_cached_prefix` counts exactly the published full-block prefixes: block `k` is counted
   if and only if the prefix of `k` blocks is published, wherever in the pool it is.
   */
  lemma LookupExact(c: KvConfig, universe: set<seq<Token>>, p: Pool, seqs: map<Id, Sequence>, order: seq<Id>, toks: seq<Token>, k: nat)
    requires CacheInv(c, universe, p, seqs, order) && InPlay(universe, toks) && k >= 1
    ensures k <= CachedBlocks(c, p, toks) <==> PublishedPrefix(c, p, toks, k)
    ensures LookupCachedPrefix(c, p, toks) == Span(c.blockSize, CachedBlocks(c, p, toks))
  {
    hide *;
    OpenCache(c, universe, p, seqs, order);
    PublishedParts(c, universe, p);
    CachedPrefixIs(c, p, toks);
    if k <= CachedBlocks(c, p, toks) {
      CachedHit(c, p, toks, k - 1);
      HitLabel(c, universe, p, toks, k);
      PublishedBy(c, p, toks, k, p.hashToBlock[Chain(c, toks, k)]);
    } else if PublishedPrefix(c, p, toks, k) {
      PublishedDown(c, universe, p, toks, CachedBlocks(c, p, toks) + 1, k);
      MissedPrefix(c, universe, p, toks);
    }
  }

  lemma CachedPrefixIs(c: KvConfig, p: Pool, toks: seq<Token>)
    requires ValidConfig(c)
    ensures LookupCachedPrefix(c, p, toks) == Span(c.blockSize, CachedBlocks(c, p, toks))
  {
  }

  lemma PublishedBy(c: KvConfig, p: Pool, toks: seq<Token>, k: nat, b: Block)
    requires Span(c.blockSize, k) <= |toks| && b in p.labels && p.labels[b] == toks[..Span(c.blockSize, k)]
    ensures PublishedPrefix(c, p, toks, k)
  {
  }

  /** The prefix one block longer than the lookup's answer is not published. */
  lemma MissedPrefix(c: KvConfig, universe: set<seq<Token>>, p: Pool, toks: seq<Token>)
    requires ValidConfig(c) && LabelsInv(c, universe, p) && HashIndexInv(c, p)
    ensures !PublishedPrefix(c, p, toks, CachedBlocks(c, p, toks) + 1)
  {
    hide LabelsInv, Walk, Span, Chain, HashIndexInv;
    var m := CachedBlocks(c, p, toks);
    if PublishedPrefix(c, p, toks, m + 1) {
      var b :| b in p.labels && p.labels[b] == toks[..Span(c.blockSize, m + 1)];
      PublishedIsHit(c, universe, p, toks, m + 1, b);
      CachingOn(c, p, Chain(c, toks, m + 1));
      WalkStops(c, p, toks, 0);
      assert false;
    }
  }

  lemma CachingOn(c: KvConfig, p: Pool, h: Hash)
    requires HashIndexInv(c, p) && h in p.hashToBlock
    ensures c.caching
  {
    assert Get(p.blockHash, p.hashToBlock[h]) == h;
  }

  /** After adopting `k` hits: the table is exactly those hits and nothing published moved. */
  ghost predicate Adopted(c: KvConfig, universe: set<seq<Token>>, p: Pool, seqs: map<Id, Sequence>, order: seq<Id>, id: Id, k: nat, p1: Pool, t1: Table)
    requires id in seqs
  {
    && CacheInv(c, universe, p1, WithTable(seqs, id, t1), order)
    && |t1.blocks| == k && |t1.hashes| == k && t1.committed == k && (k > 0 ==> t1.hashes[k - 1] != 0)
    && p1.hashToBlock == p.hashToBlock && p1.labels == p.labels && p1.blockHash == p.blockHash
    && Available(p1) + LruHits(c, p, seqs[id].tokens, k) == Available(p)
    && (forall b :: b in p.labels && |p.labels[b]| > Span(c.blockSize, k) ==> Get(p1.refs, b) == Get(p.refs, b))
  }

  lemma AdoptedNext(c: KvConfig, universe: set<seq<Token>>, p: Pool, seqs: map<Id, Sequence>, order: seq<Id>, id: Id, k: nat, p1: Pool, t1: Table)
    requires id in seqs && CacheInv(c, universe, p, seqs, order) && Adopted(c, universe, p, seqs, order, id, k, p1, t1)
    requires Span(c.blockSize, k + 1) <= |seqs[id].tokens| && Chain(c, seqs[id].tokens, k + 1) in p.hashToBlock
    ensures var b := HitBlock(c, p, seqs[id].tokens, k);
            Adopted(c, universe, p, seqs, order, id, k + 1, Share(p1, b), Append(t1, b, Chain(c, seqs[id].tokens, k + 1)).(committed := k + 1))
  {
    hide CacheInv, Chain, Share, HitBlock, Append, Span, LruHits;
    var toks := seqs[id].tokens;
    var b := HitBlock(c, p, toks, k);
    AdoptedNextCache(c, universe, p, seqs, order, id, k, p1, t1);
    HitFacts(c, universe, p, seqs, order, id, k);
    ShareCounts(c, universe, p1, WithTable(seqs, id, t1), order, b);
    ShareFacts(p1, b);
    LruHitsNext(c, p, toks, k);
    AppendFacts(t1, b, Chain(c, toks, k + 1));
  }

  lemma ShareFacts(p: Pool, b: Block)
    ensures var p1 := Share(p, b); p1.hashToBlock == p.hashToBlock && p1.labels == p.labels && p1.blockHash == p.blockHash
  {
  }

  lemma AppendFacts(t: Table, b: Block, h: Hash)
    ensures var t1 := Append(t, b, h); t1.blocks == t.blocks + [b] && t1.hashes == t.hashes + [h]
  {
  }

  lemma LruHitsNext(c: KvConfig, p: Pool, toks: seq<Token>, k: nat)
    ensures LruHits(c, p, toks, k + 1) == LruHits(c, p, toks, k) + if Get(p.refs, HitBlock(c, p, toks, k)) == 0 then 1 else 0
    ensures Chain(c, toks, k + 1) != 0
  {
  }

  lemma AdoptedNextCache(c: KvConfig, universe: set<seq<Token>>, p: Pool, seqs: map<Id, Sequence>, order: seq<Id>, id: Id, k: nat, p1: Pool, t1: Table)
    requires id in seqs && Adopted(c, universe, p, seqs, order, id, k, p1, t1)
    requires Span(c.blockSize, k + 1) <= |seqs[id].tokens| && Chain(c, seqs[id].tokens, k + 1) in p.hashToBlock
    ensures var b := HitBlock(c, p, seqs[id].tokens, k);
            CacheInv(c, universe, Share(p1, b), WithTable(seqs, id, Append(t1, b, Chain(c, seqs[id].tokens, k + 1)).(committed := k + 1)), order)
  {
    hide CacheInv, Chain, Share, Append, Span, LruHits;
    var seqs1 := WithTable(seqs, id, t1);
    ShareNextKeeps(c, universe, p1, seqs1, order, id);
    WithTableTwice(seqs, id, t1, AppendHit(c, p1, seqs1[id]));
  }

  lemma HitFacts(c: KvConfig, universe: set<seq<Token>>, p: Pool, seqs: map<Id, Sequence>, order: seq<Id>, id: Id, k: nat)
    requires id in seqs && CacheInv(c, universe, p, seqs, order)
    requires Span(c.blockSize, k + 1) <= |seqs[id].tokens| && Chain(c, seqs[id].tokens, k + 1) in p.hashToBlock
    ensures var b := HitBlock(c, p, seqs[id].tokens, k);
            b in p.labels && |p.labels[b]| == Span(c.blockSize, k + 1) > Span(c.blockSize, k) && Get(p.blockHash, b) != 0
  {
    hide *;
    OpenCache(c, universe, p, seqs, order);
    PublishedParts(c, universe, p);
    InPlayOf(universe, seqs, id);
    HitLabel(c, universe, p, seqs[id].tokens, k + 1);
    HitIs(c, p, seqs[id].tokens, k);
  }

  lemma HitIs(c: KvConfig, p: Pool, toks: seq<Token>, k: nat)
    requires ValidConfig(c) && HashIndexInv(c, p) && Chain(c, toks, k + 1) in p.hashToBlock
    ensures HitBlock(c, p, toks, k) == p.hashToBlock[Chain(c, toks, k + 1)] && Get(p.blockHash, HitBlock(c, p, toks, k)) != 0
    ensures Span(c.blockSize, k + 1) > Span(c.blockSize, k)
  {
  }

  lemma ShareCounts(c: KvConfig, universe: set<seq<Token>>, p: Pool, seqs: map<Id, Sequence>, order: seq<Id>, b: Block)
    requires CacheInv(c, universe, p, seqs, order) && Get(p.blockHash, b) != 0
    ensures Available(Share(p, b)) == Available(p) - if Get(p.refs, b) == 0 then 1 else 0
    ensures forall x: nat :: x != b ==> Get(Share(p, b).refs, x) == Get(p.refs, x)
  {
    hide CacheInv, PublishedInv, NoCollision, KvInv, TablesInv, AllEntryLabels, AllInPlay, OrderInv, PoolInv, ListsInv, CountInv, HashIndexInv;
    OpenCache(c, universe, p, seqs, order);
    ShareKeepsInv(c, p, Owned(seqs, order), b);
  }

  lemma {:induction false} AdoptHitsKeeps(c: KvConfig, universe: set<seq<Token>>, p: Pool, seqs: map<Id, Sequence>, order: seq<Id>, id: Id, k: nat)
    requires id in seqs && seqs[id].table == EmptyTable && CacheInv(c, universe, p, seqs, order)
    requires k <= CachedBlocks(c, p, seqs[id].tokens)
    ensures var (p1, t1) := AdoptHits(c, p, seqs[id].tokens, k); Adopted(c, universe, p, seqs, order, id, k, p1, t1)
  {
    hide CacheInv, Chain, Share, HitBlock, Adopted, CachedBlocks;
    if k > 0 {
      AdoptHitsKeeps(c, universe, p, seqs, order, id, k - 1);
      var (p1, t1) := AdoptHits(c, p, seqs[id].tokens, k - 1);
      CacheLengths(c, universe, p, seqs, order, id);
      CachedHit(c, p, seqs[id].tokens, k - 1);
      AdoptedNext(c, universe, p, seqs, order, id, k - 1, p1, t1);
    } else {
      AdoptedNone(c, universe, p, seqs, order, id);
    }
  }

  lemma CachedHit(c: KvConfig, p: Pool, toks: seq<Token>, j: nat)
    requires ValidConfig(c) && j < CachedBlocks(c, p, toks)
    ensures Span(c.blockSize, j + 1) <= |toks| && Chain(c, toks, j + 1) in p.hashToBlock
  {
    WalkHits(c, p, toks, 0, j);
  }

  lemma AdoptedNone(c: KvConfig, universe: set<seq<Token>>, p: Pool, seqs: map<Id, Sequence>, order: seq<Id>, id: Id)
    requires id in seqs && seqs[id].table == EmptyTable && CacheInv(c, universe, p, seqs, order)
    ensures Adopted(c, universe, p, seqs, order, id, 0, p, EmptyTable)
  {
    hide CacheInv;
    WithSameTable(seqs, id);
  }

  /** After taking `m` fresh blocks on top of table `t`. */
  ghost predicate Extended(c: KvConfig, universe: set<seq<Token>>, p: Pool, seqs: map<Id, Sequence>, order: seq<Id>, id: Id, t: Table, m: nat, p1: Pool, t1: Table)
    requires id in seqs
  {
    && CacheInv(c, universe, p1, WithTable(seqs, id, t1), order)
    && |t1.blocks| == |t.blocks| + m && t.blocks <= t1.blocks && t.hashes <= t1.hashes && t1.committed == t.committed
    && (forall i :: |t.hashes| <= i < |t1.hashes| ==> t1.hashes[i] == 0)
    && Available(p1) == Available(p) - m
    && (forall b :: b in p1.labels ==> b in p.labels && p1.labels[b] == p.labels[b])
  }

  lemma {:induction false} TakeFreshKeeps(c: KvConfig, universe: set<seq<Token>>, p: Pool, seqs: map<Id, Sequence>, order: seq<Id>, id: Id, m: nat)
    requires id in seqs && m <= Available(p) && CacheInv(c, universe, p, seqs, order)
    ensures var (p1, t1) := TakeFresh(p, seqs[id].table, m); Extended(c, universe, p, seqs, order, id, seqs[id].table, m, p1, t1)
  {
    hide CacheInv, TakeBlock, Own, Extended, Append;
    var t := seqs[id].table;
    if m > 0 {
      TakeFreshKeeps(c, universe, p, seqs, order, id, m - 1);
      var (p1, t1) := TakeFresh(p, t, m - 1);
      ExtendedNext(c, universe, p, seqs, order, id, t, m - 1, p1, t1);
    } else {
      ExtendedNone(c, universe, p, seqs, order, id);
    }
  }

  lemma ExtendedNone(c: KvConfig, universe: set<seq<Token>>, p: Pool, seqs: map<Id, Sequence>, order: seq<Id>, id: Id)
    requires id in seqs && CacheInv(c, universe, p, seqs, order)
    ensures Extended(c, universe, p, seqs, order, id, seqs[id].table, 0, p, seqs[id].table)
  {
    hide CacheInv;
    WithSameTable(seqs, id);
  }

  lemma ExtendedNext(c: KvConfig, universe: set<seq<Token>>, p: Pool, seqs: map<Id, Sequence>, order: seq<Id>, id: Id, t: Table, m: nat, p1: Pool, t1: Table)
    requires id in seqs && m < Available(p) && Extended(c, universe, p, seqs, order, id, t, m, p1, t1)
    ensures TakeBlock(p1).1.Some?
    ensures var b := TakeBlock(p1).1.value; Extended(c, universe, p, seqs, order, id, t, m + 1, Own(TakeBlock(p1).0, b), Append(t1, b, 0))
  {
    hide CacheInv, TakeBlock, Own;
    var seqs1 := WithTable(seqs, id, t1);
    TakeFacts(c, universe, p1, seqs1, order);
    GrowKeeps(c, universe, p1, seqs1, order, id);
    WithTableTwice(seqs, id, t1, Append(t1, TakeBlock(p1).1.value, 0));
  }

  /** The outcome of `allocate_prompt`. */
  ghost predicate Allocated(c: KvConfig, universe: set<seq<Token>>, p: Pool, seqs: map<Id, Sequence>, order: seq<Id>, id: Id, p2: Pool, t2: Table, cached: nat)
    requires ValidConfig(c) && id in seqs
  {
    && CacheInv(c, universe, p2, WithTable(seqs, id, t2), order)
    && cached == CachedBlocks(c, p, seqs[id].tokens) && cached <= |t2.blocks| == BlocksNeeded(c, |seqs[id].tokens|)
    && t2.committed == cached && |t2.hashes| == |t2.blocks|
    && (forall i :: 0 <= i < |t2.hashes| ==> (t2.hashes[i] != 0 <==> i < cached))
    && Available(p2) + (|t2.blocks| - cached) + LruHits(c, p, seqs[id].tokens, cached) == Available(p)
    && (forall b :: b in p2.labels ==> b in p.labels && p2.labels[b] == p.labels[b])
  }

  /**
   `allocate_prompt` is all or nothing. It fails, changing nothing, exactly when the blocks it would
   have to allocate exceed what is available besides its own cached hits; otherwise it returns a full
   table whose hashed entries are exactly the cached prefix, and the pool shrinks by exactly the fresh
   blocks plus the hits that were sitting in the LRU list.
   */
  lemma AllocatePromptKeeps(c: KvConfig, universe: set<seq<Token>>, p: Pool, seqs: map<Id, Sequence>, order: seq<Id>, id: Id)
    requires id in seqs && seqs[id].table == EmptyTable && CacheInv(c, universe, p, seqs, order)
    ensures var toks := seqs[id].tokens; var cached := CachedBlocks(c, p, toks); var (p2, t2, r) := AllocatePrompt(c, p, toks);
            && (r.None? <==> BlocksNeeded(c, |toks|) - cached > Available(p) - LruHits(c, p, toks, cached))
            && (r.None? ==> p2 == p && t2 == EmptyTable)
            && (r.Some? ==> r.value == Span(c.blockSize, cached) && Allocated(c, universe, p, seqs, order, id, p2, t2, cached))
  {
    hide *;
    var toks := seqs[id].tokens;
    CacheLengths(c, universe, p, seqs, order, id);
    var needed := BlocksNeeded(c, |toks|);
    var cached := CachedBlocks(c, p, toks);
    CachedFits(c, p, toks);
    AllocateCases(c, p, toks);
    if needed - cached <= Available(p) - LruHits(c, p, toks, cached) {
      AdoptHitsKeeps(c, universe, p, seqs, order, id, cached);
      var (p1, t1) := AdoptHits(c, p, toks, cached);
      AdoptedParts(c, universe, p, seqs, order, id, cached, p1, t1);
      TakeFreshKeeps(c, universe, p1, WithTable(seqs, id, t1), order, id, needed - cached);
      var (p2, t2) := TakeFresh(p1, t1, needed - cached);
      AllocatedNow(c, universe, p, seqs, order, id, p1, t1, p2, t2);
    }
  }

  lemma AllocateCases(c: KvConfig, p: Pool, toks: seq<Token>)
    requires ValidConfig(c) && CachedBlocks(c, p, toks) <= BlocksNeeded(c, |toks|)
    ensures var needed := BlocksNeeded(c, |toks|); var cached := CachedBlocks(c, p, toks);
            var (p1, t1) := AdoptHits(c, p, toks, cached); var (p2, t2) := TakeFresh(p1, t1, needed - cached);
            AllocatePrompt(c, p, toks) ==
            if needed - cached > Available(p) - LruHits(c, p, toks, cached) then (p, EmptyTable, None)
            else (p2, t2.(committed := cached), Some(Span(c.blockSize, cached)))
  {
    hide AdoptHits, TakeFresh, CachedBlocks, LruHits, BlocksNeeded, Span;
  }

  lemma AdoptedParts(c: KvConfig, universe: set<seq<Token>>, p: Pool, seqs: map<Id, Sequence>, order: seq<Id>, id: Id, k: nat, p1: Pool, t1: Table)
    requires id in seqs && Adopted(c, universe, p, seqs, order, id, k, p1, t1)
    ensures id in WithTable(seqs, id, t1) && WithTable(seqs, id, t1)[id].table == t1
    ensures CacheInv(c, universe, p1, WithTable(seqs, id, t1), order)
    ensures Available(p1) + LruHits(c, p, seqs[id].tokens, k) == Available(p)
  {
    hide CacheInv;
  }

  lemma CachedFits(c: KvConfig, p: Pool, toks: seq<Token>)
    requires ValidConfig(c)
    ensures CachedBlocks(c, p, toks) <= BlocksNeeded(c, |toks|)
  {
    var k := CachedBlocks(c, p, toks);
    if k > 0 {
      CachedHit(c, p, toks, k - 1);
      BlocksForFits(c.blockSize, |toks|, k - 1);
    }
  }

  lemma {:induction false} AllHashed(c: KvConfig, p: Pool, t: Table, toks: seq<Token>, i: nat, k: nat)
    requires TableInv(c, p, t, toks) && i <= k < |t.hashes| && t.hashes[k] != 0
    ensures t.hashes[i] != 0
    decreases k - i
  {
    if i < k {
      assert HashedEntry(c, t, k, toks);
      AllHashed(c, p, t, toks, i, k - 1);
    }
  }

  lemma AllocatedNow(c: KvConfig, universe: set<seq<Token>>, p: Pool, seqs: map<Id, Sequence>, order: seq<Id>, id: Id, p1: Pool, t1: Table, p2: Pool, t2: Table)
    requires ValidConfig(c) && id in seqs
    requires var cached := CachedBlocks(c, p, seqs[id].tokens); var needed := BlocksNeeded(c, |seqs[id].tokens|);
             && cached <= needed && Adopted(c, universe, p, seqs, order, id, cached, p1, t1)
             && id in WithTable(seqs, id, t1)
             && Extended(c, universe, p1, WithTable(seqs, id, t1), order, id, t1, needed - cached, p2, t2)
    ensures Allocated(c, universe, p, seqs, order, id, p2, t2, CachedBlocks(c, p, seqs[id].tokens))
    ensures t2.committed == CachedBlocks(c, p, seqs[id].tokens)
  {
    hide CacheInv, CachedBlocks, BlocksNeeded, LruHits, Span;
    var cached := CachedBlocks(c, p, seqs[id].tokens);
    WithTableTwice(seqs, id, t1, t2);
    CacheLengths(c, universe, p2, WithTable(seqs, id, t2), order, id);
    forall i | 0 <= i < |t2.hashes| ensures t2.hashes[i] != 0 <==> i < cached {
      if i < cached {
        HashedBelow(c, universe, p1, WithTable(seqs, id, t1), order, id, i);
      }
    }
  }

  lemma HashedBelow(c: KvConfig, universe: set<seq<Token>>, p: Pool, seqs: map<Id, Sequence>, order: seq<Id>, id: Id, i: nat)
    requires id in seqs && CacheInv(c, universe, p, seqs, order)
    requires var t := seqs[id].table; i < |t.hashes| && t.hashes[|t.hashes| - 1] != 0
    ensures seqs[id].table.hashes[i] != 0
  {
    hide *;
    OpenCache(c, universe, p, seqs, order);
    TableOf(c, p, seqs, id);
    AllHashed(c, p, seqs[id].table, seqs[id].tokens, i, |seqs[id].table.hashes| - 1);
  }
}
