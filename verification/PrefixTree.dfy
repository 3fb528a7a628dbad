/**
 The published blocks seen as a tree of token prefixes. Under the hypothesis that the chained
 hash does not collide on the prefixes in play, every published block stands for one prefix,
 parents of published prefixes are published, whoever owns a child owns its parent, and in the
 LRU list a child always comes before its parent, so eviction removes leaves first.
 */
module PrefixTree {
  import opened Lists
  import opened Paging
  import opened BlockPool
  import opened Requests
  import opened PrefixCache

  /** `x` is a prefix of one of the token sequences the run can produce. */
  ghost predicate InPlay(universe: set<seq<Token>>, x: seq<Token>) {
    exists u :: u in universe && x <= u
  }

  /** The hypothesis on the hash, needed only with prefix caching on: distinct block-aligned prefixes in play have distinct chained hashes. */
  ghost predicate NoCollision(c: KvConfig, universe: set<seq<Token>>) {
    c.caching ==> forall x, y, h, j: nat, k: nat ::
      InPlay(universe, x) && InPlay(universe, y) && LabelAt(c, x, h, j) && LabelAt(c, y, h, k) ==> x == y
  }

  ghost predicate LabelAt(c: KvConfig, x: seq<Token>, h: Hash, k: nat) {
    k >= 1 && |x| == Span(c.blockSize, k) && h == Chain(c, x, k)
  }

  /** The block hash tells previous hashes and block contents apart. */
  ghost predicate Injective(c: KvConfig) {
    forall g: Hash, h: Hash, a: seq<Token>, b: seq<Token> :: HashBlock(c, g, a) == HashBlock(c, h, b) ==> g == h && a == b
  }

  /** Chaining adds no collision of its own: a hash without collisions has none on any set of prefixes. */
  lemma ChainAddsNone(c: KvConfig, universe: set<seq<Token>>)
    requires ValidConfig(c) && Injective(c)
    ensures NoCollision(c, universe)
  {
    hide Injective, InPlay;
    forall x, y, h, j: nat, k: nat | InPlay(universe, x) && InPlay(universe, y) && LabelAt(c, x, h, j) && LabelAt(c, y, h, k) ensures x == y {
      ChainInjective(c, x, y, j, k);
      SpanIs(c.blockSize, x, j);
      SpanIs(c.blockSize, y, k);
    }
  }

  lemma SpanIs(bs: nat, x: seq<Token>, k: nat)
    requires |x| == Span(bs, k)
    ensures x[..Span(bs, k)] == x
  {
  }

  lemma {:induction false} ChainInjective(c: KvConfig, x: seq<Token>, y: seq<Token>, j: nat, k: nat)
    requires ValidConfig(c) && Injective(c) && Span(c.blockSize, j) <= |x| && Span(c.blockSize, k) <= |y| && Chain(c, x, j) == Chain(c, y, k)
    ensures j == k && x[..Span(c.blockSize, j)] == y[..Span(c.blockSize, k)]
  {
    hide HashBlock;
    if j > 0 && k > 0 {
      assert HashBlock(c, Chain(c, x, j - 1), Piece(c, x, j - 1)) == HashBlock(c, Chain(c, y, k - 1), Piece(c, y, k - 1));
      ChainInjective(c, x, y, j - 1, k - 1);
      assert x[..Span(c.blockSize, j)] == x[..Span(c.blockSize, j - 1)] + Piece(c, x, j - 1);
      assert y[..Span(c.blockSize, k)] == y[..Span(c.blockSize, k - 1)] + Piece(c, y, k - 1);
    }
  }

  ghost predicate LabelOk(c: KvConfig, universe: set<seq<Token>>, x: seq<Token>, h: Hash) {
    InPlay(universe, x) && exists k: nat :: LabelAt(c, x, h, k)
  }

  /** `y` extends `x` by exactly one block. */
  ghost predicate IsChild(c: KvConfig, y: seq<Token>, x: seq<Token>) {
    |y| == |x| + c.blockSize && x <= y
  }

  ghost predicate LabelsInv(c: KvConfig, universe: set<seq<Token>>, p: Pool) {
    forall b :: b in p.labels ==> LabelOk(c, universe, p.labels[b], Get(p.blockHash, b))
  }

  /** A hashed table entry holds the block published for exactly this sequence's prefix. */
  ghost predicate EntryLabels(c: KvConfig, p: Pool, t: Table, toks: seq<Token>) {
    forall i: nat :: i < |t.blocks| && i < |t.hashes| && t.hashes[i] != 0 ==>
      t.blocks[i] in p.labels && Span(c.blockSize, i + 1) <= |toks| && p.labels[t.blocks[i]] == toks[..Span(c.blockSize, i + 1)]
  }

  ghost predicate AllEntryLabels(c: KvConfig, p: Pool, seqs: map<Id, Sequence>) {
    forall id :: id in seqs ==> EntryLabels(c, p, seqs[id].table, seqs[id].tokens)
  }

  /** The prefix cache is prefix-closed. */
  ghost predicate Closed(c: KvConfig, p: Pool) {
    forall b :: b in p.labels && |p.labels[b]| > c.blockSize ==> HasParent(c, p, b)
  }

  ghost predicate HasParent(c: KvConfig, p: Pool, b: Block)
    requires b in p.labels
  {
    exists a :: a in p.labels && IsChild(c, p.labels[b], p.labels[a])
  }

  /** Children of a cached block are cached too, and will be evicted earlier. */
  ghost predicate LruOrder(c: KvConfig, p: Pool) {
    forall j, y :: 0 <= j < |p.lru| && y in p.labels && p.lru[j] in p.labels && IsChild(c, p.labels[y], p.labels[p.lru[j]]) ==>
      y in p.lru[..j]
  }

  ghost predicate TreeInv(c: KvConfig, universe: set<seq<Token>>, p: Pool, seqs: map<Id, Sequence>) {
    LabelsInv(c, universe, p) && AllEntryLabels(c, p, seqs) && Closed(c, p) && LruOrder(c, p)
  }

  /** All of the above, for a run whose sequences stay inside `universe`. */
  ghost predicate CacheInv(c: KvConfig, universe: set<seq<Token>>, p: Pool, seqs: map<Id, Sequence>, order: seq<Id>) {
    && ValidConfig(c) && NoCollision(c, universe)
    && KvInv(c, p, seqs, order)
    && TreeInv(c, universe, p, seqs)
    && AllInPlay(universe, seqs)
  }

  ghost predicate AllInPlay(universe: set<seq<Token>>, seqs: map<Id, Sequence>) {
    forall id :: id in seqs ==> InPlay(universe, seqs[id].tokens)
  }

  /** The published side of the invariant, which no table is needed for. */
  ghost predicate PublishedInv(c: KvConfig, universe: set<seq<Token>>, p: Pool) {
    LabelsInv(c, universe, p) && Closed(c, p) && LruOrder(c, p)
  }

  lemma OpenCache(c: KvConfig, universe: set<seq<Token>>, p: Pool, seqs: map<Id, Sequence>, order: seq<Id>)
    requires CacheInv(c, universe, p, seqs, order)
    ensures ValidConfig(c) && NoCollision(c, universe) && KvInv(c, p, seqs, order)
    ensures PoolInv(c, p, Owned(seqs, order)) && TablesInv(c, p, seqs) && OrderInv(seqs, order)
    ensures ListsInv(c, p) && HashIndexInv(c, p) && CountInv(p, Owned(seqs, order))
    ensures PublishedInv(c, universe, p) && AllEntryLabels(c, p, seqs) && AllInPlay(universe, seqs)
  {
  }

  lemma CloseCache(c: KvConfig, universe: set<seq<Token>>, p: Pool, seqs: map<Id, Sequence>, order: seq<Id>)
    requires ValidConfig(c) && NoCollision(c, universe) && KvInv(c, p, seqs, order)
    requires PublishedInv(c, universe, p) && AllEntryLabels(c, p, seqs) && AllInPlay(universe, seqs)
    ensures CacheInv(c, universe, p, seqs, order)
  {
  }

  // ---- basic facts ----

  lemma LabelsInjective(c: KvConfig, universe: set<seq<Token>>, p: Pool, a: Block, b: Block)
    requires ValidConfig(c) && LabelsInv(c, universe, p) && HashIndexInv(c, p)
    requires a in p.labels && b in p.labels && p.labels[a] == p.labels[b]
    ensures a == b
  {
    var x := p.labels[a];
    assert LabelOk(c, universe, x, Get(p.blockHash, a)) && LabelOk(c, universe, x, Get(p.blockHash, b));
    var j: nat :| LabelAt(c, x, Get(p.blockHash, a), j);
    var k: nat :| LabelAt(c, x, Get(p.blockHash, b), k);
    SpanUnique(c.blockSize, j, 0, k, 0);
  }

  lemma InPlayPrefix(universe: set<seq<Token>>, x: seq<Token>, y: seq<Token>)
    requires InPlay(universe, y) && x <= y
    ensures InPlay(universe, x)
  {
    var u :| u in universe && y <= u;
    assert x <= u;
  }

  /** A hash hit is a content hit. */
  lemma HitLabel(c: KvConfig, universe: set<seq<Token>>, p: Pool, toks: seq<Token>, k: nat)
    requires ValidConfig(c) && NoCollision(c, universe) && LabelsInv(c, universe, p) && HashIndexInv(c, p)
    requires InPlay(universe, toks) && k >= 1 && Span(c.blockSize, k) <= |toks| && Chain(c, toks, k) in p.hashToBlock
    ensures var b := p.hashToBlock[Chain(c, toks, k)]; b in p.labels && p.labels[b] == toks[..Span(c.blockSize, k)]
  {
    var b := p.hashToBlock[Chain(c, toks, k)];
    var x := toks[..Span(c.blockSize, k)];
    InPlayPrefix(universe, x, toks);
    ChainPrefix(c, x, toks, k);
    assert LabelOk(c, universe, p.labels[b], Get(p.blockHash, b));
    var j: nat :| LabelAt(c, p.labels[b], Get(p.blockHash, b), j);
    assert LabelAt(c, x, Chain(c, x, k), k);
    assert LabelAt(c, p.labels[b], Chain(c, p.labels[b], j), j);
  }

  /** ... and every content hit is a hash hit. */
  lemma PublishedIsHit(c: KvConfig, universe: set<seq<Token>>, p: Pool, toks: seq<Token>, k: nat, b: Block)
    requires ValidConfig(c) && LabelsInv(c, universe, p) && HashIndexInv(c, p)
    requires Span(c.blockSize, k) <= |toks| && b in p.labels && p.labels[b] == toks[..Span(c.blockSize, k)]
    ensures Chain(c, toks, k) in p.hashToBlock && p.hashToBlock[Chain(c, toks, k)] == b
  {
    assert LabelOk(c, universe, p.labels[b], Get(p.blockHash, b));
    var j: nat :| LabelAt(c, p.labels[b], Get(p.blockHash, b), j);
    SpanUnique(c.blockSize, j, 0, k, 0);
    ChainPrefix(c, p.labels[b], toks, k);
  }

  /** Every owner of a published child owns its parent. */
  lemma EntryOwnsParent(c: KvConfig, universe: set<seq<Token>>, p: Pool, t: Table, toks: seq<Token>, i: nat, x: Block)
    requires ValidConfig(c) && LabelsInv(c, universe, p) && HashIndexInv(c, p)
    requires TableInv(c, p, t, toks) && EntryLabels(c, p, t, toks)
    requires i < |t.blocks| && t.blocks[i] in p.labels && x in p.labels
    requires IsChild(c, p.labels[t.blocks[i]], p.labels[x])
    ensures i > 0 && t.blocks[i - 1] == x
  {
    assert t.hashes[i] != 0;
    assert HashedEntry(c, t, i, toks);
    assert LabelOk(c, universe, p.labels[x], Get(p.blockHash, x));
    var k: nat :| LabelAt(c, p.labels[x], Get(p.blockHash, x), k);
    assert Span(c.blockSize, i + 1) == Span(c.blockSize, i) + c.blockSize;
    SpanUnique(c.blockSize, i, 0, k, 0);
    assert p.labels[t.blocks[i - 1]] == toks[..Span(c.blockSize, i)] == p.labels[x];
    LabelsInjective(c, universe, p, t.blocks[i - 1], x);
  }

  lemma ChildOwnedParentOwned(c: KvConfig, universe: set<seq<Token>>, p: Pool, seqs: map<Id, Sequence>, order: seq<Id>, y: Block, x: Block)
    requires CacheInv(c, universe, p, seqs, order)
    requires y in p.labels && x in p.labels && IsChild(c, p.labels[y], p.labels[x]) && Get(p.refs, y) > 0
    ensures Get(p.refs, x) > 0 && x !in p.lru
  {
    OwnedEntry(seqs, order, y);
    var id :| id in order && id in seqs && y in seqs[id].table.blocks;
    var t := seqs[id].table;
    var i :| 0 <= i < |t.blocks| && t.blocks[i] == y;
    EntryOwnsParent(c, universe, p, t, seqs[id].tokens, i, x);
    OwnedEntry(seqs, order, x);
  }

  // ---- eviction removes a leaf ----

  /** Nothing published extends the prefix of the block at the front of the LRU list. */
  lemma FrontIsLeaf(c: KvConfig, p: Pool, y: Block)
    requires LruOrder(c, p) && p.lru != [] && p.lru[0] in p.labels && y in p.labels
    ensures !IsChild(c, p.labels[y], p.labels[p.lru[0]])
  {
    assert y !in p.lru[..0];
  }

  lemma EvictKeepsClosed(c: KvConfig, p: Pool)
    requires Closed(c, p) && LruOrder(c, p) && p.lru != [] && p.lru[0] in p.labels
    ensures Closed(c, p.(lru := p.lru[1..], labels := p.labels - {p.lru[0]}))
  {
    var p1 := p.(lru := p.lru[1..], labels := p.labels - {p.lru[0]});
    forall y | y in p1.labels && |p1.labels[y]| > c.blockSize ensures HasParent(c, p1, y) {
      assert HasParent(c, p, y);
      var a :| a in p.labels && IsChild(c, p.labels[y], p.labels[a]);
      FrontIsLeaf(c, p, y);
      assert a in p1.labels;
    }
  }

  lemma EvictKeepsOrder(c: KvConfig, p: Pool)
    requires LruOrder(c, p) && p.lru != []
    ensures LruOrder(c, p.(lru := p.lru[1..], labels := p.labels - {p.lru[0]}))
  {
    var b := p.lru[0];
    var p1 := p.(lru := p.lru[1..], labels := p.labels - {b});
    forall j, y | 0 <= j < |p1.lru| && y in p1.labels && p1.lru[j] in p1.labels && IsChild(c, p1.labels[y], p1.labels[p1.lru[j]])
      ensures y in p1.lru[..j]
    {
      assert p1.lru[j] == p.lru[j + 1];
      assert y in p.lru[..j + 1] && y != b;
      assert p.lru[..j + 1] == [b] + p1.lru[..j];
    }
  }

  /** `Closed` and `LruOrder` look only at the labels and the LRU list. */
  lemma PublishedFrame(c: KvConfig, p: Pool, p1: Pool)
    requires p1.labels == p.labels && p1.lru == p.lru
    ensures Closed(c, p) ==> Closed(c, p1)
    ensures LruOrder(c, p) ==> LruOrder(c, p1)
  {
    assert forall b :: b in p.labels && HasParent(c, p, b) ==> HasParent(c, p1, b);
  }

  lemma EvictKeepsPublished(c: KvConfig, universe: set<seq<Token>>, p: Pool)
    requires PublishedInv(c, universe, p) && ListsInv(c, p) && HashIndexInv(c, p) && p.free == [] && p.lru != []
    ensures PublishedInv(c, universe, Own(TakeBlock(p).0, p.lru[0]))
  {
    assert p.lru[0] in p.lru;
    EvictKeepsClosed(c, p);
    EvictKeepsOrder(c, p);
    PublishedFrame(c, p.(lru := p.lru[1..], labels := p.labels - {p.lru[0]}), Own(TakeBlock(p).0, p.lru[0]));
    hide Closed, LruOrder, LabelOk, ListsInv;
  }

  lemma TakeKeepsPublished(c: KvConfig, universe: set<seq<Token>>, p: Pool)
    requires PublishedInv(c, universe, p) && ListsInv(c, p) && HashIndexInv(c, p) && TakeBlock(p).1.Some?
    ensures var p1 := Own(TakeBlock(p).0, TakeBlock(p).1.value);
            PublishedInv(c, universe, p1) && forall b :: b in p1.labels ==> b in p.labels && p1.labels[b] == p.labels[b]
  {
    if p.free == [] {
      EvictKeepsPublished(c, universe, p);
    } else {
      var p1 := Own(TakeBlock(p).0, TakeBlock(p).1.value);
      PublishedFrame(c, p, p1);
    }
  }

  /** Table entries keep their labels while published blocks only disappear. */
  lemma EntriesKeepLabels(c: KvConfig, p: Pool, p1: Pool, seqs: map<Id, Sequence>, seqs1: map<Id, Sequence>)
    requires AllEntryLabels(c, p, seqs) && TablesInv(c, p1, seqs1) && HashIndexInv(c, p1)
    requires forall b :: b in p1.labels ==> b in p.labels && p1.labels[b] == p.labels[b]
    requires forall id :: id in seqs1 ==> id in seqs && SameHashedEntries(seqs1[id], seqs[id])
    ensures AllEntryLabels(c, p1, seqs1)
  {
    forall id | id in seqs1 ensures EntryLabels(c, p1, seqs1[id].table, seqs1[id].tokens) {
      assert TableInv(c, p1, seqs1[id].table, seqs1[id].tokens);
      assert EntryLabels(c, p, seqs[id].table, seqs[id].tokens);
      assert SameHashedEntries(seqs1[id], seqs[id]);
    }
  }

  /** `s1` has at most the hashed entries of `s`, at the same places and over the same tokens. */
  ghost predicate SameHashedEntries(s1: Sequence, s: Sequence) {
    && s1.tokens == s.tokens
    && forall i: nat :: i < |s1.table.blocks| && i < |s1.table.hashes| && s1.table.hashes[i] != 0 ==>
         i < |s.table.blocks| && i < |s.table.hashes| && s.table.blocks[i] == s1.table.blocks[i] && s.table.hashes[i] == s1.table.hashes[i]
  }

  // ---- the four steps on the whole state ----

  function WithTable(seqs: map<Id, Sequence>, id: Id, t: Table): map<Id, Sequence>
    requires id in seqs
  {
    seqs[id := seqs[id].(table := t)]
  }

  lemma GrowKeeps(c: KvConfig, universe: set<seq<Token>>, p: Pool, seqs: map<Id, Sequence>, order: seq<Id>, id: Id)
    requires CacheInv(c, universe, p, seqs, order) && id in seqs && TakeBlock(p).1.Some?
    ensures var b := TakeBlock(p).1.value;
            CacheInv(c, universe, Own(TakeBlock(p).0, b), WithTable(seqs, id, Append(seqs[id].table, b, 0)), order)
  {
    hide *;
    var s := seqs[id];
    var b := TakeBlock(p).1.value;
    var p1 := Own(TakeBlock(p).0, b);
    var s1 := s.(table := Append(s.table, b, 0));
    OpenCache(c, universe, p, seqs, order);
    SplitTable(c, p, seqs, order, id);
    TableOf(c, p, seqs, id);
    GrowStep(c, p, Others(seqs, order, id), s.table, s.tokens);
    LiftTable(c, p, seqs, order, id, p1, s1);
    TakeKeepsPublished(c, universe, p);
    KvParts(c, p1, seqs[id := s1], order);
    AppendUnhashed(seqs, id, b);
    EntriesKeepLabels(c, p, p1, seqs, seqs[id := s1]);
    InPlaySame(universe, seqs, seqs[id := s1]);
    CloseCache(c, universe, p1, seqs[id := s1], order);
    WithTableIs(seqs, id, Append(s.table, b, 0));
  }

  lemma TableOf(c: KvConfig, p: Pool, seqs: map<Id, Sequence>, id: Id)
    requires TablesInv(c, p, seqs) && id in seqs
    ensures TableInv(c, p, seqs[id].table, seqs[id].tokens)
  {
  }

  lemma EntryLabelsOf(c: KvConfig, p: Pool, seqs: map<Id, Sequence>, id: Id)
    requires AllEntryLabels(c, p, seqs) && id in seqs
    ensures EntryLabels(c, p, seqs[id].table, seqs[id].tokens)
  {
  }

  lemma PublishedParts(c: KvConfig, universe: set<seq<Token>>, p: Pool)
    requires PublishedInv(c, universe, p)
    ensures LabelsInv(c, universe, p) && Closed(c, p) && LruOrder(c, p)
  {
  }

  lemma CountAt(p: Pool, owned: multiset<Block>, b: Block)
    requires CountInv(p, owned)
    ensures Get(p.refs, b) == owned[b]
    ensures Get(p.refs, b) > 1 ==> Get(p.blockHash, b) != 0
  {
  }

  lemma KvParts(c: KvConfig, p: Pool, seqs: map<Id, Sequence>, order: seq<Id>)
    requires KvInv(c, p, seqs, order)
    ensures TablesInv(c, p, seqs) && HashIndexInv(c, p) && ListsInv(c, p)
  {
  }

  lemma WithTableIs(seqs: map<Id, Sequence>, id: Id, t: Table)
    requires id in seqs
    ensures WithTable(seqs, id, t) == seqs[id := seqs[id].(table := t)]
  {
  }

  lemma InPlaySame(universe: set<seq<Token>>, seqs: map<Id, Sequence>, seqs1: map<Id, Sequence>)
    requires AllInPlay(universe, seqs)
    requires forall id :: id in seqs1 ==> id in seqs && seqs1[id].tokens == seqs[id].tokens
    ensures AllInPlay(universe, seqs1)
  {
  }

  lemma AppendUnhashed(seqs: map<Id, Sequence>, id: Id, b: Block)
    requires id in seqs && |seqs[id].table.hashes| == |seqs[id].table.blocks|
    ensures forall x :: x in seqs[id := seqs[id].(table := Append(seqs[id].table, b, 0))] ==>
              x in seqs && SameHashedEntries(seqs[id := seqs[id].(table := Append(seqs[id].table, b, 0))][x], seqs[x])
  {
  }

  function DropLast(t: Table): Table
    requires t.blocks != [] && |t.hashes| == |t.blocks|
  {
    t.(blocks := t.blocks[..|t.blocks| - 1], hashes := t.hashes[..|t.blocks| - 1])
  }


  /** If a child of the last entry's block has an owner, that block has another owner besides this entry. */
  lemma OwnedChildOfLast(c: KvConfig, universe: set<seq<Token>>, p: Pool, seqs: map<Id, Sequence>, order: seq<Id>, id: Id, y: Block)
    requires CacheInv(c, universe, p, seqs, order) && id in seqs && seqs[id].table.blocks != []
    requires y in p.labels && Get(p.refs, y) > 0
    requires var t := seqs[id].table; t.blocks[|t.blocks| - 1] in p.labels && IsChild(c, p.labels[y], p.labels[t.blocks[|t.blocks| - 1]])
    ensures Get(p.refs, seqs[id].table.blocks[|seqs[id].table.blocks| - 1]) > 1
  {
    hide *;
    var t := seqs[id].table;
    var b := t.blocks[|t.blocks| - 1];
    OpenCache(c, universe, p, seqs, order);
    CountAt(p, Owned(seqs, order), y);
    CountAt(p, Owned(seqs, order), b);
    OwnedEntry(seqs, order, y);
    var id' :| id' in order && id' in seqs && y in seqs[id'].table.blocks;
    var i :| 0 <= i < |seqs[id'].table.blocks| && seqs[id'].table.blocks[i] == y;
    TableOf(c, p, seqs, id');
    EntryLabelsOf(c, p, seqs, id');
    PublishedParts(c, universe, p);
    EntryOwnsParent(c, universe, p, seqs[id'].table, seqs[id'].tokens, i, b);
    TwoEntries(seqs, order, id, |t.blocks| - 1, id', i - 1);
  }

  /** Appending a block whose children are all cached already keeps the eviction order. */
  lemma PushKeepsOrder(c: KvConfig, p: Pool, b: Block)
    requires LruOrder(c, p)
    requires forall y :: y in p.labels && b in p.labels && IsChild(c, p.labels[y], p.labels[b]) ==> y in p.lru
    ensures LruOrder(c, p.(lru := p.lru + [b]))
  {
    var p1 := p.(lru := p.lru + [b]);
    forall j, y | 0 <= j < |p1.lru| && y in p1.labels && p1.lru[j] in p1.labels && IsChild(c, p1.labels[y], p1.labels[p1.lru[j]])
      ensures y in p1.lru[..j]
    {
      if j < |p.lru| {
        assert p1.lru[..j] == p.lru[..j];
      } else {
        assert p1.lru[..j] == p.lru;
      }
    }
  }

  lemma ReleaseKeepsPublished(c: KvConfig, universe: set<seq<Token>>, p: Pool, b: Block)
    requires PublishedInv(c, universe, p) && ListsInv(c, p) && HashIndexInv(c, p) && b < c.numBlocks && Get(p.refs, b) > 0
    requires forall y :: y in p.labels && b in p.labels && IsChild(c, p.labels[y], p.labels[b]) && Get(p.refs, y) > 0 ==> Get(p.refs, b) > 1
    ensures PublishedInv(c, universe, ReleaseBlock(c, p, b, Get(p.blockHash, b)))
  {
    hide LruOrder, Closed, LabelOk;
    var p1 := ReleaseBlock(c, p, b, Get(p.blockHash, b));
    assert p1.labels == p.labels && p1.blockHash == p.blockHash;
    if p1.lru == p.lru {
      PublishedFrame(c, p, p1);
    } else {
      UnownedChildrenCached(c, p, b);
      PushKeepsOrder(c, p, b);
      ClosedFrame(c, p, p1);
      PublishedFrame(c, p.(lru := p.lru + [b]), p1);
    }
  }

  lemma UnownedChildrenCached(c: KvConfig, p: Pool, b: Block)
    requires ListsInv(c, p) && HashIndexInv(c, p) && Get(p.refs, b) == 1
    requires forall y :: y in p.labels && b in p.labels && IsChild(c, p.labels[y], p.labels[b]) && Get(p.refs, y) > 0 ==> Get(p.refs, b) > 1
    ensures forall y :: y in p.labels && b in p.labels && IsChild(c, p.labels[y], p.labels[b]) ==> y in p.lru
  {
    forall y | y in p.labels && b in p.labels && IsChild(c, p.labels[y], p.labels[b]) ensures y in p.lru {
      assert Get(p.blockHash, y) != 0;
    }
  }

  lemma ClosedFrame(c: KvConfig, p: Pool, p1: Pool)
    requires p1.labels == p.labels
    ensures Closed(c, p) ==> Closed(c, p1)
  {
    assert forall b :: b in p.labels && HasParent(c, p, b) ==> HasParent(c, p1, b);
  }

  lemma ReleaseLastKeeps(c: KvConfig, universe: set<seq<Token>>, p: Pool, seqs: map<Id, Sequence>, order: seq<Id>, id: Id)
    requires CacheInv(c, universe, p, seqs, order) && id in seqs && seqs[id].table.blocks != []
    ensures |seqs[id].table.hashes| == |seqs[id].table.blocks|
    ensures var t := seqs[id].table; var n := |t.blocks| - 1;
            CacheInv(c, universe, ReleaseBlock(c, p, t.blocks[n], t.hashes[n]), WithTable(seqs, id, DropLast(t)), order)
  {
    var s := seqs[id];
    var t := s.table;
    OpenCache(c, universe, p, seqs, order);
    TableOf(c, p, seqs, id);
    assert |t.hashes| == |t.blocks|;
    var n := |t.blocks| - 1;
    var b := t.blocks[n];
    assert b < c.numBlocks && t.hashes[n] == Get(p.blockHash, b);
    hide *;
    var p1 := ReleaseBlock(c, p, b, t.hashes[n]);
    var s1 := s.(table := t.(blocks := t.blocks[..n], hashes := t.hashes[..n]));
    SplitTable(c, p, seqs, order, id);
    ReleaseStep(c, p, Others(seqs, order, id), t, s.tokens);
    LiftTable(c, p, seqs, order, id, p1, s1);
    forall y | y in p.labels && b in p.labels && IsChild(c, p.labels[y], p.labels[b]) && Get(p.refs, y) > 0 ensures Get(p.refs, b) > 1 {
      OwnedChildOfLast(c, universe, p, seqs, order, id, y);
    }
    RefPositive(c, p, seqs, order, id, n);
    ReleaseKeepsPublished(c, universe, p, b);
    KvParts(c, p1, seqs[id := s1], order);
    DropHashed(seqs, id);
    EntriesKeepLabels(c, p, p1, seqs, seqs[id := s1]);
    InPlaySame(universe, seqs, seqs[id := s1]);
    CloseCache(c, universe, p1, seqs[id := s1], order);
    DropLastIs(t);
    WithTableIs(seqs, id, DropLast(t));
  }

  lemma DropLastIs(t: Table)
    requires t.blocks != [] && |t.hashes| == |t.blocks|
    ensures DropLast(t) == t.(blocks := t.blocks[..|t.blocks| - 1], hashes := t.hashes[..|t.blocks| - 1])
  {
  }

  lemma RefPositive(c: KvConfig, p: Pool, seqs: map<Id, Sequence>, order: seq<Id>, id: Id, i: nat)
    requires OrderInv(seqs, order) && CountInv(p, Owned(seqs, order)) && id in seqs && i < |seqs[id].table.blocks|
    ensures Get(p.refs, seqs[id].table.blocks[i]) > 0
  {
    OwnedEntry(seqs, order, seqs[id].table.blocks[i]);
  }

  lemma DropHashed(seqs: map<Id, Sequence>, id: Id)
    requires id in seqs && |seqs[id].table.hashes| == |seqs[id].table.blocks| && seqs[id].table.blocks != []
    ensures var t := seqs[id].table; var n := |t.blocks| - 1; var s1 := seqs[id].(table := t.(blocks := t.blocks[..n], hashes := t.hashes[..n]));
            forall x :: x in seqs[id := s1] ==> x in seqs && SameHashedEntries(seqs[id := s1][x], seqs[x])
  {
  }

  // ---- adopting the next cached block ----

  lemma RemoveKeepsOrder(c: KvConfig, p: Pool, b: Block)
    requires LruOrder(c, p) && NoDup(p.lru)
    requires forall a :: a in p.lru && a in p.labels && b in p.labels ==> !IsChild(c, p.labels[b], p.labels[a])
    ensures LruOrder(c, p.(lru := Without(p.lru, b)))
  {
    WithoutNoDup(p.lru, b);
    var p1 := p.(lru := Without(p.lru, b));
    forall j, y | 0 <= j < |p1.lru| && y in p1.labels && p1.lru[j] in p1.labels && IsChild(c, p1.labels[y], p1.labels[p1.lru[j]])
      ensures y in p1.lru[..j]
    {
      assert p1.lru[j] in p1.lru;
      var i :| 0 <= i < |p.lru| && p.lru[i] == p1.lru[j];
      assert y in p.lru[..i];
      WithoutBefore(p.lru, b, j, y);
    }
  }

  /** The parent of the next hit is this table's last entry, hence owned and not cached. */
  lemma ParentOfHit(c: KvConfig, universe: set<seq<Token>>, p: Pool, seqs: map<Id, Sequence>, order: seq<Id>, id: Id, a: Block, b: Block)
    requires id in seqs
    requires var s := seqs[id]; var k := |s.table.blocks|;
             && (k > 0 ==> |s.table.hashes| == k && s.table.hashes[k - 1] != 0)
             && Span(c.blockSize, k + 1) <= |s.tokens| && b in p.labels && p.labels[b] == s.tokens[..Span(c.blockSize, k + 1)]
    requires a in p.labels && IsChild(c, p.labels[b], p.labels[a])
    requires CacheInv(c, universe, p, seqs, order)
    ensures a !in p.lru
  {
    hide *;
    var s := seqs[id];
    var k := |s.table.blocks|;
    OpenCache(c, universe, p, seqs, order);
    PublishedParts(c, universe, p);
    ParentLevel(c, universe, p, s.tokens, k, a);
    EntryLabelAt(c, p, seqs, id, k - 1);
    LabelsInjective(c, universe, p, s.table.blocks[k - 1], a);
    RefPositive(c, p, seqs, order, id, k - 1);
    OwnedNotCached(c, p, a);
  }

  lemma OwnedNotCached(c: KvConfig, p: Pool, b: Block)
    requires ListsInv(c, p) && Get(p.refs, b) > 0
    ensures b !in p.lru && b !in p.free
  {
  }

  lemma EntryLabelAt(c: KvConfig, p: Pool, seqs: map<Id, Sequence>, id: Id, i: nat)
    requires AllEntryLabels(c, p, seqs) && id in seqs
    requires i < |seqs[id].table.blocks| && i < |seqs[id].table.hashes| && seqs[id].table.hashes[i] != 0
    ensures var s := seqs[id];
            && s.table.blocks[i] in p.labels && Span(c.blockSize, i + 1) <= |s.tokens|
            && p.labels[s.table.blocks[i]] == s.tokens[..Span(c.blockSize, i + 1)]
  {
    assert EntryLabels(c, p, seqs[id].table, seqs[id].tokens);
  }

  /** The state in which `id`'s table consists of hits only and the next full block is published too. */
  ghost predicate NextIsHit(c: KvConfig, p: Pool, s: Sequence) {
    var k := |s.table.blocks|;
    && |s.table.hashes| == k && s.table.committed == k && (k > 0 ==> s.table.hashes[k - 1] != 0)
    && Span(c.blockSize, k + 1) <= |s.tokens| && Chain(c, s.tokens, k + 1) in p.hashToBlock
  }

  function AppendHit(c: KvConfig, p: Pool, s: Sequence): Table {
    var k := |s.table.blocks|;
    Append(s.table, HitBlock(c, p, s.tokens, k), Chain(c, s.tokens, k + 1)).(committed := k + 1)
  }

  lemma ShareKeepsPublished(c: KvConfig, universe: set<seq<Token>>, p: Pool, b: Block)
    requires PublishedInv(c, universe, p) && ListsInv(c, p)
    requires forall a :: a in p.lru && a in p.labels && b in p.labels ==> !IsChild(c, p.labels[b], p.labels[a])
    ensures PublishedInv(c, universe, Share(p, b))
  {
    hide LruOrder, Closed, LabelOk;
    RemoveKeepsOrder(c, p, b);
    ClosedFrame(c, p, Share(p, b));
    PublishedFrame(c, p.(lru := Without(p.lru, b)), Share(p, b));
  }

  lemma ShareNextKeeps(c: KvConfig, universe: set<seq<Token>>, p: Pool, seqs: map<Id, Sequence>, order: seq<Id>, id: Id)
    requires CacheInv(c, universe, p, seqs, order) && id in seqs && NextIsHit(c, p, seqs[id])
    ensures CacheInv(c, universe, Share(p, HitBlock(c, p, seqs[id].tokens, |seqs[id].table.blocks|)),
                     WithTable(seqs, id, AppendHit(c, p, seqs[id])), order)
  {
    hide *;
    NextHitFacts(c, p, seqs[id]);
    var s := seqs[id];
    var t := s.table;
    var k := |t.blocks|;
    var b := HitBlock(c, p, s.tokens, k);
    var p1 := Share(p, b);
    var s1 := s.(table := AppendHit(c, p, s));
    OpenCache(c, universe, p, seqs, order);
    PublishedParts(c, universe, p);
    TableOf(c, p, seqs, id);
    SplitTable(c, p, seqs, order, id);
    ShareStep(c, p, Others(seqs, order, id), t, s.tokens);
    LiftTable(c, p, seqs, order, id, p1, s1);
    KvParts(c, p1, seqs[id := s1], order);
    InPlayOf(universe, seqs, id);
    HitLabel(c, universe, p, s.tokens, k + 1);
    forall a | a in p.lru && a in p.labels && b in p.labels ensures !IsChild(c, p.labels[b], p.labels[a]) {
      if IsChild(c, p.labels[b], p.labels[a]) { ParentOfHit(c, universe, p, seqs, order, id, a, b); }
    }
    ShareKeepsPublished(c, universe, p, b);
    AppendHitLabels(c, p, p1, seqs, id, b);
    InPlaySame(universe, seqs, seqs[id := s1]);
    CloseCache(c, universe, p1, seqs[id := s1], order);
    WithTableIs(seqs, id, AppendHit(c, p, s));
  }

  lemma NextHitFacts(c: KvConfig, p: Pool, s: Sequence)
    requires NextIsHit(c, p, s)
    ensures var k := |s.table.blocks|; var b := HitBlock(c, p, s.tokens, k); var p1 := Share(p, b);
            && |s.table.hashes| == k && s.table.committed == k && (k > 0 ==> s.table.hashes[k - 1] != 0)
            && Span(c.blockSize, k + 1) <= |s.tokens| && Chain(c, s.tokens, k + 1) in p.hashToBlock
            && b == p.hashToBlock[Chain(c, s.tokens, k + 1)]
            && AppendHit(c, p, s) == Append(s.table, b, Chain(c, s.tokens, k + 1)).(committed := k + 1)
            && p1.blockHash == p.blockHash && p1.labels == p.labels && p1.hashToBlock == p.hashToBlock
  {
  }

  lemma InPlayOf(universe: set<seq<Token>>, seqs: map<Id, Sequence>, id: Id)
    requires AllInPlay(universe, seqs) && id in seqs
    ensures InPlay(universe, seqs[id].tokens)
  {
  }

  lemma AppendHitLabels(c: KvConfig, p: Pool, p1: Pool, seqs: map<Id, Sequence>, id: Id, b: Block)
    requires AllEntryLabels(c, p, seqs) && id in seqs && p1.labels == p.labels
    requires var s := seqs[id]; var k := |s.table.blocks|;
             && |s.table.hashes| == k && b in p.labels
             && Span(c.blockSize, k + 1) <= |s.tokens| && p.labels[b] == s.tokens[..Span(c.blockSize, k + 1)]
    ensures var s := seqs[id]; var k := |s.table.blocks|;
            AllEntryLabels(c, p1, seqs[id := s.(table := Append(s.table, b, Chain(c, s.tokens, k + 1)).(committed := k + 1))])
  {
    var s := seqs[id];
    assert EntryLabels(c, p, s.table, s.tokens);
    var t1 := Append(s.table, b, Chain(c, s.tokens, |s.table.blocks| + 1));
    forall i: nat | i < |t1.blocks| && i < |t1.hashes| && t1.hashes[i] != 0
      ensures t1.blocks[i] in p.labels && Span(c.blockSize, i + 1) <= |s.tokens| && p.labels[t1.blocks[i]] == s.tokens[..Span(c.blockSize, i + 1)]
    {
      if i < |s.table.blocks| { assert s.table.hashes[i] != 0; }
    }
    assert forall x :: x in seqs && x != id ==> EntryLabels(c, p, seqs[x].table, seqs[x].tokens);
  }

  // ---- publishing the next full block ----

  /** Block `committed` of the sequence is full, and the previous one (if any) is published. */
  ghost predicate Publishes(c: KvConfig, p: Pool, s: Sequence) {
    HashFullBlock(c, p, s.table, s.table.committed, s.tokens).1 != s.table
  }

  lemma PublishFacts(c: KvConfig, p: Pool, s: Sequence)
    requires TableInv(c, p, s.table, s.tokens) && HashIndexInv(c, p) && Publishes(c, p, s)
    requires s.table.committed < |s.table.blocks| && Span(c.blockSize, s.table.committed + 1) <= |s.tokens|
    ensures var i := s.table.committed; var h := Chain(c, s.tokens, i + 1); var b := s.table.blocks[i];
            && (i > 0 ==> s.table.hashes[i - 1] != 0) && h !in p.hashToBlock
            && |s.table.hashes| == |s.table.blocks| && s.table.hashes[i] == 0 && b !in p.labels && b < c.numBlocks
            && HashFullBlock(c, p, s.table, i, s.tokens) ==
               (Publish(p, b, h, s.tokens[..Span(c.blockSize, i + 1)]), s.table.(hashes := s.table.hashes[i := h]))
  {
    var i := s.table.committed;
    assert s.table.hashes[i] != 0 ==> HashedEntry(c, s.table, i, s.tokens);
    if i > 0 { assert HashedEntry(c, s.table, i - 1, s.tokens); }
  }

  lemma PublishKeepsLabels(c: KvConfig, universe: set<seq<Token>>, p: Pool, toks: seq<Token>, i: nat, b: Block)
    requires LabelsInv(c, universe, p) && InPlay(universe, toks) && Span(c.blockSize, i + 1) <= |toks| && b < |p.blockHash|
    ensures LabelsInv(c, universe, Publish(p, b, Chain(c, toks, i + 1), toks[..Span(c.blockSize, i + 1)]))
  {
    var x := toks[..Span(c.blockSize, i + 1)];
    InPlayPrefix(universe, x, toks);
    ChainPrefix(c, x, toks, i + 1);
    assert LabelAt(c, x, Chain(c, toks, i + 1), i + 1);
  }

  lemma PublishKeepsClosed(c: KvConfig, p: Pool, toks: seq<Token>, i: nat, b: Block, h: Hash)
    requires Closed(c, p) && b !in p.labels && Span(c.blockSize, i + 1) <= |toks|
    requires i > 0 ==> exists a :: a in p.labels && p.labels[a] == toks[..Span(c.blockSize, i)]
    ensures Closed(c, Publish(p, b, h, toks[..Span(c.blockSize, i + 1)]))
  {
    var x := toks[..Span(c.blockSize, i + 1)];
    var p1 := Publish(p, b, h, x);
    forall y | y in p1.labels && |p1.labels[y]| > c.blockSize ensures HasParent(c, p1, y) {
      if y != b {
        assert HasParent(c, p, y);
        var a :| a in p.labels && IsChild(c, p.labels[y], p.labels[a]);
        assert a in p1.labels && IsChild(c, p1.labels[y], p1.labels[a]);
      } else {
        var a :| a in p.labels && p.labels[a] == toks[..Span(c.blockSize, i)];
        assert a in p1.labels && IsChild(c, p1.labels[y], p1.labels[a]);
      }
    }
  }

  lemma PublishKeepsOrder(c: KvConfig, p: Pool, b: Block, h: Hash, x: seq<Token>)
    requires LruOrder(c, p) && b !in p.lru
    requires forall a :: a in p.lru && a in p.labels ==> !IsChild(c, x, p.labels[a])
    ensures LruOrder(c, Publish(p, b, h, x))
  {
    var p1 := Publish(p, b, h, x);
    forall j, y | 0 <= j < |p1.lru| && y in p1.labels && p1.lru[j] in p1.labels && IsChild(c, p1.labels[y], p1.labels[p1.lru[j]])
      ensures y in p1.lru[..j]
    {
      assert p.lru[j] in p.lru;
    }
  }

  lemma PublishKeepsEntries(c: KvConfig, p: Pool, seqs: map<Id, Sequence>, id: Id, h: Hash)
    requires AllEntryLabels(c, p, seqs) && id in seqs
    requires var t := seqs[id].table;
             && t.committed < |t.blocks| && |t.hashes| == |t.blocks| && t.blocks[t.committed] !in p.labels
             && Span(c.blockSize, t.committed + 1) <= |seqs[id].tokens|
    ensures var s := seqs[id]; var i := s.table.committed;
            AllEntryLabels(c, Publish(p, s.table.blocks[i], h, s.tokens[..Span(c.blockSize, i + 1)]),
                           seqs[id := s.(table := s.table.(hashes := s.table.hashes[i := h], committed := i + 1))])
  {
    var s := seqs[id];
    var i := s.table.committed;
    var p1 := Publish(p, s.table.blocks[i], h, s.tokens[..Span(c.blockSize, i + 1)]);
    forall x | x in seqs ensures EntryLabels(c, p1, if x == id then s.table.(hashes := s.table.hashes[i := h], committed := i + 1) else seqs[x].table, seqs[x].tokens) {
      assert EntryLabels(c, p, seqs[x].table, seqs[x].tokens);
    }
  }

  lemma CommitNextKeeps(c: KvConfig, universe: set<seq<Token>>, p: Pool, seqs: map<Id, Sequence>, order: seq<Id>, id: Id)
    requires CacheInv(c, universe, p, seqs, order) && id in seqs
    requires var t := seqs[id].table; t.committed < |t.blocks| && Span(c.blockSize, t.committed + 1) <= |seqs[id].tokens|
    ensures var (p1, t1) := HashFullBlock(c, p, seqs[id].table, seqs[id].table.committed, seqs[id].tokens);
            CacheInv(c, universe, p1, WithTable(seqs, id, t1.(committed := seqs[id].table.committed + 1)), order)
  {
    hide *;
    var s := seqs[id];
    var i := s.table.committed;
    var (p1, t0) := HashFullBlock(c, p, s.table, i, s.tokens);
    var t1 := t0.(committed := i + 1);
    OpenCache(c, universe, p, seqs, order);
    TableOf(c, p, seqs, id);
    SplitTable(c, p, seqs, order, id);
    CommitStep(c, p, Others(seqs, order, id), s.table, s.tokens);
    LiftTable(c, p, seqs, order, id, p1, s.(table := t1));
    WithTableIs(seqs, id, t1);
    InPlaySame(universe, seqs, seqs[id := s.(table := t1)]);
    if Publishes(c, p, s) {
      PublishNextKeeps(c, universe, p, seqs, order, id);
    } else {
      NoPublish(c, p, s);
      SameEntries(c, p, seqs, id);
    }
    CloseCache(c, universe, p1, seqs[id := s.(table := t1)], order);
  }

  lemma NoPublish(c: KvConfig, p: Pool, s: Sequence)
    requires TableInv(c, p, s.table, s.tokens) && !Publishes(c, p, s) && s.table.committed < |s.table.blocks|
    ensures HashFullBlock(c, p, s.table, s.table.committed, s.tokens) == (p, s.table)
  {
    assert s.table.hashes[s.table.committed] != 0 ==> HashedEntry(c, s.table, s.table.committed, s.tokens);
  }

  lemma SameEntries(c: KvConfig, p: Pool, seqs: map<Id, Sequence>, id: Id)
    requires AllEntryLabels(c, p, seqs) && id in seqs
    ensures AllEntryLabels(c, p, seqs[id := seqs[id].(table := seqs[id].table.(committed := seqs[id].table.committed + 1))])
  {
    assert EntryLabels(c, p, seqs[id].table, seqs[id].tokens);
  }

  lemma PublishNextKeeps(c: KvConfig, universe: set<seq<Token>>, p: Pool, seqs: map<Id, Sequence>, order: seq<Id>, id: Id)
    requires CacheInv(c, universe, p, seqs, order) && id in seqs && Publishes(c, p, seqs[id])
    requires var t := seqs[id].table; t.committed < |t.blocks| && Span(c.blockSize, t.committed + 1) <= |seqs[id].tokens|
    ensures var s := seqs[id]; var (p1, t0) := HashFullBlock(c, p, s.table, s.table.committed, s.tokens);
            PublishedInv(c, universe, p1) && AllEntryLabels(c, p1, seqs[id := s.(table := t0.(committed := s.table.committed + 1))])
  {
    hide *;
    var s := seqs[id];
    var i := s.table.committed;
    var b := s.table.blocks[i];
    OpenCache(c, universe, p, seqs, order);
    PublishedParts(c, universe, p);
    TableOf(c, p, seqs, id);
    PublishFacts(c, p, s);
    var x := s.tokens[..Span(c.blockSize, i + 1)];
    var h := Chain(c, s.tokens, i + 1);
    InPlayOf(universe, seqs, id);
    HashRange(c, p);
    PublishKeepsLabels(c, universe, p, s.tokens, i, b);
    SpanStep(c, i);
    if i > 0 {
      EntryLabelAt(c, p, seqs, id, i - 1);
    }
    PublishKeepsClosed(c, p, s.tokens, i, b, h);
    forall a | a in p.lru && a in p.labels ensures !IsChild(c, x, p.labels[a]) {
      if IsChild(c, x, p.labels[a]) {
        NewChildOfCached(c, universe, p, seqs, order, id, a);
      }
    }
    RefPositive(c, p, seqs, order, id, i);
    OwnedNotCached(c, p, b);
    PublishKeepsOrder(c, p, b, h, x);
    MakePublished(c, universe, Publish(p, b, h, x));
    PublishKeepsEntries(c, p, seqs, id, h);
  }

  lemma SpanStep(c: KvConfig, i: nat)
    ensures Span(c.blockSize, i + 1) == Span(c.blockSize, i) + c.blockSize
  {
  }

  lemma HashRange(c: KvConfig, p: Pool)
    requires ListsInv(c, p)
    ensures |p.blockHash| == c.numBlocks
  {
  }

  lemma MakePublished(c: KvConfig, universe: set<seq<Token>>, p: Pool)
    requires LabelsInv(c, universe, p) && Closed(c, p) && LruOrder(c, p)
    ensures PublishedInv(c, universe, p)
  {
  }

  /** The parent of a block about to be published is owned, so it is not in the LRU list. */
  lemma NewChildOfCached(c: KvConfig, universe: set<seq<Token>>, p: Pool, seqs: map<Id, Sequence>, order: seq<Id>, id: Id, a: Block)
    requires id in seqs && a in p.labels
    requires var t := seqs[id].table;
             && t.committed < |t.blocks| && |t.hashes| == |t.blocks| && (t.committed > 0 ==> t.hashes[t.committed - 1] != 0)
             && Span(c.blockSize, t.committed + 1) <= |seqs[id].tokens|
             && IsChild(c, seqs[id].tokens[..Span(c.blockSize, t.committed + 1)], p.labels[a])
    requires CacheInv(c, universe, p, seqs, order)
    ensures a !in p.lru
  {
    hide *;
    var s := seqs[id];
    var i := s.table.committed;
    OpenCache(c, universe, p, seqs, order);
    PublishedParts(c, universe, p);
    ParentLevel(c, universe, p, s.tokens, i, a);
    EntryLabelAt(c, p, seqs, id, i - 1);
    LabelsInjective(c, universe, p, s.table.blocks[i - 1], a);
    RefPositive(c, p, seqs, order, id, i - 1);
    OwnedNotCached(c, p, a);
  }

  lemma ParentLevel(c: KvConfig, universe: set<seq<Token>>, p: Pool, toks: seq<Token>, k: nat, a: Block)
    requires ValidConfig(c) && LabelsInv(c, universe, p) && Span(c.blockSize, k + 1) <= |toks|
    requires a in p.labels && IsChild(c, toks[..Span(c.blockSize, k + 1)], p.labels[a])
    ensures k > 0 && Span(c.blockSize, k) <= |toks| && p.labels[a] == toks[..Span(c.blockSize, k)]
  {
    assert LabelOk(c, universe, p.labels[a], Get(p.blockHash, a));
    var j: nat :| LabelAt(c, p.labels[a], Get(p.blockHash, a), j);
    SpanUnique(c.blockSize, j, 0, k, 0);
  }
}
