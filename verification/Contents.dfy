/**
 What the physical cache holds. In every reachable state slot(p) of a sequence holds, in every
 layer, the K/V of exactly tokens[0..p] for each computed position p, and a published block holds
 the K/V of the prefix it was published for.
 */
module Contents {
  import opened Lists
  import opened Paging
  import opened BlockPool
  import opened Requests
  import opened PrefixCache
  import opened PrefixTree
  import opened CacheOps
  import opened Network

  /** Cache geometry and hash, model, and the token sequences the run can produce. */
  datatype World = World(c: KvConfig, net: Net, universe: set<seq<Token>>)

  ghost predicate SlotHolds(net: Net, cache: seq<seq<KV>>, s: nat, x: seq<Token>) {
    x != [] && forall l :: 0 <= l < |cache| ==> At(cache[l], s) == RefKV(net, l, x)
  }

  /** Position `pos` is computed and the table has a slot for it. */
  ghost predicate Computed(c: KvConfig, s: Sequence, pos: nat) {
    pos < s.computed && pos < |s.tokens| && pos < Span(c.blockSize, |s.table.blocks|)
  }

  ghost predicate SeqContent(w: World, cache: seq<seq<KV>>, s: Sequence)
    requires ValidConfig(w.c)
  {
    forall pos: nat :: Computed(w.c, s, pos) ==> SlotHolds(w.net, cache, Slot(w.c, s.table.blocks, pos), s.tokens[..pos + 1])
  }

  /** Block `b` holds the last block of prefix `x`. */
  ghost predicate BlockContent(w: World, cache: seq<seq<KV>>, b: Block, x: seq<Token>) {
    forall o: nat :: o < w.c.blockSize <= |x| ==> OffsetHolds(w, cache, b, x, o)
  }

  ghost predicate OffsetHolds(w: World, cache: seq<seq<KV>>, b: Block, x: seq<Token>, o: nat)
    requires o < w.c.blockSize <= |x|
  {
    SlotHolds(w.net, cache, Span(w.c.blockSize, b) + o, x[..|x| - w.c.blockSize + o + 1])
  }

  ghost predicate LabelContents(w: World, cache: seq<seq<KV>>, p: Pool) {
    forall b :: b in p.labels ==> BlockContent(w, cache, b, p.labels[b])
  }

  ghost predicate SeqContents(w: World, cache: seq<seq<KV>>, seqs: map<Id, Sequence>)
    requires ValidConfig(w.c)
  {
    forall id :: id in seqs ==> SeqContent(w, cache, seqs[id])
  }

  ghost predicate Shape(w: World, cache: seq<seq<KV>>) {
    |cache| == w.net.layers && forall l :: 0 <= l < |cache| ==> |cache[l]| == Span(w.c.blockSize, w.c.numBlocks)
  }

  /** The complete invariant of the KV layer. */
  ghost predicate KvOk(w: World, cache: seq<seq<KV>>, p: Pool, seqs: map<Id, Sequence>, order: seq<Id>) {
    && ValidConfig(w.c)
    && CacheInv(w.c, w.universe, p, seqs, order)
    && Shape(w, cache) && LabelContents(w, cache, p) && SeqContents(w, cache, seqs)
  }

  lemma SlotOf(c: KvConfig, blocks: seq<Block>, i: nat, o: nat)
    requires ValidConfig(c) && o < c.blockSize && i < |blocks|
    ensures Slot(c, blocks, Span(c.blockSize, i) + o) == Span(c.blockSize, blocks[i]) + o
    ensures Span(c.blockSize, i) + o < Span(c.blockSize, |blocks|)
  {
    QuotUnique(c.blockSize, Span(c.blockSize, i) + o, i, o);
    SpanMono(c.blockSize, i, |blocks|);
  }

  /** The block index and offset of a position inside a table. */
  lemma PosInTable(c: KvConfig, blocks: seq<Block>, pos: nat)
    requires ValidConfig(c) && pos < Span(c.blockSize, |blocks|)
    ensures var i := Quot(c.blockSize, pos); var o := Rem(c.blockSize, pos);
            i < |blocks| && o < c.blockSize && pos == Span(c.blockSize, i) + o && Slot(c, blocks, pos) == Span(c.blockSize, blocks[i]) + o
  {
    QuotRem(c.blockSize, pos);
    if Quot(c.blockSize, pos) >= |blocks| { SpanMono(c.blockSize, |blocks|, Quot(c.blockSize, pos)); }
  }

  /** `s1` claims no computed position that `s` did not have in the same slot. */
  ghost predicate Kept(c: KvConfig, s: Sequence, s1: Sequence)
    requires ValidConfig(c)
  {
    && s.tokens <= s1.tokens
    && forall pos: nat :: Computed(c, s1, pos) ==> Computed(c, s, pos) && Slot(c, s1.table.blocks, pos) == Slot(c, s.table.blocks, pos)
  }

  lemma KeptContent(w: World, cache: seq<seq<KV>>, s: Sequence, s1: Sequence)
    requires ValidConfig(w.c) && SeqContent(w, cache, s) && Kept(w.c, s, s1)
    ensures SeqContent(w, cache, s1)
  {
    forall pos: nat | Computed(w.c, s1, pos) ensures SlotHolds(w.net, cache, Slot(w.c, s1.table.blocks, pos), s1.tokens[..pos + 1]) {
      assert Computed(w.c, s, pos);
      assert s1.tokens[..pos + 1] == s.tokens[..pos + 1];
    }
  }

  lemma KeptSame(c: KvConfig, s: Sequence, s1: Sequence)
    requires ValidConfig(c) && s1.table.blocks == s.table.blocks && s.tokens <= s1.tokens && s1.computed <= s.computed
    requires s.computed <= |s.tokens|
    ensures Kept(c, s, s1)
  {
  }

  lemma KeptEmpty(c: KvConfig, s: Sequence, s1: Sequence)
    requires ValidConfig(c) && s1.table.blocks == [] && s.tokens <= s1.tokens
    ensures Kept(c, s, s1)
  {
  }

  lemma KeptGrow(c: KvConfig, s: Sequence, s1: Sequence)
    requires ValidConfig(c) && s.table.blocks <= s1.table.blocks && s1.tokens == s.tokens && s1.computed == s.computed
    requires s.computed <= Span(c.blockSize, |s.table.blocks|)
    ensures Kept(c, s, s1)
  {
    forall pos: nat | Computed(c, s1, pos) ensures Computed(c, s, pos) && Slot(c, s1.table.blocks, pos) == Slot(c, s.table.blocks, pos) {
      PosInTable(c, s.table.blocks, pos);
    }
  }

  /** Steps that only drop labels and keep or forget computed positions keep the contents. */
  lemma ContentsKept(w: World, cache: seq<seq<KV>>, p: Pool, seqs: map<Id, Sequence>, p1: Pool, seqs1: map<Id, Sequence>)
    requires ValidConfig(w.c) && LabelContents(w, cache, p) && SeqContents(w, cache, seqs)
    requires forall b :: b in p1.labels ==> b in p.labels && p1.labels[b] == p.labels[b]
    requires forall id :: id in seqs1 ==> id in seqs && Kept(w.c, seqs[id], seqs1[id])
    ensures LabelContents(w, cache, p1) && SeqContents(w, cache, seqs1)
  {
    forall id | id in seqs1 ensures SeqContent(w, cache, seqs1[id]) {
      KeptContent(w, cache, seqs[id], seqs1[id]);
    }
  }

  /** A published block serves any sequence that starts with its prefix. */
  lemma AdoptedContent(w: World, cache: seq<seq<KV>>, b: Block, toks: seq<Token>, i: nat, o: nat)
    requires ValidConfig(w.c) && o < w.c.blockSize && Span(w.c.blockSize, i + 1) <= |toks|
    requires BlockContent(w, cache, b, toks[..Span(w.c.blockSize, i + 1)])
    ensures SlotHolds(w.net, cache, Span(w.c.blockSize, b) + o, toks[..Span(w.c.blockSize, i) + o + 1])
  {
    var x := toks[..Span(w.c.blockSize, i + 1)];
    assert OffsetHolds(w, cache, b, x, o);
    assert x[..|x| - w.c.blockSize + o + 1] == toks[..Span(w.c.blockSize, i) + o + 1];
  }

  /** A full block all of whose positions are computed may be published. */
  lemma PublishedContent(w: World, cache: seq<seq<KV>>, s: Sequence, computed: nat, i: nat)
    requires ValidConfig(w.c) && SeqContent(w, cache, s) && i < |s.table.blocks|
    requires Span(w.c.blockSize, i + 1) <= computed <= |s.tokens| && computed <= s.computed
    ensures BlockContent(w, cache, s.table.blocks[i], s.tokens[..Span(w.c.blockSize, i + 1)])
  {
    var x := s.tokens[..Span(w.c.blockSize, i + 1)];
    forall o: nat | o < w.c.blockSize <= |x|
      ensures OffsetHolds(w, cache, s.table.blocks[i], x, o)
    {
      SlotOf(w.c, s.table.blocks, i, o);
      assert Computed(w.c, s, Span(w.c.blockSize, i) + o);
      assert x[..|x| - w.c.blockSize + o + 1] == s.tokens[..Span(w.c.blockSize, i) + o + 1];
    }
  }

  // ---- the manager's operations keep the invariant ----

  lemma OpenKv(w: World, cache: seq<seq<KV>>, p: Pool, seqs: map<Id, Sequence>, order: seq<Id>)
    requires KvOk(w, cache, p, seqs, order)
    ensures ValidConfig(w.c) && CacheInv(w.c, w.universe, p, seqs, order) && Shape(w, cache)
    ensures LabelContents(w, cache, p) && SeqContents(w, cache, seqs)
  {
  }

  lemma CloseKv(w: World, cache: seq<seq<KV>>, p: Pool, seqs: map<Id, Sequence>, order: seq<Id>)
    requires ValidConfig(w.c) && CacheInv(w.c, w.universe, p, seqs, order) && Shape(w, cache)
    requires LabelContents(w, cache, p) && SeqContents(w, cache, seqs)
    ensures KvOk(w, cache, p, seqs, order)
  {
  }

  /** Everyone but `id` is unchanged. */
  lemma KeptOthers(c: KvConfig, seqs: map<Id, Sequence>, id: Id, s1: Sequence)
    requires ValidConfig(c) && id in seqs && Kept(c, seqs[id], s1)
    ensures forall x :: x in seqs[id := s1] ==> x in seqs && Kept(c, seqs[x], seqs[id := s1][x])
  {
  }

  lemma FreeOk(w: World, cache: seq<seq<KV>>, p: Pool, seqs: map<Id, Sequence>, order: seq<Id>, id: Id)
    requires id in seqs && KvOk(w, cache, p, seqs, order)
    ensures KvOk(w, cache, Free(w.c, p, seqs[id].table), WithTable(seqs, id, EmptyTable), order)
  {
    hide *;
    OpenKv(w, cache, p, seqs, order);
    FreeKeeps(w.c, w.universe, p, seqs, order, id);
    WithTableIs(seqs, id, EmptyTable);
    EmptyIs();
    KeptEmpty(w.c, seqs[id], seqs[id].(table := EmptyTable));
    KeptOthers(w.c, seqs, id, seqs[id].(table := EmptyTable));
    ContentsKept(w, cache, p, seqs, Free(w.c, p, seqs[id].table), WithTable(seqs, id, EmptyTable));
    CloseKv(w, cache, Free(w.c, p, seqs[id].table), WithTable(seqs, id, EmptyTable), order);
  }

  lemma EnsureSlotOk(w: World, cache: seq<seq<KV>>, p: Pool, seqs: map<Id, Sequence>, order: seq<Id>, id: Id, n: nat)
    requires id in seqs && KvOk(w, cache, p, seqs, order) && seqs[id].computed <= Span(w.c.blockSize, |seqs[id].table.blocks|)
    ensures var (p1, t1, ok) := EnsureSlot(w.c, p, seqs[id].table, n); KvOk(w, cache, p1, WithTable(seqs, id, t1), order)
  {
    hide *;
    OpenKv(w, cache, p, seqs, order);
    var t := seqs[id].table;
    var (p1, t1, ok) := EnsureSlot(w.c, p, t, n);
    EnsureSlotKeeps(w.c, w.universe, p, seqs, order, id, n);
    WithTableIs(seqs, id, t1);
    KeptGrow(w.c, seqs[id], seqs[id].(table := t1));
    KeptOthers(w.c, seqs, id, seqs[id].(table := t1));
    ContentsKept(w, cache, p, seqs, p1, WithTable(seqs, id, t1));
    CloseKv(w, cache, p1, WithTable(seqs, id, t1), order);
  }

  lemma CommitOk(w: World, cache: seq<seq<KV>>, p: Pool, seqs: map<Id, Sequence>, order: seq<Id>, id: Id)
    requires id in seqs && KvOk(w, cache, p, seqs, order) && seqs[id].computed <= |seqs[id].tokens|
    ensures var (p1, t1) := CommitComputed(w.c, p, seqs[id].table, seqs[id].tokens, seqs[id].computed);
            KvOk(w, cache, p1, WithTable(seqs, id, t1), order) && t1.blocks == seqs[id].table.blocks
            && p1.lru == p.lru && p1.free == p.free && p1.refs == p.refs
  {
    hide *;
    var s := seqs[id];
    OpenKv(w, cache, p, seqs, order);
    var (p1, t1) := CommitComputed(w.c, p, s.table, s.tokens, s.computed);
    CommitKeeps(w.c, w.universe, p, seqs, order, id, s.computed);
    CommittedParts(w.c, w.universe, p, seqs, order, id, s.computed, p1, t1);
    WithTableIs(seqs, id, t1);
    KeptSame(w.c, s, s.(table := t1));
    KeptOthers(w.c, seqs, id, s.(table := t1));
    ContentsKept(w, cache, p, seqs, p, WithTable(seqs, id, t1));
    NewLabelContents(w, cache, p, p1, seqs, id);
    CloseKv(w, cache, p1, WithTable(seqs, id, t1), order);
  }

  lemma NewLabelContents(w: World, cache: seq<seq<KV>>, p: Pool, p1: Pool, seqs: map<Id, Sequence>, id: Id)
    requires ValidConfig(w.c) && id in seqs && LabelContents(w, cache, p) && SeqContents(w, cache, seqs)
    requires LabelsGrow(w.c, p, p1, seqs[id].table, seqs[id].tokens, seqs[id].computed)
    ensures LabelContents(w, cache, p1)
  {
    hide BlockContent, SeqContent;
    var s := seqs[id];
    forall b | b in p1.labels ensures BlockContent(w, cache, b, p1.labels[b]) {
      if !(b in p.labels && p1.labels[b] == p.labels[b]) {
        var i: nat :| NewLabel(w.c, s.table, s.tokens, s.computed, p1, b, i);
        PublishedContent(w, cache, s, s.computed, i);
      }
    }
  }

  /** A sequence that adopted cached blocks may start as if it had computed them. */
  lemma AdoptOk(w: World, cache: seq<seq<KV>>, p: Pool, seqs: map<Id, Sequence>, order: seq<Id>, id: Id, k: nat)
    requires id in seqs && KvOk(w, cache, p, seqs, order) && seqs[id].table == EmptyTable
    requires AllocatePrompt(w.c, p, seqs[id].tokens).2.Some? && k <= AllocatePrompt(w.c, p, seqs[id].tokens).2.value
    ensures var (p2, t2, r) := AllocatePrompt(w.c, p, seqs[id].tokens);
            KvOk(w, cache, p2, seqs[id := seqs[id].(table := t2, computed := k)], order)
  {
    hide *;
    var s := seqs[id];
    OpenKv(w, cache, p, seqs, order);
    var (p2, t2, r) := AllocatePrompt(w.c, p, s.tokens);
    AllocatePromptKeeps(w.c, w.universe, p, seqs, order, id);
    var cached := CachedBlocks(w.c, p, s.tokens);
    AllocatedParts(w.c, w.universe, p, seqs, order, id, p2, t2, cached);
    var s2 := s.(table := t2, computed := k);
    WithTableIs(seqs, id, t2);
    OpenCache(w.c, w.universe, p2, WithTable(seqs, id, t2), order);
    InPlaySame(w.universe, WithTable(seqs, id, t2), seqs[id := s2]);
    SameKv(w.c, w.universe, p2, WithTable(seqs, id, t2), order, seqs[id := s2]);
    KeptRest(w, seqs, id);
    ContentsKept(w, cache, p, seqs, p2, seqs - {id});
    LabelsOfTable(w.c, w.universe, p2, WithTable(seqs, id, t2), order, id);
    HitsContent(w, cache, p2, s2, cached);
    PutBack(w, cache, seqs, id, s2);
    CloseKv(w, cache, p2, seqs[id := s2], order);
  }

  lemma KeptRest(w: World, seqs: map<Id, Sequence>, id: Id)
    requires ValidConfig(w.c)
    ensures forall x :: x in seqs - {id} ==> x in seqs && Kept(w.c, seqs[x], (seqs - {id})[x])
  {
  }

  lemma PutBack(w: World, cache: seq<seq<KV>>, seqs: map<Id, Sequence>, id: Id, s2: Sequence)
    requires ValidConfig(w.c) && SeqContents(w, cache, seqs - {id}) && SeqContent(w, cache, s2)
    ensures SeqContents(w, cache, seqs[id := s2])
  {
    forall x | x in seqs[id := s2] && x != id ensures SeqContent(w, cache, seqs[x]) {
      assert x in seqs - {id};
    }
  }

  lemma AllocatedParts(c: KvConfig, universe: set<seq<Token>>, p: Pool, seqs: map<Id, Sequence>, order: seq<Id>, id: Id, p2: Pool, t2: Table, cached: nat)
    requires ValidConfig(c) && id in seqs && Allocated(c, universe, p, seqs, order, id, p2, t2, cached)
    ensures CacheInv(c, universe, p2, WithTable(seqs, id, t2), order)
    ensures cached <= |t2.blocks| == |t2.hashes| && |t2.blocks| == BlocksNeeded(c, |seqs[id].tokens|) && t2.committed == cached
    ensures forall i :: 0 <= i < |t2.hashes| ==> (t2.hashes[i] != 0 <==> i < cached)
    ensures forall b :: b in p2.labels ==> b in p.labels && p2.labels[b] == p.labels[b]
  {
  }

  lemma LabelsOfTable(c: KvConfig, universe: set<seq<Token>>, p: Pool, seqs: map<Id, Sequence>, order: seq<Id>, id: Id)
    requires id in seqs && CacheInv(c, universe, p, seqs, order)
    ensures EntryLabels(c, p, seqs[id].table, seqs[id].tokens)
  {
  }

  lemma HitsContent(w: World, cache: seq<seq<KV>>, p: Pool, s: Sequence, cached: nat)
    requires ValidConfig(w.c) && LabelContents(w, cache, p) && EntryLabels(w.c, p, s.table, s.tokens)
    requires cached <= |s.table.blocks| == |s.table.hashes| && s.computed <= Span(w.c.blockSize, cached)
    requires forall i :: 0 <= i < cached ==> s.table.hashes[i] != 0
    ensures SeqContent(w, cache, s)
  {
    hide BlockContent, SlotHolds;
    forall pos: nat | Computed(w.c, s, pos) ensures SlotHolds(w.net, cache, Slot(w.c, s.table.blocks, pos), s.tokens[..pos + 1]) {
      PosInTable(w.c, s.table.blocks, pos);
      var i, o := Quot(w.c.blockSize, pos), Rem(w.c.blockSize, pos);
      if i >= cached { SpanMono(w.c.blockSize, cached, i); }
      assert s.table.hashes[i] != 0;
      AdoptedContent(w, cache, s.table.blocks[i], s.tokens, i, o);
    }
  }

  /** The cache invariant does not read scheduling fields. */
  lemma SameKv(c: KvConfig, universe: set<seq<Token>>, p: Pool, seqs: map<Id, Sequence>, order: seq<Id>, seqs1: map<Id, Sequence>)
    requires CacheInv(c, universe, p, seqs, order) && seqs1.Keys == seqs.Keys
    requires forall id :: id in seqs ==> seqs1[id].table == seqs[id].table && seqs[id].tokens <= seqs1[id].tokens
    requires AllInPlay(universe, seqs) ==> AllInPlay(universe, seqs1)
    ensures CacheInv(c, universe, p, seqs1, order)
  {
    hide *;
    OpenCache(c, universe, p, seqs, order);
    KvFrame(c, p, seqs, order, seqs1);
    EntriesFrame(c, p, seqs, seqs1);
    CloseCache(c, universe, p, seqs1, order);
  }

  lemma EntriesFrame(c: KvConfig, p: Pool, seqs: map<Id, Sequence>, seqs1: map<Id, Sequence>)
    requires AllEntryLabels(c, p, seqs) && seqs1.Keys == seqs.Keys
    requires forall id :: id in seqs ==> seqs1[id].table == seqs[id].table && seqs[id].tokens <= seqs1[id].tokens
    ensures AllEntryLabels(c, p, seqs1)
  {
    forall id | id in seqs1 ensures EntryLabels(c, p, seqs1[id].table, seqs1[id].tokens) {
      assert EntryLabels(c, p, seqs[id].table, seqs[id].tokens);
    }
  }

  /** Scheduling changes, appended tokens and forgotten computations keep the invariant. */
  lemma FrameOk(w: World, cache: seq<seq<KV>>, p: Pool, seqs: map<Id, Sequence>, order: seq<Id>, seqs1: map<Id, Sequence>)
    requires KvOk(w, cache, p, seqs, order) && seqs1.Keys == seqs.Keys
    requires forall id :: id in seqs ==> seqs1[id].table == seqs[id].table && seqs[id].tokens <= seqs1[id].tokens
    requires forall id :: id in seqs ==> Kept(w.c, seqs[id], seqs1[id])
    requires AllInPlay(w.universe, seqs1)
    ensures KvOk(w, cache, p, seqs1, order)
  {
    hide *;
    OpenKv(w, cache, p, seqs, order);
    SameKv(w.c, w.universe, p, seqs, order, seqs1);
    ContentsKept(w, cache, p, seqs, p, seqs1);
    CloseKv(w, cache, p, seqs1, order);
  }

  // ---- a forward pass keeps the invariant and computes the slices ----

  ghost predicate SliceOk(c: KvConfig, seqs: map<Id, Sequence>, sl: Slice) {
    && sl.id in seqs && sl.len > 0 && sl.start == seqs[sl.id].computed
    && sl.start + sl.len <= |seqs[sl.id].tokens| && sl.start + sl.len <= Span(c.blockSize, |seqs[sl.id].table.blocks|)
  }

  /** What the model sees of a slice through its sequence pointer. */
  function WorkOf(seqs: map<Id, Sequence>, sl: Slice): Work {
    if sl.id in seqs then Work(seqs[sl.id].table.blocks, seqs[sl.id].tokens, sl.start, sl.len, sl.needsLogits, seqs[sl.id].params)
    else Work([], [], sl.start, sl.len, sl.needsLogits, SamplingParams(0, 0.0, 0.0, 0, [], false))
  }

  function Works(seqs: map<Id, Sequence>, slices: seq<Slice>): (r: seq<Work>)
    ensures |r| == |slices|
    ensures forall i :: 0 <= i < |slices| ==> r[i] == WorkOf(seqs, slices[i])
  {
    if slices == [] then [] else Works(seqs, slices[..|slices| - 1]) + [WorkOf(seqs, slices[|slices| - 1])]
  }

  /** Some sequence has prefix `x` at slot `s`, computed or not. */
  ghost predicate Claims(c: KvConfig, seqs: map<Id, Sequence>, id: Id, pos: nat, s: nat, x: seq<Token>)
    requires ValidConfig(c)
  {
    && id in seqs && pos < |seqs[id].tokens| && pos < Span(c.blockSize, |seqs[id].table.blocks|)
    && Slot(c, seqs[id].table.blocks, pos) == s && x == seqs[id].tokens[..pos + 1]
  }

  /**
   Two table positions that share a physical slot stand for the same token prefix. This is what
   makes the last-token rewrite of a shared published block harmless.
   */
  lemma SharedSlotSamePrefix(c: KvConfig, universe: set<seq<Token>>, p: Pool, seqs: map<Id, Sequence>, order: seq<Id>,
                             id: Id, pos: nat, id': Id, pos': nat, s: nat, x: seq<Token>, x': seq<Token>)
    requires ValidConfig(c) && CacheInv(c, universe, p, seqs, order) && Claims(c, seqs, id, pos, s, x) && Claims(c, seqs, id', pos', s, x')
    ensures x == x'
  {
    hide CacheInv, Slot;
    var t, t' := seqs[id].table, seqs[id'].table;
    PosInTable(c, t.blocks, pos);
    PosInTable(c, t'.blocks, pos');
    var i, o := Quot(c.blockSize, pos), Rem(c.blockSize, pos);
    var i', o' := Quot(c.blockSize, pos'), Rem(c.blockSize, pos');
    SpanUnique(c.blockSize, t.blocks[i], o, t'.blocks[i'], o');
    if id != id' || i != i' {
      SharedEntrySamePrefix(c, universe, p, seqs, order, id, i, id', i');
      assert seqs[id].tokens[..Span(c.blockSize, i + 1)][..pos + 1] == seqs[id].tokens[..pos + 1];
      assert seqs[id'].tokens[..Span(c.blockSize, i + 1)][..pos + 1] == seqs[id'].tokens[..pos + 1];
    }
  }

  /** Two different table entries for one block: same index, same prefix, and the block is published. */
  lemma SharedEntrySamePrefix(c: KvConfig, universe: set<seq<Token>>, p: Pool, seqs: map<Id, Sequence>, order: seq<Id>,
                              id: Id, i: nat, id': Id, i': nat)
    requires id in seqs && id' in seqs && (id != id' || i != i')
    requires i < |seqs[id].table.blocks| && i' < |seqs[id'].table.blocks| && seqs[id].table.blocks[i] == seqs[id'].table.blocks[i']
    requires CacheInv(c, universe, p, seqs, order)
    ensures i == i' && Span(c.blockSize, i + 1) <= |seqs[id].tokens| && Span(c.blockSize, i + 1) <= |seqs[id'].tokens|
    ensures seqs[id].tokens[..Span(c.blockSize, i + 1)] == seqs[id'].tokens[..Span(c.blockSize, i + 1)]
    ensures seqs[id].table.blocks[i] in p.labels
  {
    hide *;
    OpenCache(c, universe, p, seqs, order);
    var b := seqs[id].table.blocks[i];
    TwoEntries(seqs, order, id, i, id', i');
    CountAt(p, Owned(seqs, order), b);
    EntryHash(c, p, seqs, id, i);
    EntryHash(c, p, seqs, id', i');
    EntryLabelAt(c, p, seqs, id, i);
    EntryLabelAt(c, p, seqs, id', i');
    PositiveBlock(c);
    SpanUnique(c.blockSize, i + 1, 0, i' + 1, 0);
  }

  lemma PositiveBlock(c: KvConfig)
    requires ValidConfig(c)
    ensures c.blockSize > 0 && c.numBlocks > 0
  {
  }

  lemma EntryHash(c: KvConfig, p: Pool, seqs: map<Id, Sequence>, id: Id, i: nat)
    requires TablesInv(c, p, seqs) && id in seqs && i < |seqs[id].table.blocks|
    ensures i < |seqs[id].table.hashes| && seqs[id].table.hashes[i] == Get(p.blockHash, seqs[id].table.blocks[i])
    ensures seqs[id].table.blocks[i] < c.numBlocks
  {
    assert TableInv(c, p, seqs[id].table, seqs[id].tokens);
  }

  /** The prefix that belongs at slot `s`: whatever any sequence claims for it. */
  ghost function WantAt(c: KvConfig, seqs: map<Id, Sequence>, s: nat): seq<Token>
    requires ValidConfig(c)
  {
    if exists id, pos: nat, x :: Claims(c, seqs, id, pos, s, x)
    then var id, pos: nat, x :| Claims(c, seqs, id, pos, s, x); x
    else []
  }

  lemma WantIs(c: KvConfig, universe: set<seq<Token>>, p: Pool, seqs: map<Id, Sequence>, order: seq<Id>, id: Id, pos: nat, s: nat, x: seq<Token>)
    requires ValidConfig(c) && CacheInv(c, universe, p, seqs, order) && Claims(c, seqs, id, pos, s, x)
    ensures WantAt(c, seqs, s) == x
  {
    hide CacheInv, Claims;
    var id', pos': nat, x' :| Claims(c, seqs, id', pos', s, x') && WantAt(c, seqs, s) == x';
    SharedSlotSamePrefix(c, universe, p, seqs, order, id, pos, id', pos', s, x, x');
  }

  ghost function Want(c: KvConfig, seqs: map<Id, Sequence>): nat -> seq<Token>
    requires ValidConfig(c)
  {
    (s: nat) => WantAt(c, seqs, s)
  }

  ghost predicate SlicesOk(c: KvConfig, seqs: map<Id, Sequence>, slices: seq<Slice>) {
    forall k :: 0 <= k < |slices| ==> SliceOk(c, seqs, slices[k])
  }

  ghost predicate ItemOf(c: KvConfig, seqs: map<Id, Sequence>, sl: Slice, it: Item) {
    SliceOk(c, seqs, sl) && it.blocks == seqs[sl.id].table.blocks && it.tokens == seqs[sl.id].tokens && sl.start <= it.pos < sl.start + sl.len
  }

  lemma ItemSlice(c: KvConfig, seqs: map<Id, Sequence>, slices: seq<Slice>, i: nat)
    requires SlicesOk(c, seqs, slices) && i < |Flatten(Works(seqs, slices))|
    ensures exists k :: 0 <= k < |slices| && ItemOf(c, seqs, slices[k], Flatten(Works(seqs, slices))[i])
  {
    hide Flatten, SliceOk;
    var works := Works(seqs, slices);
    FlattenFrom(works, i);
    var k :| 0 <= k < |works| && FromSlice(works[k], Flatten(works)[i]);
    assert works[k] == WorkOf(seqs, slices[k]);
    SliceHere(c, seqs, slices[k]);
    assert ItemOf(c, seqs, slices[k], Flatten(works)[i]);
  }

  lemma SliceHere(c: KvConfig, seqs: map<Id, Sequence>, sl: Slice)
    requires SliceOk(c, seqs, sl)
    ensures sl.id in seqs && WorkOk(WorkOf(seqs, sl))
  {
  }

  /** What an item reads for position `q` is claimed by its own sequence. */
  lemma ItemClaims(c: KvConfig, seqs: map<Id, Sequence>, sl: Slice, it: Item, q: nat)
    requires ValidConfig(c) && ItemOf(c, seqs, sl, it) && q <= it.pos
    ensures Claims(c, seqs, sl.id, q, Slot(c, it.blocks, q), it.tokens[..q + 1])
  {
  }

  lemma ClaimInRange(c: KvConfig, universe: set<seq<Token>>, p: Pool, seqs: map<Id, Sequence>, order: seq<Id>, id: Id, pos: nat, s: nat, x: seq<Token>)
    requires ValidConfig(c) && CacheInv(c, universe, p, seqs, order) && Claims(c, seqs, id, pos, s, x)
    ensures s < Span(c.blockSize, c.numBlocks)
  {
    hide CacheInv;
    PosInTable(c, seqs[id].table.blocks, pos);
    var i := Quot(c.blockSize, pos);
    BlockInRange(c, universe, p, seqs, order, id, i);
    SpanMono(c.blockSize, seqs[id].table.blocks[i], c.numBlocks);
  }

  lemma BlockInRange(c: KvConfig, universe: set<seq<Token>>, p: Pool, seqs: map<Id, Sequence>, order: seq<Id>, id: Id, i: nat)
    requires id in seqs && i < |seqs[id].table.blocks| && CacheInv(c, universe, p, seqs, order)
    ensures seqs[id].table.blocks[i] < c.numBlocks
  {
    EntryHash(c, p, seqs, id, i);
  }

  lemma StepAgrees(c: KvConfig, universe: set<seq<Token>>, p: Pool, seqs: map<Id, Sequence>, order: seq<Id>, slices: seq<Slice>)
    requires ValidConfig(c) && CacheInv(c, universe, p, seqs, order) && SlicesOk(c, seqs, slices)
    ensures Agrees(c, Flatten(Works(seqs, slices)), Want(c, seqs), Span(c.blockSize, c.numBlocks))
  {
    hide CacheInv, Slot, Flatten, Works, SlicesOk, WantAt;
    var items := Flatten(Works(seqs, slices));
    forall i, q: nat | 0 <= i < |items| && q <= items[i].pos
      ensures ItemOk(items[i])
      ensures Slot(c, items[i].blocks, q) < Span(c.blockSize, c.numBlocks) && Want(c, seqs)(Slot(c, items[i].blocks, q)) == items[i].tokens[..q + 1]
    {
      ItemSlice(c, seqs, slices, i);
      var k :| 0 <= k < |slices| && ItemOf(c, seqs, slices[k], items[i]);
      ItemClaims(c, seqs, slices[k], items[i], q);
      var s := Slot(c, items[i].blocks, q);
      ClaimInRange(c, universe, p, seqs, order, slices[k].id, q, s, items[i].tokens[..q + 1]);
      WantIs(c, universe, p, seqs, order, slices[k].id, q, s, items[i].tokens[..q + 1]);
    }
    forall i | 0 <= i < |items| ensures ItemOk(items[i]) {
      ItemSlice(c, seqs, slices, i);
    }
  }

  /** Every position of a slice is written by the pass. */
  lemma SliceWritten(c: KvConfig, seqs: map<Id, Sequence>, slices: seq<Slice>, k: nat, q: nat)
    requires ValidConfig(c) && SlicesOk(c, seqs, slices) && k < |slices| && slices[k].start <= q < slices[k].start + slices[k].len
    ensures slices[k].id in seqs && Written(c, Flatten(Works(seqs, slices)), Slot(c, seqs[slices[k].id].table.blocks, q))
  {
    hide Flatten, Slot;
    var works := Works(seqs, slices);
    assert SliceOk(c, seqs, slices[k]) && works[k] == WorkOf(seqs, slices[k]);
    FlattenHas(works, k, q - slices[k].start);
    var s := seqs[slices[k].id];
    var i :| 0 <= i < |Flatten(works)| && Flatten(works)[i] == Item(s.table.blocks, s.tokens, q);
  }

  lemma StepCovered(w: World, cache: seq<seq<KV>>, p: Pool, seqs: map<Id, Sequence>, order: seq<Id>, slices: seq<Slice>)
    requires ValidConfig(w.c) && CacheInv(w.c, w.universe, p, seqs, order) && SeqContents(w, cache, seqs) && |cache| == w.net.layers
    requires SlicesOk(w.c, seqs, slices)
    ensures Covered(w.c, w.net, cache, Flatten(Works(seqs, slices)), Want(w.c, seqs))
  {
    hide CacheInv, Slot, Flatten, Works, SlicesOk, WantAt, Written;
    var c := w.c;
    var items := Flatten(Works(seqs, slices));
    forall i, q: nat, l | 0 <= i < |items| && q <= items[i].pos && 0 <= l < w.net.layers
      ensures Written(c, items, Slot(c, items[i].blocks, q)) || Holds(w.net, l, cache[l], Slot(c, items[i].blocks, q), Want(c, seqs))
    {
      ItemSlice(c, seqs, slices, i);
      var k :| 0 <= k < |slices| && ItemOf(c, seqs, slices[k], items[i]);
      if q >= slices[k].start {
        SliceWritten(c, seqs, slices, k, q);
      } else {
        var s := seqs[slices[k].id];
        assert SeqContent(w, cache, s) && Computed(c, s, q);
        ItemClaims(c, seqs, slices[k], items[i], q);
        WantIs(c, w.universe, p, seqs, order, slices[k].id, q, Slot(c, items[i].blocks, q), items[i].tokens[..q + 1]);
      }
    }
  }

  /** After a pass a claimed slot holds its claim if it was written or held it before. */
  lemma ClaimHolds(w: World, cache: seq<seq<KV>>, cache1: seq<seq<KV>>, items: seq<Item>, want: nat -> seq<Token>, s: nat, x: seq<Token>)
    requires ValidConfig(w.c) && |cache1| == |cache|
    requires forall l :: 0 <= l < |cache| ==> LayerDone(w.c, w.net, l, cache[l], cache1[l], items, want)
    requires x != [] && (Written(w.c, items, s) ==> want(s) == x) && (!Written(w.c, items, s) ==> SlotHolds(w.net, cache, s, x))
    ensures SlotHolds(w.net, cache1, s, x)
  {
    forall l | 0 <= l < |cache1| ensures At(cache1[l], s) == RefKV(w.net, l, x) {
      assert LayerDone(w.c, w.net, l, cache[l], cache1[l], items, want);
    }
  }

  /** Slots of computed positions still hold their prefixes, and so do those the pass just computed. */
  lemma SeqContentAfter(w: World, cache: seq<seq<KV>>, cache1: seq<seq<KV>>, p: Pool, seqs: map<Id, Sequence>, order: seq<Id>, slices: seq<Slice>, id: Id, s1: Sequence)
    requires ValidConfig(w.c) && |cache1| == |cache| && id in seqs && CacheInv(w.c, w.universe, p, seqs, order)
    requires SeqContents(w, cache, seqs) && SlicesOk(w.c, seqs, slices)
    requires forall l :: 0 <= l < |cache| ==> LayerDone(w.c, w.net, l, cache[l], cache1[l], Flatten(Works(seqs, slices)), Want(w.c, seqs))
    requires s1 == seqs[id] || exists k :: 0 <= k < |slices| && slices[k].id == id && s1 == seqs[id].(computed := slices[k].start + slices[k].len)
    ensures SeqContent(w, cache1, s1)
  {
    hide CacheInv, Slot, Flatten, Works, WantAt, Written, LayerDone, SlotHolds;
    var items := Flatten(Works(seqs, slices));
    var s := seqs[id];
    forall pos: nat | Computed(w.c, s1, pos) ensures SlotHolds(w.net, cache1, Slot(w.c, s1.table.blocks, pos), s1.tokens[..pos + 1]) {
      var slot := Slot(w.c, s.table.blocks, pos);
      assert Claims(w.c, seqs, id, pos, slot, s.tokens[..pos + 1]);
      WantIs(w.c, w.universe, p, seqs, order, id, pos, slot, s.tokens[..pos + 1]);
      if pos >= s.computed {
        var k :| 0 <= k < |slices| && slices[k].id == id && s1 == s.(computed := slices[k].start + slices[k].len);
        assert SliceOk(w.c, seqs, slices[k]);
        SliceWritten(w.c, seqs, slices, k, pos);
      } else {
        assert SeqContent(w, cache, s) && Computed(w.c, s, pos);
      }
      ClaimHolds(w, cache, cache1, items, Want(w.c, seqs), slot, s.tokens[..pos + 1]);
    }
  }

  /** A position written into a published block stands for the prefix that block was published for. */
  lemma RewriteIsIdempotent(w: World, p: Pool, seqs: map<Id, Sequence>, order: seq<Id>, slices: seq<Slice>, b: Block, o: nat)
    requires ValidConfig(w.c) && CacheInv(w.c, w.universe, p, seqs, order) && SlicesOk(w.c, seqs, slices)
    requires b in p.labels && o < w.c.blockSize <= |p.labels[b]|
    requires Written(w.c, Flatten(Works(seqs, slices)), Span(w.c.blockSize, b) + o)
    ensures Want(w.c, seqs)(Span(w.c.blockSize, b) + o) == p.labels[b][..|p.labels[b]| - w.c.blockSize + o + 1]
  {
    hide CacheInv, Slot, Flatten, Works, SlicesOk, WantAt;
    var c := w.c;
    var items := Flatten(Works(seqs, slices));
    var i :| 0 <= i < |items| && Slot(c, items[i].blocks, items[i].pos) == Span(c.blockSize, b) + o;
    ItemSlice(c, seqs, slices, i);
    var k :| 0 <= k < |slices| && ItemOf(c, seqs, slices[k], items[i]);
    var id, pos := slices[k].id, items[i].pos;
    ItemClaims(c, seqs, slices[k], items[i], pos);
    WantIs(c, w.universe, p, seqs, order, id, pos, Span(c.blockSize, b) + o, items[i].tokens[..pos + 1]);
    EntryOfLabel(c, w.universe, p, seqs, order, slices[k], items[i], b, o);
  }

  /** An item that writes offset `o` of a published block stands at that offset of the block's own prefix. */
  lemma EntryOfLabel(c: KvConfig, universe: set<seq<Token>>, p: Pool, seqs: map<Id, Sequence>, order: seq<Id>, sl: Slice, it: Item, b: Block, o: nat)
    requires ValidConfig(c) && ItemOf(c, seqs, sl, it) && Slot(c, it.blocks, it.pos) == Span(c.blockSize, b) + o
    requires b in p.labels && o < c.blockSize <= |p.labels[b]| && CacheInv(c, universe, p, seqs, order)
    ensures it.pos < |it.tokens| && it.tokens[..it.pos + 1] == p.labels[b][..|p.labels[b]| - c.blockSize + o + 1]
  {
    hide CacheInv;
    PosInTable(c, it.blocks, it.pos);
    var j := Quot(c.blockSize, it.pos);
    SpanUnique(c.blockSize, it.blocks[j], Rem(c.blockSize, it.pos), b, o);
    PublishedEntry(c, universe, p, seqs, order, sl.id, j);
    assert p.labels[b][..it.pos + 1] == it.tokens[..it.pos + 1];
  }

  lemma PublishedEntry(c: KvConfig, universe: set<seq<Token>>, p: Pool, seqs: map<Id, Sequence>, order: seq<Id>, id: Id, i: nat)
    requires id in seqs && i < |seqs[id].table.blocks| && seqs[id].table.blocks[i] in p.labels
    requires CacheInv(c, universe, p, seqs, order)
    ensures Span(c.blockSize, i + 1) <= |seqs[id].tokens| && p.labels[seqs[id].table.blocks[i]] == seqs[id].tokens[..Span(c.blockSize, i + 1)]
  {
    hide *;
    OpenCache(c, universe, p, seqs, order);
    EntryHash(c, p, seqs, id, i);
    LabelHashed(c, p, seqs[id].table.blocks[i]);
    EntryLabelAt(c, p, seqs, id, i);
  }

  lemma LabelHashed(c: KvConfig, p: Pool, b: Block)
    requires HashIndexInv(c, p) && b in p.labels
    ensures Get(p.blockHash, b) != 0
  {
  }

  lemma LabelContentsAfter(w: World, cache: seq<seq<KV>>, cache1: seq<seq<KV>>, p: Pool, seqs: map<Id, Sequence>, order: seq<Id>, slices: seq<Slice>)
    requires ValidConfig(w.c) && |cache1| == |cache| && CacheInv(w.c, w.universe, p, seqs, order)
    requires LabelContents(w, cache, p) && SlicesOk(w.c, seqs, slices)
    requires forall l :: 0 <= l < |cache| ==> LayerDone(w.c, w.net, l, cache[l], cache1[l], Flatten(Works(seqs, slices)), Want(w.c, seqs))
    ensures LabelContents(w, cache1, p)
  {
    hide CacheInv, Slot, Flatten, Works, WantAt, Written, LayerDone, SlotHolds, SlicesOk;
    var items := Flatten(Works(seqs, slices));
    forall b, o: nat | b in p.labels && o < w.c.blockSize <= |p.labels[b]| ensures OffsetHolds(w, cache1, b, p.labels[b], o) {
      assert BlockContent(w, cache, b, p.labels[b]) && OffsetHolds(w, cache, b, p.labels[b], o);
      var slot := Span(w.c.blockSize, b) + o;
      if Written(w.c, items, slot) {
        RewriteIsIdempotent(w, p, seqs, order, slices, b, o);
      }
      ClaimHolds(w, cache, cache1, items, Want(w.c, seqs), slot, p.labels[b][..|p.labels[b]| - w.c.blockSize + o + 1]);
    }
  }

  function NumLogits(slices: seq<Slice>): nat {
    if slices == [] then 0 else NumLogits(slices[..|slices| - 1]) + if slices[|slices| - 1].needsLogits then 1 else 0
  }

  lemma {:induction false} NumLogitsRows(seqs: map<Id, Sequence>, slices: seq<Slice>)
    ensures |LogitRows(Works(seqs, slices))| == NumLogits(slices)
  {
    if slices != [] {
      NumLogitsRows(seqs, slices[..|slices| - 1]);
      var works := Works(seqs, slices);
      assert works[..|works| - 1] == Works(seqs, slices[..|slices| - 1]);
      assert works[|works| - 1] == WorkOf(seqs, slices[|slices| - 1]);
    }
  }

  /** What one pass over a step's slices does to the cache and returns. */
  ghost predicate PassOk(w: World, p: Pool, seqs: map<Id, Sequence>, order: seq<Id>, slices: seq<Slice>, cache1: seq<seq<KV>>, sampled: seq<Token>)
    requires ValidConfig(w.c)
  {
    && KvOk(w, cache1, p, seqs, order)
    && SlicesOk(w.c, seqs, slices)
    && (forall k :: 0 <= k < |slices| ==>
          slices[k].id in seqs && SeqContent(w, cache1, seqs[slices[k].id].(computed := slices[k].start + slices[k].len)))
    && |sampled| == NumLogits(slices)
    && (forall m :: 0 <= m < |slices| && slices[m].needsLogits ==> SampledOk(w, seqs, slices, sampled, m))
  }

  /** The token sampled for slice `m` is the reference's next token for the prefix the slice ends at. */
  ghost predicate SampledOk(w: World, seqs: map<Id, Sequence>, slices: seq<Slice>, sampled: seq<Token>, m: nat)
    requires m < |slices|
  {
    && SliceOk(w.c, seqs, slices[m])
    && NumLogits(slices[..m]) < |sampled|
    && sampled[NumLogits(slices[..m])] ==
       NextToken(w.net, seqs[slices[m].id].params, seqs[slices[m].id].tokens[..slices[m].start + slices[m].len])
  }

  lemma WorksPrefix(seqs: map<Id, Sequence>, slices: seq<Slice>, m: nat)
    requires m <= |slices|
    ensures Works(seqs, slices)[..m] == Works(seqs, slices[..m])
  {
  }

  /** Batching, chunking, paging and sharing change neither what is stored nor what is sampled. */
  lemma StepForward(w: World, cache: seq<seq<KV>>, p: Pool, seqs: map<Id, Sequence>, order: seq<Id>, slices: seq<Slice>)
    requires KvOk(w, cache, p, seqs, order) && SlicesOk(w.c, seqs, slices)
    ensures ValidConfig(w.c) && |cache| == w.net.layers && forall i :: 0 <= i < |slices| ==> WorkOk(Works(seqs, slices)[i])
    ensures var (cache1, sampled) := Forward(w.c, w.net, cache, Works(seqs, slices)); PassOk(w, p, seqs, order, slices, cache1, sampled)
  {
    hide CacheInv, Flatten, SeqContents, LabelContents, Agrees, Covered, SeqContent, SliceOk, LayerDone, Want, LogitRows, Forward, RowOk, SampledOk, NumLogits;
    var works := Works(seqs, slices);
    forall i | 0 <= i < |works| ensures WorkOk(works[i]) {
      SliceHere(w.c, seqs, slices[i]);
    }
    StepAgrees(w.c, w.universe, p, seqs, order, slices);
    StepCovered(w, cache, p, seqs, order, slices);
    ForwardCorrect(w.c, w.net, cache, works, Want(w.c, seqs), Span(w.c.blockSize, w.c.numBlocks));
    var (cache1, sampled) := Forward(w.c, w.net, cache, works);
    AfterPass(w, cache, cache1, p, seqs, order, slices);
    NumLogitsRows(seqs, slices);
    forall m | 0 <= m < |slices| && slices[m].needsLogits ensures SampledOk(w, seqs, slices, sampled, m) {
      SampleOfRow(w, seqs, slices, sampled, m);
    }
  }

  lemma SampleOfRow(w: World, seqs: map<Id, Sequence>, slices: seq<Slice>, sampled: seq<Token>, m: nat)
    requires m < |slices| && SliceOk(w.c, seqs, slices[m]) && RowOk(w.net, Works(seqs, slices), sampled, m)
    ensures SampledOk(w, seqs, slices, sampled, m)
  {
    hide NextToken, LogitRows, NumLogits;
    SliceHere(w.c, seqs, slices[m]);
    WorksPrefix(seqs, slices, m);
    NumLogitsRows(seqs, slices[..m]);
  }

  lemma AfterPass(w: World, cache: seq<seq<KV>>, cache1: seq<seq<KV>>, p: Pool, seqs: map<Id, Sequence>, order: seq<Id>, slices: seq<Slice>)
    requires KvOk(w, cache, p, seqs, order) && SlicesOk(w.c, seqs, slices) && |cache1| == |cache|
    requires forall l :: 0 <= l < |cache| ==> LayerDone(w.c, w.net, l, cache[l], cache1[l], Flatten(Works(seqs, slices)), Want(w.c, seqs))
    ensures KvOk(w, cache1, p, seqs, order)
    ensures forall k :: 0 <= k < |slices| ==> slices[k].id in seqs && SeqContent(w, cache1, seqs[slices[k].id].(computed := slices[k].start + slices[k].len))
  {
    hide CacheInv, Flatten, LabelContents, SeqContent, SliceOk, Want;
    LabelContentsAfter(w, cache, cache1, p, seqs, order, slices);
    forall id | id in seqs ensures SeqContent(w, cache1, seqs[id]) {
      SeqContentAfter(w, cache, cache1, p, seqs, order, slices, id, seqs[id]);
    }
    forall k | 0 <= k < |slices| ensures slices[k].id in seqs && SeqContent(w, cache1, seqs[slices[k].id].(computed := slices[k].start + slices[k].len)) {
      SliceHere(w.c, seqs, slices[k]);
      SeqContentAfter(w, cache, cache1, p, seqs, order, slices, slices[k].id, seqs[slices[k].id].(computed := slices[k].start + slices[k].len));
    }
  }
}
