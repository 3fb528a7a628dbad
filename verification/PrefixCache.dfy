/**
 The pool together with every sequence's block table: ownership, the published prefix cache,
 and what each manager operation keeps of both.
 */
module PrefixCache {
  import opened Lists
  import opened Paging
  import opened BlockPool
  import opened Requests

  // ---- ownership ----

  /** All table entries of the sequences in `order`, with multiplicity. */
  ghost function Owned(seqs: map<Id, Sequence>, order: seq<Id>): multiset<Block> {
    if order == [] then multiset{}
    else (if order[0] in seqs then multiset(seqs[order[0]].table.blocks) else multiset{}) + Owned(seqs, order[1..])
  }

  lemma {:induction false} OwnedSplit(seqs: map<Id, Sequence>, order: seq<Id>, id: Id)
    requires id in order && id in seqs
    ensures Owned(seqs, order) == Owned(seqs, Without(order, id)) + multiset(seqs[id].table.blocks)
  {
    if order[0] != id {
      OwnedSplit(seqs, order[1..], id);
      assert Without(order, id)[1..] == Without(order[1..], id);
    }
  }

  lemma {:induction false} OwnedSame(seqs: map<Id, Sequence>, seqs': map<Id, Sequence>, order: seq<Id>)
    requires forall id :: id in order ==> id in seqs && id in seqs' && seqs[id].table.blocks == seqs'[id].table.blocks
    ensures Owned(seqs, order) == Owned(seqs', order)
  {
    if order != [] {
      OwnedSame(seqs, seqs', order[1..]);
    }
  }

  lemma {:induction false} OwnedEntry(seqs: map<Id, Sequence>, order: seq<Id>, b: Block)
    ensures b in Owned(seqs, order) <==> exists id :: id in order && id in seqs && b in seqs[id].table.blocks
  {
    if order != [] {
      OwnedEntry(seqs, order[1..], b);
      assert order == [order[0]] + order[1..];
    }
  }

  ghost predicate OrderInv(seqs: map<Id, Sequence>, order: seq<Id>) {
    NoDup(order) && forall id :: id in order <==> id in seqs
  }

  ghost predicate TablesInv(c: KvConfig, p: Pool, seqs: map<Id, Sequence>) {
    forall id :: id in seqs ==> TableInv(c, p, seqs[id].table, seqs[id].tokens)
  }

  ghost predicate KvInv(c: KvConfig, p: Pool, seqs: map<Id, Sequence>, order: seq<Id>) {
    OrderInv(seqs, order) && PoolInv(c, p, Owned(seqs, order)) && TablesInv(c, p, seqs)
  }

  /** The entries of everyone but `id`. */
  ghost function Others(seqs: map<Id, Sequence>, order: seq<Id>, id: Id): multiset<Block> {
    Owned(seqs, Without(order, id))
  }

  /** An operation on one sequence's table that respects the other owners' hashes keeps the whole state. */
  lemma LiftTable(c: KvConfig, p: Pool, seqs: map<Id, Sequence>, order: seq<Id>, id: Id, p': Pool, s': Sequence)
    requires KvInv(c, p, seqs, order) && id in seqs
    requires PoolInv(c, p', Others(seqs, order, id) + multiset(s'.table.blocks))
    requires TableInv(c, p', s'.table, s'.tokens)
    requires forall b :: b in Others(seqs, order, id) ==> Get(p'.blockHash, b) == Get(p.blockHash, b)
    ensures KvInv(c, p', seqs[id := s'], order)
    ensures Others(seqs[id := s'], order, id) == Others(seqs, order, id)
  {
    LiftOwned(seqs, order, id, s');
    LiftTables(c, p, seqs, order, id, p', s');
  }

  lemma LiftOwned(seqs: map<Id, Sequence>, order: seq<Id>, id: Id, s': Sequence)
    requires OrderInv(seqs, order) && id in seqs
    ensures Owned(seqs[id := s'], order) == Others(seqs, order, id) + multiset(s'.table.blocks)
    ensures Others(seqs[id := s'], order, id) == Others(seqs, order, id)
  {
    WithoutNoDup(order, id);
    OwnedSame(seqs, seqs[id := s'], Without(order, id));
    OwnedSplit(seqs[id := s'], order, id);
  }

  lemma LiftTables(c: KvConfig, p: Pool, seqs: map<Id, Sequence>, order: seq<Id>, id: Id, p': Pool, s': Sequence)
    requires OrderInv(seqs, order) && TablesInv(c, p, seqs) && id in seqs
    requires TableInv(c, p', s'.table, s'.tokens)
    requires forall b :: b in Others(seqs, order, id) ==> Get(p'.blockHash, b) == Get(p.blockHash, b)
    ensures TablesInv(c, p', seqs[id := s'])
  {
    WithoutNoDup(order, id);
    forall x | x in seqs && x != id ensures TableInv(c, p', seqs[x].table, seqs[x].tokens) {
      EntriesOfOther(seqs, Without(order, id), x);
      TableSameHashes(c, p, p', seqs[x].table, seqs[x].tokens);
    }
  }

  lemma EntriesOfOther(seqs: map<Id, Sequence>, order: seq<Id>, id: Id)
    requires id in order && id in seqs
    ensures forall i :: 0 <= i < |seqs[id].table.blocks| ==> seqs[id].table.blocks[i] in Owned(seqs, order)
  {
    OwnedSplit(seqs, order, id);
    assert forall i :: 0 <= i < |seqs[id].table.blocks| ==> seqs[id].table.blocks[i] in multiset(seqs[id].table.blocks);
  }

  lemma TableSameHashes(c: KvConfig, p: Pool, p': Pool, t: Table, toks: seq<Token>)
    requires TableInv(c, p, t, toks)
    requires forall i :: 0 <= i < |t.blocks| ==> Get(p'.blockHash, t.blocks[i]) == Get(p.blockHash, t.blocks[i])
    ensures TableInv(c, p', t, toks)
  {
  }

  /** Start from a state in which `id`'s entries are split off from the rest. */
  lemma SplitTable(c: KvConfig, p: Pool, seqs: map<Id, Sequence>, order: seq<Id>, id: Id)
    requires KvInv(c, p, seqs, order) && id in seqs
    ensures PoolInv(c, p, Others(seqs, order, id) + multiset(seqs[id].table.blocks))
  {
    OwnedSplit(seqs, order, id);
  }

  /** Changes that touch neither tables nor already present tokens keep the state. */
  lemma KvFrame(c: KvConfig, p: Pool, seqs: map<Id, Sequence>, order: seq<Id>, seqs': map<Id, Sequence>)
    requires KvInv(c, p, seqs, order) && seqs'.Keys == seqs.Keys
    requires forall id :: id in seqs ==> seqs'[id].table == seqs[id].table && seqs[id].tokens <= seqs'[id].tokens
    ensures KvInv(c, p, seqs', order)
  {
    OwnedSame(seqs, seqs', order);
    forall id | id in seqs ensures TableInv(c, p, seqs'[id].table, seqs'[id].tokens) {
      TableTokens(c, p, seqs[id].table, seqs[id].tokens, seqs'[id].tokens);
    }
  }

  lemma {:induction false} ChainPrefix(c: KvConfig, x: seq<Token>, y: seq<Token>, k: nat)
    requires x <= y && Span(c.blockSize, k) <= |x|
    ensures Chain(c, x, k) == Chain(c, y, k)
  {
    if k > 0 {
      ChainPrefix(c, x, y, k - 1);
      assert Piece(c, x, k - 1) == Piece(c, y, k - 1);
    }
  }

  lemma TableTokens(c: KvConfig, p: Pool, t: Table, toks: seq<Token>, toks': seq<Token>)
    requires TableInv(c, p, t, toks) && toks <= toks'
    ensures TableInv(c, p, t, toks')
  {
    forall i | 0 <= i < |t.hashes| && t.hashes[i] != 0 ensures HashedEntry(c, t, i, toks') {
      assert HashedEntry(c, t, i, toks);
      ChainPrefix(c, toks, toks', i + 1);
    }
  }

  // ---- the four table steps, each on one table and the entries of the rest ----

  lemma EntriesAppend(rest: multiset<Block>, blocks: seq<Block>, b: Block)
    ensures rest + multiset(blocks + [b]) == rest + multiset(blocks) + multiset{b}
    ensures rest + multiset(blocks + [b]) - multiset{b} == rest + multiset(blocks)
  {
  }

  lemma GrowStep(c: KvConfig, p: Pool, rest: multiset<Block>, t: Table, toks: seq<Token>)
    requires PoolInv(c, p, rest + multiset(t.blocks)) && TableInv(c, p, t, toks) && TakeBlock(p).1.Some?
    ensures var b := TakeBlock(p).1.value; var p1 := Own(TakeBlock(p).0, b); var t1 := Append(t, b, 0);
            && PoolInv(c, p1, rest + multiset(t1.blocks)) && TableInv(c, p1, t1, toks)
            && (forall x :: x in rest ==> Get(p1.blockHash, x) == Get(p.blockHash, x))
            && Available(p1) == Available(p) - 1
  {
    hide PoolInv, TakeBlock, Chain, Span;
    var owned := rest + multiset(t.blocks);
    TakeOwnKeepsInv(c, p, owned);
    var b := TakeBlock(p).1.value;
    var p1 := Own(TakeBlock(p).0, b);
    var t1 := Append(t, b, 0);
    EntriesAppend(rest, t.blocks, b);
    forall i | 0 <= i < |t1.blocks| ensures t1.hashes[i] == Get(p1.blockHash, t1.blocks[i]) {
      if i < |t.blocks| { assert t.blocks[i] in multiset(t.blocks); }
    }
    forall i | 0 <= i < |t1.hashes| && t1.hashes[i] != 0 ensures HashedEntry(c, t1, i, toks) {
      assert HashedEntry(c, t, i, toks);
    }
  }

  lemma ReleaseStep(c: KvConfig, p: Pool, rest: multiset<Block>, t: Table, toks: seq<Token>)
    requires PoolInv(c, p, rest + multiset(t.blocks)) && TableInv(c, p, t, toks) && t.blocks != []
    ensures var n := |t.blocks| - 1; var p1 := ReleaseBlock(c, p, t.blocks[n], t.hashes[n]);
            var t1 := t.(blocks := t.blocks[..n], hashes := t.hashes[..n]);
            && PoolInv(c, p1, rest + multiset(t1.blocks)) && TableInv(c, p1, t1, toks)
            && p1.blockHash == p.blockHash && p1.labels == p.labels
  {
    hide PoolInv, ReleaseBlock, Chain, Span;
    var n := |t.blocks| - 1;
    var t1 := t.(blocks := t.blocks[..n], hashes := t.hashes[..n]);
    assert t.blocks == t1.blocks + [t.blocks[n]];
    EntriesAppend(rest, t1.blocks, t.blocks[n]);
    ReleaseKeepsInv(c, p, rest + multiset(t.blocks), t.blocks[n], t.hashes[n]);
    forall i | 0 <= i < |t1.hashes| && t1.hashes[i] != 0 ensures HashedEntry(c, t1, i, toks) {
      assert HashedEntry(c, t, i, toks);
    }
  }

  lemma ShareStep(c: KvConfig, p: Pool, rest: multiset<Block>, t: Table, toks: seq<Token>)
    requires PoolInv(c, p, rest + multiset(t.blocks)) && TableInv(c, p, t, toks)
    requires var k := |t.blocks|;
             && (k > 0 ==> t.hashes[k - 1] != 0) && t.committed == k
             && Span(c.blockSize, k + 1) <= |toks| && Chain(c, toks, k + 1) in p.hashToBlock
    ensures var k := |t.blocks|; var b := p.hashToBlock[Chain(c, toks, k + 1)];
            var p1 := Share(p, b); var t1 := Append(t, b, Chain(c, toks, k + 1)).(committed := k + 1);
            && PoolInv(c, p1, rest + multiset(t1.blocks)) && TableInv(c, p1, t1, toks)
            && Available(p1) == Available(p) - if Get(p.refs, b) == 0 then 1 else 0
  {
    hide PoolInv, TableInv, Chain, Span;
    var k := |t.blocks|;
    var b := p.hashToBlock[Chain(c, toks, k + 1)];
    var t1 := Append(t, b, Chain(c, toks, k + 1)).(committed := k + 1);
    IndexedBlock(c, p, rest + multiset(t.blocks), Chain(c, toks, k + 1));
    ShareKeepsInv(c, p, rest + multiset(t.blocks), b);
    EntriesAppend(rest, t.blocks, b);
    AppendHitKeepsTable(c, p, t, toks, b);
    TableSameHashes(c, p, Share(p, b), t1, toks);
  }

  lemma IndexedBlock(c: KvConfig, p: Pool, owned: multiset<Block>, h: Hash)
    requires PoolInv(c, p, owned) && h in p.hashToBlock
    ensures h != 0 && p.hashToBlock[h] < c.numBlocks && Get(p.blockHash, p.hashToBlock[h]) == h
  {
  }

  lemma AppendHitKeepsTable(c: KvConfig, p: Pool, t: Table, toks: seq<Token>, b: Block)
    requires TableInv(c, p, t, toks) && b < c.numBlocks
    requires var k := |t.blocks|;
             && (k > 0 ==> t.hashes[k - 1] != 0) && t.committed == k
             && Span(c.blockSize, k + 1) <= |toks| && Get(p.blockHash, b) == Chain(c, toks, k + 1)
    ensures TableInv(c, p, Append(t, b, Chain(c, toks, |t.blocks| + 1)).(committed := |t.blocks| + 1), toks)
  {
    var k := |t.blocks|;
    var t1 := Append(t, b, Chain(c, toks, k + 1)).(committed := k + 1);
    forall i | 0 <= i < |t1.hashes| && t1.hashes[i] != 0 ensures HashedEntry(c, t1, i, toks) {
      if i < k { assert HashedEntry(c, t, i, toks); }
    }
  }

  lemma CommitStep(c: KvConfig, p: Pool, rest: multiset<Block>, t: Table, toks: seq<Token>)
    requires PoolInv(c, p, rest + multiset(t.blocks)) && TableInv(c, p, t, toks)
    requires t.committed < |t.blocks| && Span(c.blockSize, t.committed + 1) <= |toks|
    ensures var (p1, t0) := HashFullBlock(c, p, t, t.committed, toks); var t1 := t0.(committed := t.committed + 1);
            && PoolInv(c, p1, rest + multiset(t1.blocks)) && TableInv(c, p1, t1, toks) && t1.blocks == t.blocks
            && (forall x :: x in rest ==> Get(p1.blockHash, x) == Get(p.blockHash, x))
            && p1.lru == p.lru && p1.refs == p.refs && p1.free == p.free
  {
    var i := t.committed;
    var (p1, t0) := HashFullBlock(c, p, t, i, toks);
    assert t.hashes[i] != 0 ==> HashedEntry(c, t, i, toks);
    assert t.blocks[i] in multiset(t.blocks);
    if t0 != t {
      PublishKeepsInv(c, p, rest + multiset(t.blocks), t.blocks[i], t0.hashes[i], PrefixTo(c, toks, i + 1));
      OnlyOnce(t.blocks, i, rest);
    }
    CommitKeepsTable(c, p, t, toks);
  }

  lemma CommitKeepsTable(c: KvConfig, p: Pool, t: Table, toks: seq<Token>)
    requires TableInv(c, p, t, toks)
    requires t.committed < |t.blocks| && Span(c.blockSize, t.committed + 1) <= |toks|
    requires |p.blockHash| == c.numBlocks
    requires t.hashes[t.committed] == 0
    requires HashFullBlock(c, p, t, t.committed, toks).1 != t ==>
               forall j :: 0 <= j < |t.blocks| && j != t.committed ==> t.blocks[j] != t.blocks[t.committed]
    ensures var (p1, t0) := HashFullBlock(c, p, t, t.committed, toks);
            TableInv(c, p1, t0.(committed := t.committed + 1), toks)
  {
    hide Span, HashedEntry, HashBlock, TableInv;
    var i := t.committed;
    var (p1, t0) := HashFullBlock(c, p, t, i, toks);
    TableLists(c, p, t, toks);
    if t0 == t {
      SkipKeepsTable(c, p, t, toks);
    } else {
      if i > 0 { EntryChained(c, p, t, toks, i - 1); }
      HashedKeepsTable(c, p, t, toks, HashBlock(c, if i == 0 then 0 else t.hashes[i - 1], Piece(c, toks, i)));
    }
  }

  lemma TableLists(c: KvConfig, p: Pool, t: Table, toks: seq<Token>)
    requires TableInv(c, p, t, toks)
    ensures |t.hashes| == |t.blocks| && forall i :: 0 <= i < |t.blocks| ==> t.blocks[i] < c.numBlocks
  {
  }

  lemma EntryChained(c: KvConfig, p: Pool, t: Table, toks: seq<Token>, i: nat)
    requires TableInv(c, p, t, toks) && i < |t.hashes| && t.hashes[i] != 0
    ensures t.hashes[i] == Chain(c, toks, i + 1)
  {
    assert HashedEntry(c, t, i, toks);
  }

  lemma SkipKeepsTable(c: KvConfig, p: Pool, t: Table, toks: seq<Token>)
    requires TableInv(c, p, t, toks)
    ensures TableInv(c, p, t.(committed := t.committed + 1), toks)
  {
    hide Chain, Span;
    forall j | 0 <= j < |t.hashes| && t.hashes[j] != 0 ensures HashedEntry(c, t.(committed := t.committed + 1), j, toks) {
      assert HashedEntry(c, t, j, toks);
    }
  }

  lemma HashedKeepsTable(c: KvConfig, p: Pool, t: Table, toks: seq<Token>, h: Hash)
    requires TableInv(c, p, t, toks) && |p.blockHash| == c.numBlocks
    requires t.committed < |t.blocks| && Span(c.blockSize, t.committed + 1) <= |toks| && (t.committed > 0 ==> t.hashes[t.committed - 1] != 0)
    requires forall j :: 0 <= j < |t.blocks| && j != t.committed ==> t.blocks[j] != t.blocks[t.committed]
    requires h != 0 && h == Chain(c, toks, t.committed + 1)
    ensures TableInv(c, Publish(p, t.blocks[t.committed], h, PrefixTo(c, toks, t.committed + 1)),
                     t.(hashes := t.hashes[t.committed := h], committed := t.committed + 1), toks)
  {
    hide Chain, Span;
    var t1 := t.(hashes := t.hashes[t.committed := h], committed := t.committed + 1);
    forall j | 0 <= j < |t1.hashes| && t1.hashes[j] != 0 ensures HashedEntry(c, t1, j, toks) {
      assert j != t.committed ==> HashedEntry(c, t, j, toks);
    }
  }

  /** A block counted once overall sits at one table position and nowhere in the rest. */
  lemma OnlyOnce(blocks: seq<Block>, i: nat, rest: multiset<Block>)
    requires i < |blocks| && (rest + multiset(blocks))[blocks[i]] == 1
    ensures blocks[i] !in rest
    ensures forall j :: 0 <= j < |blocks| && j != i ==> blocks[j] != blocks[i]
  {
    assert blocks == blocks[..i] + [blocks[i]] + blocks[i + 1..];
    assert multiset(blocks) == multiset(blocks[..i]) + multiset{blocks[i]} + multiset(blocks[i + 1..]);
    forall j | 0 <= j < |blocks| && j != i ensures blocks[j] != blocks[i] {
      if j < i { assert blocks[j] in multiset(blocks[..i]); } else { assert blocks[j] in multiset(blocks[i + 1..]); }
    }
  }

  lemma TwoPositions(blocks: seq<Block>, i: nat, j: nat)
    requires i < j < |blocks| && blocks[i] == blocks[j]
    ensures multiset(blocks)[blocks[i]] >= 2
  {
    assert blocks == blocks[..j] + blocks[j..];
    assert multiset(blocks) == multiset(blocks[..j]) + multiset(blocks[j..]);
    assert blocks[j] in blocks[j..] by { assert blocks[j..][0] == blocks[j]; }
    assert blocks[i] in blocks[..j] by { assert blocks[..j][i] == blocks[i]; }
  }

  /** Two different table entries for one block count twice. */
  lemma TwoEntries(seqs: map<Id, Sequence>, order: seq<Id>, id: Id, i: nat, id': Id, j: nat)
    requires OrderInv(seqs, order) && id in seqs && id' in seqs
    requires i < |seqs[id].table.blocks| && j < |seqs[id'].table.blocks|
    requires seqs[id].table.blocks[i] == seqs[id'].table.blocks[j] && (id != id' || i != j)
    ensures Owned(seqs, order)[seqs[id].table.blocks[i]] >= 2
  {
    var b := seqs[id].table.blocks[i];
    OwnedSplit(seqs, order, id);
    assert b in multiset(seqs[id].table.blocks);
    if id == id' {
      if i < j { TwoPositions(seqs[id].table.blocks, i, j); } else { TwoPositions(seqs[id].table.blocks, j, i); }
    } else {
      WithoutNoDup(order, id);
      EntriesOfOther(seqs, Without(order, id), id');
    }
  }
}
