/**
 The indices of a step as the device sees them: the tables of the distinct sequences concatenated, where each one
 starts, which sequence each packed token belongs to, and the slot each token writes to. The decode kernels read
 their block table through them, and give every token the attention over its own sequence's table.
 */
module DeviceTables {
  import opened Lists
  import opened Paging
  import opened BlockPool
  import opened Network
  import opened PagedModels
  import opened Softmax
  import opened AttentionKernels
  import opened AttentionGqa

  /** A packed token: its sequence, that sequence's block table, its position. */
  datatype Packed = Packed(seqId: nat, blocks: seq<nat>, pos: nat)

  /** Tokens of one sequence see one block table. */
  ghost predicate OneTableEach(items: seq<Packed>) {
    forall i, j :: 0 <= i < |items| && 0 <= j < |items| && items[i].seqId == items[j].seqId ==> items[i].blocks == items[j].blocks
  }

  /** Every token has a block, and every block is in the pool. */
  ghost predicate InTable(c: KvConfig, it: Packed) {
    it.pos < Span(c.blockSize, |it.blocks|) && forall b :: b in it.blocks ==> b < c.numBlocks
  }

  datatype StepIndices = StepIndices(tables: seq<nat>, offsets: seq<nat>, tokenSeq: seq<nat>, slots: seq<nat>)

  /** The table of distinct sequence `k`, read through its offset, is `blocks`. */
  ghost predicate TableAt(x: StepIndices, k: nat, blocks: seq<nat>) {
    k < |x.offsets| && x.offsets[k] + |blocks| <= |x.tables| && x.tables[x.offsets[k]..x.offsets[k] + |blocks|] == blocks
  }

  ghost predicate Uploaded(x: StepIndices, items: seq<Packed>, seen: seq<nat>, n: nat) {
    && n <= |items| && |x.tokenSeq| == n && |seen| == |x.offsets|
    && (forall i {:trigger x.tokenSeq[i]} :: 0 <= i < n ==> TableAt(x, x.tokenSeq[i], items[i].blocks))
    && (forall k {:trigger seen[k]} :: 0 <= k < |seen| ==> HasTable(x, items, n, k, seen[k]))
  }

  /** Distinct sequence `k` is `id`, and its table is in place. */
  ghost predicate HasTable(x: StepIndices, items: seq<Packed>, n: nat, k: nat, id: nat)
    requires n <= |items|
  {
    exists i :: 0 <= i < n && items[i].seqId == id && TableAt(x, k, items[i].blocks)
  }

  /** The first `n` slots are where the tokens' own tables put their positions, inside the cache. */
  ghost predicate SlotsSet(c: KvConfig, slots: seq<nat>, items: seq<Packed>, n: nat)
    requires ValidConfig(c)
  {
    && |slots| == n <= |items|
    && forall i :: 0 <= i < n ==> slots[i] == Slot(c, items[i].blocks, items[i].pos) && slots[i] < Span(c.blockSize, c.numBlocks)
  }

  /** Every token finds its own table at its offset, and its slot is where its own table puts its position. */
  ghost predicate Indexed(c: KvConfig, x: StepIndices, items: seq<Packed>)
    requires ValidConfig(c)
  {
    && |x.tokenSeq| == |items| && SlotsSet(c, x.slots, items, |items|)
    && (forall i {:trigger x.tokenSeq[i]} :: 0 <= i < |items| ==> TableAt(x, x.tokenSeq[i], items[i].blocks))
  }

  /** Concatenate each distinct sequence's table once; record each token's sequence and slot. */
  method UploadStepIndices(c: KvConfig, items: seq<Packed>) returns (x: StepIndices)
    requires ValidConfig(c) && OneTableEach(items) && forall i :: 0 <= i < |items| ==> InTable(c, items[i])
    ensures Indexed(c, x, items)
  {
    hide TableAt, Slot, Span, HasTable, Uploaded, Indexed, OneTableEach;
    x := StepIndices([], [], [], []);
    var seen: seq<nat> := [];
    NothingYet(items);
    for i := 0 to |items|
      invariant Uploaded(x, items, seen, i) && SlotsSet(c, x.slots, items, i)
    {
      var idx := 0;
      while idx < |seen| && seen[idx] != items[i].seqId
        invariant idx <= |seen|
      {
        idx := idx + 1;
      }
      assert InTable(c, items[i]);
      var slot := FindSlot(c, items[i].blocks, items[i].pos);
      if idx == |seen| {
        NewTable(x, items, seen, i, slot);
        x := x.(offsets := x.offsets + [|x.tables|], tables := x.tables + items[i].blocks);
        seen := seen + [items[i].seqId];
      } else {
        OldTable(x, items, seen, i, idx, slot);
      }
      x := x.(tokenSeq := x.tokenSeq + [idx], slots := x.slots + [slot]);
    }
    AllIndexed(c, x, items, seen);
  }

  lemma NothingYet(items: seq<Packed>)
    ensures Uploaded(StepIndices([], [], [], []), items, [], 0)
  {
  }

  lemma AllIndexed(c: KvConfig, x: StepIndices, items: seq<Packed>, seen: seq<nat>)
    requires ValidConfig(c) && Uploaded(x, items, seen, |items|) && SlotsSet(c, x.slots, items, |items|)
    ensures Indexed(c, x, items)
  {
    hide TableAt, SlotsSet, HasTable;
  }

  lemma TableKept(x: StepIndices, k: nat, blocks: seq<nat>, more: seq<nat>, off: nat, who: seq<nat>, slots: seq<nat>)
    requires TableAt(x, k, blocks)
    ensures TableAt(StepIndices(x.tables + more, x.offsets + [off], who, slots), k, blocks)
    ensures TableAt(StepIndices(x.tables, x.offsets, who, slots), k, blocks)
  {
    assert (x.tables + more)[x.offsets[k]..x.offsets[k] + |blocks|] == x.tables[x.offsets[k]..x.offsets[k] + |blocks|];
  }

  lemma TableNew(x: StepIndices, blocks: seq<nat>, who: seq<nat>, slots: seq<nat>)
    ensures TableAt(StepIndices(x.tables + blocks, x.offsets + [|x.tables|], who, slots), |x.offsets|, blocks)
  {
    assert (x.tables + blocks)[|x.tables|..|x.tables| + |blocks|] == blocks;
  }

  lemma NewTable(x: StepIndices, items: seq<Packed>, seen: seq<nat>, n: nat, slot: nat)
    requires n < |items| && Uploaded(x, items, seen, n)
    ensures Uploaded(StepIndices(x.tables + items[n].blocks, x.offsets + [|x.tables|], x.tokenSeq + [|seen|], x.slots + [slot]),
                     items, seen + [items[n].seqId], n + 1)
  {
    hide TableAt;
    var y := StepIndices(x.tables + items[n].blocks, x.offsets + [|x.tables|], x.tokenSeq + [|seen|], x.slots + [slot]);
    TableNew(x, items[n].blocks, y.tokenSeq, y.slots);
    forall i | 0 <= i < n + 1 ensures TableAt(y, y.tokenSeq[i], items[i].blocks) {
      if i < n { TableKept(x, x.tokenSeq[i], items[i].blocks, items[n].blocks, |x.tables|, y.tokenSeq, y.slots); }
    }
    var seen1 := seen + [items[n].seqId];
    forall k | 0 <= k < |seen1| ensures HasTable(y, items, n + 1, k, seen1[k]) {
      if k < |seen| {
        assert HasTable(x, items, n, k, seen[k]);
        var i :| 0 <= i < n && items[i].seqId == seen[k] && TableAt(x, k, items[i].blocks);
        TableKept(x, k, items[i].blocks, items[n].blocks, |x.tables|, y.tokenSeq, y.slots);
        assert items[i].seqId == seen1[k];
      } else {
        assert items[n].seqId == seen1[k];
      }
    }
    assert |y.tokenSeq| == n + 1 && |seen1| == |y.offsets|;
    assert Uploaded(y, items, seen1, n + 1);
  }

  lemma OldTable(x: StepIndices, items: seq<Packed>, seen: seq<nat>, n: nat, idx: nat, slot: nat)
    requires OneTableEach(items) && n < |items| && Uploaded(x, items, seen, n) && idx < |seen| && seen[idx] == items[n].seqId
    ensures Uploaded(x.(tokenSeq := x.tokenSeq + [idx], slots := x.slots + [slot]), items, seen, n + 1)
  {
    hide TableAt;
    var y := x.(tokenSeq := x.tokenSeq + [idx], slots := x.slots + [slot]);
    assert HasTable(x, items, n, idx, seen[idx]);
    var j :| 0 <= j < n && items[j].seqId == seen[idx] && TableAt(x, idx, items[j].blocks);
    TableKept(x, idx, items[j].blocks, [], 0, y.tokenSeq, y.slots);
    forall i | 0 <= i < n + 1 ensures TableAt(y, y.tokenSeq[i], items[i].blocks) {
      if i < n { TableKept(x, x.tokenSeq[i], items[i].blocks, [], 0, y.tokenSeq, y.slots); }
    }
    forall k | 0 <= k < |seen| ensures HasTable(y, items, n + 1, k, seen[k]) {
      assert HasTable(x, items, n, k, seen[k]);
      var i :| 0 <= i < n && items[i].seqId == seen[k] && TableAt(x, k, items[i].blocks);
      TableKept(x, k, items[i].blocks, [], 0, y.tokenSeq, y.slots);
    }
  }

  // ---- attention through the concatenated tables ----

  /** The concatenation from the offset of distinct sequence `k` on: what a kernel indexes as its block table. */
  function From(x: StepIndices, k: nat): seq<nat> {
    if k < |x.offsets| && x.offsets[k] <= |x.tables| then x.tables[x.offsets[k]..] else []
  }

  /** Up to the last position the table covers, the kernel's table and the sequence's own give the same slots. */
  lemma SameSlot(x: StepIndices, k: nat, head: PagedHead, blocks: seq<nat>, pos: nat, p: nat)
    requires TableAt(x, k, blocks) && head.blockSize > 0 && pos < Span(head.blockSize, |blocks|) && p <= pos
    ensures SlotAt(head.(table := From(x, k)), p) == SlotAt(head.(table := blocks), p)
  {
    var i := p / head.blockSize;
    QuotIsDiv(head.blockSize, p);
    FullBlocks(head.blockSize, p, |blocks|);
    assert x.tables[x.offsets[k]..][i] == x.tables[x.offsets[k]..x.offsets[k] + |blocks|][i];
  }

  /** The slot a token writes to is the slot the kernel reads at the token's own position. */
  lemma WrittenIsRead(c: KvConfig, x: StepIndices, items: seq<Packed>, head: PagedHead, i: nat)
    requires ValidConfig(c) && Indexed(c, x, items) && i < |items| && InTable(c, items[i]) && head.blockSize == c.blockSize
    ensures SlotAt(head.(table := From(x, x.tokenSeq[i])), items[i].pos) == x.slots[i]
  {
    var it := items[i];
    SameSlot(x, x.tokenSeq[i], head, it.blocks, it.pos, it.pos);
    QuotIsDiv(c.blockSize, it.pos);
    SpanIsMul(c.blockSize, Get(it.blocks, it.pos / c.blockSize));
  }

  lemma {:induction false} DotSame(x: PagedHead, y: PagedHead, p: nat, n: nat)
    requires x.blockSize > 0 && y == x.(table := y.table) && SlotAt(x, p) == SlotAt(y, p)
    ensures Dot(x, p, n) == Dot(y, p, n)
  {
    if n > 0 {
      DotSame(x, y, p, n - 1);
    }
  }

  lemma HeadsAgree(x: PagedHead, y: PagedHead, n: nat)
    requires x.blockSize > 0 && y == x.(table := y.table) && forall p: nat :: p < n ==> SlotAt(x, p) == SlotAt(y, p)
    ensures AgreeBelow(HeadOf(x), HeadOf(y), n)
  {
    hide Dot, SlotAt;
    forall p: nat | p < n ensures HeadOf(x).score(p) == HeadOf(y).score(p) {
      DotSame(x, y, p, x.dim);
    }
  }

  /** Heads that read the same slots have the same attention. */
  lemma SameAttention(x: PagedHead, y: PagedHead, pos: nat, out: seq<real>)
    requires x.blockSize > 0 && y == x.(table := y.table) && forall p: nat :: p <= pos ==> SlotAt(x, p) == SlotAt(y, p)
    ensures Ready(x, pos) <==> Ready(y, pos)
    ensures IsAttention(x, pos, out) <==> IsAttention(y, pos, out)
  {
    hide Dot, SlotAt, Sum;
    HeadsAgree(x, y, pos + 1);
    var h, h1 := HeadOf(x), HeadOf(y);
    var s, n := Upto(pos), pos + 1;
    forall col: nat ensures Sum(h, s, n, 0.0, col) == Sum(h1, s, n, 0.0, col) {
      SumAgrees(h, h1, s, n, 0.0, col);
    }
  }

  /** Attention through the concatenation is attention over the sequence's own table. */
  lemma DeviceAgrees(x: StepIndices, k: nat, head: PagedHead, blocks: seq<nat>, pos: nat, out: seq<real>)
    requires TableAt(x, k, blocks) && head.blockSize > 0 && pos < Span(head.blockSize, |blocks|)
    ensures Ready(head.(table := From(x, k)), pos) <==> Ready(head.(table := blocks), pos)
    ensures IsAttention(head.(table := From(x, k)), pos, out) <==> IsAttention(head.(table := blocks), pos, out)
  {
    hide SlotAt, IsAttention, Ready, TableAt, From, Span;
    var a, b := head.(table := From(x, k)), head.(table := blocks);
    forall p: nat | p <= pos ensures SlotAt(a, p) == SlotAt(b, p) {
      SameSlot(x, k, head, blocks, pos, p);
    }
    SameAttention(a, b, pos, out);
  }

  /** One kernel launch: every packed token, reading through the uploaded indices, gets its own sequence's attention. */
  method LaunchDecode(c: KvConfig, x: StepIndices, items: seq<Packed>, heads: seq<PagedHead>) returns (outs: seq<seq<real>>)
    requires ValidConfig(c) && Indexed(c, x, items) && |heads| == |items|
    requires forall i :: 0 <= i < |items| ==> InTable(c, items[i]) && heads[i].blockSize == c.blockSize && Ready(heads[i].(table := items[i].blocks), items[i].pos)
    ensures |outs| == |items| && forall i :: 0 <= i < |items| ==> IsAttention(heads[i].(table := items[i].blocks), items[i].pos, outs[i])
  {
    hide IsAttention, Ready, TableAt, From, Span, Slot;
    outs := [];
    for i := 0 to |items|
      invariant |outs| == i && forall j :: 0 <= j < i ==> IsAttention(heads[j].(table := items[j].blocks), items[j].pos, outs[j])
    {
      var k := x.tokenSeq[i];
      assert InTable(c, items[i]) && TableAt(x, k, items[i].blocks);
      DeviceAgrees(x, k, heads[i], items[i].blocks, items[i].pos, []);
      var out := AttentionDecode(heads[i].(table := From(x, k)), items[i].pos);
      DeviceAgrees(x, k, heads[i], items[i].blocks, items[i].pos, out);
      outs := outs + [out];
    }
  }

  function Through(g: Group, table: seq<nat>): Group {
    g.(shared := g.shared.(table := table))
  }

  lemma MemberAgrees(x: StepIndices, k: nat, g: Group, blocks: seq<nat>, pos: nat, h: nat, out: seq<real>)
    requires TableAt(x, k, blocks) && g.shared.blockSize > 0 && pos < Span(g.shared.blockSize, |blocks|) && h < |g.queries|
    ensures Ready(Member(Through(g, From(x, k)), h), pos) <==> Ready(Member(Through(g, blocks), h), pos)
    ensures IsAttention(Member(Through(g, From(x, k)), h), pos, out) <==> IsAttention(Member(Through(g, blocks), h), pos, out)
  {
    hide IsAttention, Ready, TableAt, From, Span;
    DeviceAgrees(x, k, Member(g, h), blocks, pos, out);
  }

  /** The same for one KV head of one token in the grouped-query kernel. */
  method LaunchDecodeGqa(c: KvConfig, x: StepIndices, items: seq<Packed>, i: nat, g: Group) returns (outs: seq<seq<real>>)
    requires ValidConfig(c) && Indexed(c, x, items) && i < |items| && InTable(c, items[i])
    requires g.shared.blockSize == c.blockSize && GroupReady(Through(g, items[i].blocks), items[i].pos)
    ensures |outs| == |g.queries|
    ensures forall h :: 0 <= h < |outs| ==> IsAttention(Member(Through(g, items[i].blocks), h), items[i].pos, outs[h])
  {
    hide IsAttention, Ready, TableAt, From, Span, Slot, Member;
    var k, it := x.tokenSeq[i], items[i];
    assert TableAt(x, k, it.blocks);
    var own, dev := Through(g, it.blocks), Through(g, From(x, k));
    forall h | 0 <= h < |g.queries| ensures Ready(Member(dev, h), it.pos) {
      assert Ready(Member(own, h), it.pos);
      MemberAgrees(x, k, g, it.blocks, it.pos, h, []);
    }
    outs := AttentionDecodeGqa(dev, it.pos);
    forall h | 0 <= h < |outs| ensures IsAttention(Member(own, h), it.pos, outs[h]) {
      assert IsAttention(Member(dev, h), it.pos, outs[h]);
      MemberAgrees(x, k, g, it.blocks, it.pos, h, outs[h]);
    }
  }
}
