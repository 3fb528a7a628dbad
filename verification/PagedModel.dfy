/**
 The CPU model's forward pass as the program writes it: flatten the step, then layer by layer store
 every packed token's K/V through its block table before any token attends, and finally sample the
 selected rows. It is proved to compute `Network.Forward`, never addressing a slot outside the cache.
 */
module PagedModels {
  import opened Lists
  import opened Paging
  import opened BlockPool
  import opened Requests
  import opened Network
  import opened Contents
  import PrefixTree

  /** Every position up to the end of the slice has a block, and every block is in the pool. */
  ghost predicate Addressable(c: KvConfig, w: Work) {
    && w.start + w.len <= Span(c.blockSize, |w.blocks|)
    && (forall b :: b in w.blocks ==> b < c.numBlocks)
  }

  ghost predicate Reachable(c: KvConfig, it: Item) {
    it.pos < Span(c.blockSize, |it.blocks|) && forall b :: b in it.blocks ==> b < c.numBlocks
  }

  /** `slot` of the block table: block * block_size + offset. */
  method FindSlot(c: KvConfig, blocks: seq<Block>, pos: nat) returns (slot: nat)
    requires ValidConfig(c) && pos < Span(c.blockSize, |blocks|) && forall b :: b in blocks ==> b < c.numBlocks
    ensures slot == Slot(c, blocks, pos) && slot < Span(c.blockSize, c.numBlocks)
  {
    var i := pos / c.blockSize;
    QuotIsDiv(c.blockSize, pos);
    QuotRem(c.blockSize, pos);
    if |blocks| <= i { SpanMono(c.blockSize, |blocks|, i); }
    assert blocks[i] in blocks;
    SpanIsMul(c.blockSize, blocks[i]);
    SpanMono(c.blockSize, blocks[i] + 1, c.numBlocks);
    slot := blocks[i] * c.blockSize + pos % c.blockSize;
  }

  lemma ItemsReachable(c: KvConfig, works: seq<Work>, i: nat)
    requires forall k :: 0 <= k < |works| ==> Addressable(c, works[k])
    requires i < |Flatten(works)|
    ensures Reachable(c, Flatten(works)[i])
  {
    FlattenFrom(works, i);
    var k :| 0 <= k < |works| && FromSlice(works[k], Flatten(works)[i]);
    assert Addressable(c, works[k]);
  }

  /** One entry per token in slice order, and the rows of the slices that want logits. */
  method FlattenStep(works: seq<Work>) returns (items: seq<Item>, rows: seq<int>)
    ensures items == Flatten(works) && rows == LogitRows(works)
  {
    items, rows := [], [];
    for k := 0 to |works|
      invariant items == Flatten(works[..k]) && rows == LogitRows(works[..k])
    {
      var w := works[k];
      var before := items;
      for t := 0 to w.len
        invariant items == before + SliceItems(w, t)
      {
        items := items + [Item(w.blocks, w.tokens, w.start + t)];
      }
      assert works[..k + 1][..k] == works[..k];
      if w.needsLogits {
        rows := rows + [|items| - 1];
      }
    }
    assert works[..|works|] == works;
  }

  class PagedModel {
    const c: KvConfig
    const net: Net
    const store: array2<KV>   // [layer][slot]

    ghost predicate Valid() {
      ValidConfig(c) && store.Length0 == net.layers && store.Length1 == Span(c.blockSize, c.numBlocks)
    }

    ghost function Layer(l: nat): (r: seq<KV>)
      requires l < store.Length0
      reads store
      ensures |r| == store.Length1 && forall s :: 0 <= s < store.Length1 ==> r[s] == store[l, s]
    {
      seq(store.Length1, s requires 0 <= s < store.Length1 reads store => store[l, s])
    }

    ghost function Cache(): (r: seq<seq<KV>>)
      reads store
      ensures |r| == store.Length0 && forall l :: 0 <= l < store.Length0 ==> r[l] == Layer(l)
    {
      seq(store.Length0, l requires 0 <= l < store.Length0 reads store => Layer(l))
    }

    constructor (config: KvConfig, network: Net)
      requires ValidConfig(config)
      ensures Valid() && c == config && net == network && fresh(store)
    {
      c, net := config, network;
      SpanIsMul(config.blockSize, config.numBlocks);
      store := new KV[network.layers, config.numBlocks * config.blockSize]((l, s) => KV([], []));
    }

    method EmbedTokens(items: seq<Item>) returns (xs: seq<Vec>)
      requires forall i :: 0 <= i < |items| ==> ItemOk(items[i])
      ensures xs == EmbedAll(net, items, |items|)
    {
      xs := [];
      for i := 0 to |items|
        invariant xs == EmbedAll(net, items, i)
      {
        xs := xs + [net.embed(items[i].tokens[items[i].pos])];
      }
    }

    /** Store the K/V of every packed token in layer `l`. */
    method WriteTokens(l: nat, items: seq<Item>, xs: seq<Vec>)
      requires Valid() && l < net.layers && |xs| == |items|
      requires forall i :: 0 <= i < |items| ==> Reachable(c, items[i])
      modifies store
      ensures Cache() == old(Cache())[l := WriteAll(c, net, l, old(Layer(l)), items, xs, |items|)]
    {
      ghost var was := Layer(l);
      for i := 0 to |items|
        invariant Layer(l) == WriteAll(c, net, l, was, items, xs, i)
        invariant forall k, s :: 0 <= k < store.Length0 && k != l && 0 <= s < store.Length1 ==> store[k, s] == old(store[k, s])
      {
        var it := items[i];
        assert Reachable(c, it);
        var slot := FindSlot(c, it.blocks, it.pos);
        store[l, slot] := net.kv(l, it.pos, xs[i]);
        assert Layer(l) == Store(WriteAll(c, net, l, was, items, xs, i), slot, net.kv(l, it.pos, xs[i]));
      }
      assert forall k :: 0 <= k < store.Length0 && k != l ==> Layer(k) == old(Layer(k));
    }

    /** What a token reads back through its block table, positions 0 to `pos`. */
    method Gather(l: nat, it: Item) returns (history: seq<KV>)
      requires Valid() && l < net.layers && Reachable(c, it)
      ensures history == ReadHistory(c, Layer(l), it.blocks, it.pos + 1)
    {
      history := [];
      for p := 0 to it.pos + 1
        invariant history == ReadHistory(c, Layer(l), it.blocks, p)
      {
        var slot := FindSlot(c, it.blocks, p);
        history := history + [store[l, slot]];
      }
    }

    method AttendTokens(l: nat, items: seq<Item>, xs: seq<Vec>) returns (ys: seq<Vec>)
      requires Valid() && l < net.layers && |xs| == |items|
      requires forall i :: 0 <= i < |items| ==> Reachable(c, items[i])
      ensures ys == AttendAll(c, net, l, Layer(l), items, xs, |items|)
    {
      ys := [];
      for i := 0 to |items|
        invariant ys == AttendAll(c, net, l, Layer(l), items, xs, i)
      {
        assert Reachable(c, items[i]);
        var history := Gather(l, items[i]);
        ys := ys + [net.attend(l, items[i].pos, xs[i], history)];
      }
    }

    /** Sample one token per logits row, in slice order. */
    method SampleStep(works: seq<Work>, xs: seq<Vec>, rows: seq<int>) returns (sampled: seq<Token>)
      requires rows == LogitRows(works) && forall r :: r in rows ==> 0 <= r < |xs|
      ensures |rows| == |LogitParams(works)| && sampled == PickRows(net, xs, rows, LogitParams(works), |rows|)
    {
      hide LogitRows, LogitParams;
      RowsMatch(works);
      sampled := [];
      var row := 0;
      assert works[..0] == [];
      NoRows();
      ghost var params := LogitParams(works);
      for k := 0 to |works|
        invariant row == |LogitRows(works[..k])| <= |rows| && sampled == PickRows(net, xs, rows, params, row)
      {
        RowAt(works, k);
        if works[k].needsLogits {
          assert rows[row] in rows;
          sampled := sampled + [net.pick(works[k].params, xs[rows[row]])];
          row := row + 1;
        }
      }
      assert works[..|works|] == works;
    }

    /** One forward pass over a step and the sampling of its rows. */
    method Forward(works: seq<Work>) returns (sampled: seq<Token>)
      requires Valid() && forall i :: 0 <= i < |works| ==> WorkOk(works[i]) && Addressable(c, works[i])
      modifies store
      ensures (Cache(), sampled) == Network.Forward(c, net, old(Cache()), works)
    {
      FlattenOk(works);
      RowsMatch(works);
      ghost var was := Cache();
      var items, rows := FlattenStep(works);
      forall i | 0 <= i < |items| ensures Reachable(c, items[i]) {
        ItemsReachable(c, works, i);
      }
      var xs := EmbedTokens(items);
      for l := 0 to net.layers
        invariant |xs| == |items| && (Cache(), xs) == RunLayers(c, net, was, items, l)
      {
        ghost var before := Cache();
        WriteTokens(l, items, xs);
        assert Cache()[l] == Layer(l);
        xs := AttendTokens(l, items, xs);
      }
      forall r | r in rows ensures 0 <= r < |xs| {
        RowsInRange(works, r);
      }
      sampled := SampleStep(works, xs, rows);
    }
  }

  /** The row and the settings of slice `k` are where the row counter points. */
  lemma {:induction false} RowAt(works: seq<Work>, k: nat)
    requires k < |works|
    ensures var n := |LogitRows(works[..k])|;
            && |LogitRows(works)| == |LogitParams(works)|
            && (works[k].needsLogits ==> n < |LogitRows(works)| && LogitParams(works)[n] == works[k].params)
            && |LogitRows(works[..k + 1])| == n + (if works[k].needsLogits then 1 else 0) <= |LogitRows(works)|
  {
    RowsMatch(works);
    var m := |works| - 1;
    if k < m {
      RowAt(works[..m], k);
      assert works[..m][..k] == works[..k] && works[..m][..k + 1] == works[..k + 1];
    } else {
      RowsMatch(works[..m]);
      assert works[..k + 1] == works && works[..k + 1][..k] == works[..k];
    }
  }

  lemma NoRows()
    ensures LogitRows([]) == []
  {
  }

  lemma {:induction false} RowsInRange(works: seq<Work>, r: int)
    requires r in LogitRows(works) && forall i :: 0 <= i < |works| ==> WorkOk(works[i])
    ensures 0 <= r < |Flatten(works)|
  {
    var m := |works| - 1;
    if r in LogitRows(works[..m]) {
      RowsInRange(works[..m], r);
    } else {
      assert WorkOk(works[m]);
    }
  }

  /** The slices of a valid step, seen as work for the model, are addressable. */
  lemma StepAddressable(c: KvConfig, universe: set<seq<Token>>, p: Pool, seqs: map<Id, Sequence>, order: seq<Id>, sl: Slice)
    requires PrefixTree.CacheInv(c, universe, p, seqs, order) && SliceOk(c, seqs, sl)
    ensures Addressable(c, WorkOf(seqs, sl))
  {
    forall b | b in seqs[sl.id].table.blocks ensures b < c.numBlocks {
      var i :| 0 <= i < |seqs[sl.id].table.blocks| && seqs[sl.id].table.blocks[i] == b;
      BlockInRange(c, universe, p, seqs, order, sl.id, i);
    }
  }
}
