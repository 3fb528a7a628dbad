/**
 The model as the engine runs it: a step's slices are packed into one batch, and every layer
 first writes the K/V of all packed tokens through the block tables and then lets every token
 read its own history back through its own table. The reference recomputes everything from the
 token prefix, with no cache, no paging and no batch.
 */
module Network {
  import opened Lists
  import opened Paging
  import opened BlockPool
  import opened Requests

  type Vec = seq<real>

  datatype KV = KV(k: Vec, v: Vec)

  /**
   The numeric parts of a decoder, left abstract. `kv(l, pos, x)` is the rotated key and the value
   that layer `l` writes for a token at `pos` with hidden state `x`; `attend(l, pos, x, history)` is
   the rest of the layer; `pick` is final norm, head and sampler for one logits row.
   */
  datatype Net = Net(
    layers: nat,
    embed: Token -> Vec,
    kv: (nat, nat, Vec) -> KV,
    attend: (nat, nat, Vec, seq<KV>) -> Vec,
    pick: (SamplingParams, Vec) -> Token)

  // ---- the reference: no cache ----

  ghost function RefHidden(net: Net, l: nat, toks: seq<Token>): Vec
    requires toks != []
    decreases l, 0
  {
    if l == 0 then net.embed(toks[|toks| - 1])
    else net.attend(l - 1, |toks| - 1, RefHidden(net, l - 1, toks), RefHistory(net, l - 1, toks))
  }

  ghost function RefHistory(net: Net, l: nat, toks: seq<Token>): seq<KV>
    decreases l, 2
  {
    seq(|toks|, q requires 0 <= q < |toks| => RefKV(net, l, toks[..q + 1]))
  }

  /** What layer `l` stores for the last token of `toks`. */
  ghost function RefKV(net: Net, l: nat, toks: seq<Token>): KV
    requires toks != []
    decreases l, 1
  {
    net.kv(l, |toks| - 1, RefHidden(net, l, toks))
  }

  ghost function NextToken(net: Net, params: SamplingParams, toks: seq<Token>): Token
    requires toks != []
  {
    net.pick(params, RefHidden(net, net.layers, toks))
  }

  // ---- the paged, packed forward pass ----

  /** One slice of a step together with what the model reads through its sequence pointer. */
  datatype Work = Work(blocks: seq<Block>, tokens: seq<Token>, start: nat, len: nat, needsLogits: bool, params: SamplingParams)

  /** One packed token: its sequence's table and tokens, and its position there. */
  datatype Item = Item(blocks: seq<Block>, tokens: seq<Token>, pos: nat)

  predicate WorkOk(w: Work) {
    w.len > 0 && w.start + w.len <= |w.tokens|
  }

  predicate ItemOk(it: Item) {
    it.pos < |it.tokens|
  }

  function Slot(c: KvConfig, blocks: seq<Block>, pos: nat): nat
    requires ValidConfig(c)
  {
    Span(c.blockSize, Get(blocks, Quot(c.blockSize, pos))) + Rem(c.blockSize, pos)
  }

  function SliceItems(w: Work, n: nat): (r: seq<Item>)
    ensures |r| == n
    ensures forall t :: 0 <= t < n ==> r[t] == Item(w.blocks, w.tokens, w.start + t)
  {
    if n == 0 then [] else SliceItems(w, n - 1) + [Item(w.blocks, w.tokens, w.start + n - 1)]
  }

  function Flatten(works: seq<Work>): seq<Item> {
    if works == [] then [] else Flatten(works[..|works| - 1]) + SliceItems(works[|works| - 1], works[|works| - 1].len)
  }

  /** Packed indices of the last tokens of the slices that want logits. */
  function LogitRows(works: seq<Work>): seq<int> {
    if works == [] then []
    else
      var w := works[|works| - 1];
      LogitRows(works[..|works| - 1]) + if w.needsLogits then [|Flatten(works)| - 1] else []
  }

  /** Sampling settings of the slices that want logits, in the same order. */
  function LogitParams(works: seq<Work>): seq<SamplingParams> {
    if works == [] then []
    else LogitParams(works[..|works| - 1]) + if works[|works| - 1].needsLogits then [works[|works| - 1].params] else []
  }

  function At(layer: seq<KV>, slot: nat): KV {
    if slot < |layer| then layer[slot] else KV([], [])
  }

  function Store(layer: seq<KV>, slot: nat, e: KV): (r: seq<KV>)
    ensures |r| == |layer|
    ensures forall s: nat :: At(r, s) == if s == slot && slot < |layer| then e else At(layer, s)
  {
    if slot < |layer| then layer[slot := e] else layer
  }

  /** The layer's cache after the first `n` packed tokens stored their K/V. */
  function WriteAll(c: KvConfig, net: Net, l: nat, layer: seq<KV>, items: seq<Item>, xs: seq<Vec>, n: nat): (r: seq<KV>)
    requires ValidConfig(c) && n <= |items| == |xs|
    ensures |r| == |layer|
  {
    if n == 0 then layer
    else Store(WriteAll(c, net, l, layer, items, xs, n - 1), Slot(c, items[n - 1].blocks, items[n - 1].pos),
               net.kv(l, items[n - 1].pos, xs[n - 1]))
  }

  function ReadHistory(c: KvConfig, layer: seq<KV>, blocks: seq<Block>, n: nat): (r: seq<KV>)
    requires ValidConfig(c)
    ensures |r| == n
    ensures forall q :: 0 <= q < n ==> r[q] == At(layer, Slot(c, blocks, q))
  {
    if n == 0 then [] else ReadHistory(c, layer, blocks, n - 1) + [At(layer, Slot(c, blocks, n - 1))]
  }

  function AttendAll(c: KvConfig, net: Net, l: nat, layer: seq<KV>, items: seq<Item>, xs: seq<Vec>, n: nat): (r: seq<Vec>)
    requires ValidConfig(c) && n <= |items| == |xs|
    ensures |r| == n
    ensures forall i :: 0 <= i < n ==>
              r[i] == net.attend(l, items[i].pos, xs[i], ReadHistory(c, layer, items[i].blocks, items[i].pos + 1))
  {
    if n == 0 then []
    else AttendAll(c, net, l, layer, items, xs, n - 1)
         + [net.attend(l, items[n - 1].pos, xs[n - 1], ReadHistory(c, layer, items[n - 1].blocks, items[n - 1].pos + 1))]
  }

  function EmbedAll(net: Net, items: seq<Item>, n: nat): (r: seq<Vec>)
    requires n <= |items| && forall i :: 0 <= i < |items| ==> ItemOk(items[i])
    ensures |r| == n
    ensures forall i :: 0 <= i < n ==> ItemOk(items[i]) && r[i] == net.embed(items[i].tokens[items[i].pos])
  {
    if n == 0 then [] else EmbedAll(net, items, n - 1) + [net.embed(items[n - 1].tokens[items[n - 1].pos])]
  }

  /** One layer: write every token's K/V, then let every token attend. */
  function StepLayer(c: KvConfig, net: Net, items: seq<Item>, l: nat, cache: seq<seq<KV>>, xs: seq<Vec>): (r: (seq<seq<KV>>, seq<Vec>))
    requires ValidConfig(c) && l < |cache| && |xs| == |items|
    ensures |r.0| == |cache| && |r.1| == |items|
  {
    var layer := WriteAll(c, net, l, cache[l], items, xs, |items|);
    (cache[l := layer], AttendAll(c, net, l, layer, items, xs, |items|))
  }

  /** Hidden states and cache after the first `l` layers. */
  function RunLayers(c: KvConfig, net: Net, cache: seq<seq<KV>>, items: seq<Item>, l: nat): (r: (seq<seq<KV>>, seq<Vec>))
    requires ValidConfig(c) && l <= |cache| && forall i :: 0 <= i < |items| ==> ItemOk(items[i])
    ensures |r.0| == |cache| && |r.1| == |items|
  {
    if l == 0 then (cache, EmbedAll(net, items, |items|))
    else
      var (cache1, xs) := RunLayers(c, net, cache, items, l - 1);
      StepLayer(c, net, items, l - 1, cache1, xs)
  }

  function PickRows(net: Net, xs: seq<Vec>, rows: seq<int>, params: seq<SamplingParams>, n: nat): (r: seq<Token>)
    requires n <= |rows| == |params|
    ensures |r| == n
    ensures forall k :: 0 <= k < n && 0 <= rows[k] < |xs| ==> r[k] == net.pick(params[k], xs[rows[k]])
  {
    if n == 0 then []
    else PickRows(net, xs, rows, params, n - 1)
         + [net.pick(params[n - 1], if 0 <= rows[n - 1] < |xs| then xs[rows[n - 1]] else [])]
  }

  /** One forward pass and the sampling of its logits rows. */
  function Forward(c: KvConfig, net: Net, cache: seq<seq<KV>>, works: seq<Work>): (r: (seq<seq<KV>>, seq<Token>))
    requires ValidConfig(c) && |cache| == net.layers && forall i :: 0 <= i < |works| ==> WorkOk(works[i])
    ensures |r.0| == |cache|
  {
    FlattenOk(works);
    RowsMatch(works);
    var items := Flatten(works);
    var (cache1, xs) := RunLayers(c, net, cache, items, net.layers);
    (cache1, PickRows(net, xs, LogitRows(works), LogitParams(works), |LogitRows(works)|))
  }

  // ---- packing facts ----

  lemma {:induction false} FlattenOk(works: seq<Work>)
    requires forall i :: 0 <= i < |works| ==> WorkOk(works[i])
    ensures forall i :: 0 <= i < |Flatten(works)| ==> ItemOk(Flatten(works)[i])
  {
    if works != [] {
      FlattenOk(works[..|works| - 1]);
    }
  }

  lemma {:induction false} RowsMatch(works: seq<Work>)
    ensures |LogitRows(works)| == |LogitParams(works)|
  {
    if works != [] {
      RowsMatch(works[..|works| - 1]);
    }
  }

  ghost predicate FromSlice(w: Work, it: Item) {
    it.blocks == w.blocks && it.tokens == w.tokens && w.start <= it.pos < w.start + w.len
  }

  /** Every packed token comes from some slice. */
  lemma {:induction false} FlattenFrom(works: seq<Work>, i: nat)
    requires i < |Flatten(works)|
    ensures exists k :: 0 <= k < |works| && FromSlice(works[k], Flatten(works)[i])
  {
    var m := |works| - 1;
    var front := Flatten(works[..m]);
    if i < |front| {
      FlattenFrom(works[..m], i);
      var k :| 0 <= k < m && FromSlice(works[..m][k], front[i]);
      assert FromSlice(works[k], Flatten(works)[i]);
    } else {
      assert FromSlice(works[m], Flatten(works)[i]);
    }
  }

  /** Every token of every slice is packed. */
  lemma {:induction false} FlattenHas(works: seq<Work>, k: nat, t: nat)
    requires k < |works| && t < works[k].len
    ensures Item(works[k].blocks, works[k].tokens, works[k].start + t) in Flatten(works)
  {
    var m := |works| - 1;
    if k < m {
      FlattenHas(works[..m], k, t);
    } else {
      assert Flatten(works)[|Flatten(works[..m])| + t] == Item(works[m].blocks, works[m].tokens, works[m].start + t);
    }
  }

  // ---- correctness of a pass ----

  /**
   `want` assigns to slots the token prefix they should hold. The items agree with it: what item
   `i` reads for position `q` is the slot of its own prefix of length `q + 1`.
   */
  ghost predicate Agrees(c: KvConfig, items: seq<Item>, want: nat -> seq<Token>, size: nat) {
    && ValidConfig(c)
    && (forall i :: 0 <= i < |items| ==> ItemOk(items[i]))
    && (forall i, q: nat :: 0 <= i < |items| && q <= items[i].pos ==>
          Slot(c, items[i].blocks, q) < size && want(Slot(c, items[i].blocks, q)) == items[i].tokens[..q + 1])
  }

  ghost predicate Holds(net: Net, l: nat, layer: seq<KV>, s: nat, want: nat -> seq<Token>) {
    want(s) != [] && At(layer, s) == RefKV(net, l, want(s))
  }

  ghost predicate Written(c: KvConfig, items: seq<Item>, s: nat)
    requires ValidConfig(c)
  {
    exists i :: 0 <= i < |items| && Slot(c, items[i].blocks, items[i].pos) == s
  }

  /** Every slot an item reads is either written in this pass or already holds what it should, in every layer. */
  ghost predicate Covered(c: KvConfig, net: Net, cache: seq<seq<KV>>, items: seq<Item>, want: nat -> seq<Token>)
    requires ValidConfig(c) && |cache| == net.layers
  {
    forall i, q: nat, l :: 0 <= i < |items| && q <= items[i].pos && 0 <= l < net.layers ==>
      Written(c, items, Slot(c, items[i].blocks, q)) || Holds(net, l, cache[l], Slot(c, items[i].blocks, q), want)
  }

  ghost predicate HiddenOk(net: Net, l: nat, items: seq<Item>, xs: seq<Vec>) {
    |xs| == |items| && forall i :: 0 <= i < |items| ==> ItemOk(items[i]) && xs[i] == RefHidden(net, l, items[i].tokens[..items[i].pos + 1])
  }

  /** After the writes, a slot holds its prefix's K/V if it was written, and is untouched otherwise. */
  lemma {:induction false} WriteAllHolds(c: KvConfig, net: Net, l: nat, layer: seq<KV>, items: seq<Item>, xs: seq<Vec>, n: nat,
                                         want: nat -> seq<Token>, s: nat)
    requires n <= |items| == |xs| && Agrees(c, items, want, |layer|) && HiddenOk(net, l, items, xs)
    ensures var r := WriteAll(c, net, l, layer, items, xs, n);
            (Written(c, items[..n], s) ==> Holds(net, l, r, s, want)) && (!Written(c, items[..n], s) ==> At(r, s) == At(layer, s))
  {
    hide Written, Slot, RefHidden, HiddenOk, Agrees;
    AgreesConfig(c, items, want, |layer|);
    if n > 0 {
      WriteAllHolds(c, net, l, layer, items, xs, n - 1, want, s);
      WrittenNext(c, items, n, s);
      var it := items[n - 1];
      if Slot(c, it.blocks, it.pos) == s {
        WrittenHere(c, net, l, items, xs, n - 1, want, |layer|);
      }
    } else {
      NoneWritten(c, items, s);
    }
  }

  lemma AgreesConfig(c: KvConfig, items: seq<Item>, want: nat -> seq<Token>, size: nat)
    requires Agrees(c, items, want, size)
    ensures ValidConfig(c)
  {
    hide Slot;
  }

  lemma WrittenNext(c: KvConfig, items: seq<Item>, n: nat, s: nat)
    requires ValidConfig(c) && 0 < n <= |items|
    ensures Written(c, items[..n], s) <==> Written(c, items[..n - 1], s) || Slot(c, items[n - 1].blocks, items[n - 1].pos) == s
  {
    hide Slot;
    assert items[..n] == items[..n - 1] + [items[n - 1]];
    assert items[..n][n - 1] == items[n - 1];
    if Written(c, items[..n - 1], s) {
      var i :| 0 <= i < n - 1 && Slot(c, items[..n - 1][i].blocks, items[..n - 1][i].pos) == s;
      assert items[..n][i] == items[..n - 1][i];
    }
  }

  lemma NoneWritten(c: KvConfig, items: seq<Item>, s: nat)
    requires ValidConfig(c)
    ensures !Written(c, items[..0], s)
  {
  }

  /** What item `i` stores is the K/V of the prefix its slot should hold. */
  lemma WrittenHere(c: KvConfig, net: Net, l: nat, items: seq<Item>, xs: seq<Vec>, i: nat, want: nat -> seq<Token>, size: nat)
    requires i < |items| == |xs| && Agrees(c, items, want, size) && HiddenOk(net, l, items, xs)
    ensures var s := Slot(c, items[i].blocks, items[i].pos);
            s < size && want(s) != [] && net.kv(l, items[i].pos, xs[i]) == RefKV(net, l, want(s))
  {
    hide Slot;
    var it := items[i];
    assert want(Slot(c, it.blocks, it.pos)) == it.tokens[..it.pos + 1];
  }

  lemma AttendAllOk(c: KvConfig, net: Net, l: nat, layer: seq<KV>, items: seq<Item>, xs: seq<Vec>, want: nat -> seq<Token>)
    requires |items| == |xs| && Agrees(c, items, want, |layer|) && HiddenOk(net, l, items, xs)
    requires forall i, q: nat :: 0 <= i < |items| && q <= items[i].pos ==> Holds(net, l, layer, Slot(c, items[i].blocks, q), want)
    ensures HiddenOk(net, l + 1, items, AttendAll(c, net, l, layer, items, xs, |items|))
  {
    hide Holds, Slot, Agrees, ReadHistory, RefHistory;
    AgreesConfig(c, items, want, |layer|);
    forall i | 0 <= i < |items|
      ensures ReadHistory(c, layer, items[i].blocks, items[i].pos + 1) == RefHistory(net, l, items[i].tokens[..items[i].pos + 1])
    {
      HistoryOk(c, net, l, layer, items, i, want);
    }
  }

  lemma HistoryOk(c: KvConfig, net: Net, l: nat, layer: seq<KV>, items: seq<Item>, i: nat, want: nat -> seq<Token>)
    requires i < |items| && Agrees(c, items, want, |layer|) && ItemOk(items[i])
    requires forall q: nat :: q <= items[i].pos ==> Holds(net, l, layer, Slot(c, items[i].blocks, q), want)
    ensures ReadHistory(c, layer, items[i].blocks, items[i].pos + 1) == RefHistory(net, l, items[i].tokens[..items[i].pos + 1])
  {
    hide Slot, RefKV;
    var x := items[i].tokens[..items[i].pos + 1];
    var got := ReadHistory(c, layer, items[i].blocks, items[i].pos + 1);
    forall q | 0 <= q < |x| ensures got[q] == RefKV(net, l, x[..q + 1]) {
      assert Holds(net, l, layer, Slot(c, items[i].blocks, q), want);
      assert x[..q + 1] == items[i].tokens[..q + 1];
    }
  }

  /** A layer's cache after a pass: written slots hold their prefix, the others are untouched. */
  ghost predicate LayerDone(c: KvConfig, net: Net, l: nat, before: seq<KV>, after: seq<KV>, items: seq<Item>, want: nat -> seq<Token>)
    requires ValidConfig(c)
  {
    && |after| == |before|
    && (forall s: nat :: Written(c, items, s) ==> Holds(net, l, after, s, want))
    && (forall s: nat :: !Written(c, items, s) ==> At(after, s) == At(before, s))
  }

  /** After `l` layers: hidden states are the reference's, the layers behind are done, the others untouched. */
  ghost predicate PassInv(c: KvConfig, net: Net, cache: seq<seq<KV>>, items: seq<Item>, l: nat, want: nat -> seq<Token>, cache1: seq<seq<KV>>, xs: seq<Vec>)
    requires ValidConfig(c)
  {
    && |cache1| == |cache|
    && HiddenOk(net, l, items, xs)
    && (forall k :: l <= k < |cache| ==> cache1[k] == cache[k])
    && (forall k :: 0 <= k < l && k < |cache| ==> LayerDone(c, net, k, cache[k], cache1[k], items, want))
  }

  lemma StepLayerOk(c: KvConfig, net: Net, cache: seq<seq<KV>>, items: seq<Item>, l: nat, want: nat -> seq<Token>, cache1: seq<seq<KV>>, xs: seq<Vec>)
    requires ValidConfig(c) && l < net.layers && |cache| == net.layers && |xs| == |items|
    requires Agrees(c, items, want, |cache[l]|) && Covered(c, net, cache, items, want)
    requires PassInv(c, net, cache, items, l, want, cache1, xs)
    ensures var (cache2, xs2) := StepLayer(c, net, items, l, cache1, xs); PassInv(c, net, cache, items, l + 1, want, cache2, xs2)
  {
    hide LayerDone, Covered, HiddenOk, Agrees, AttendAll, WriteAll;
    LayerOk(c, net, cache, items, xs, l, want);
  }

  lemma {:induction false} RunLayersOk(c: KvConfig, net: Net, cache: seq<seq<KV>>, items: seq<Item>, l: nat, want: nat -> seq<Token>, size: nat)
    requires l <= net.layers && |cache| == net.layers && Agrees(c, items, want, size)
    requires forall k :: 0 <= k < |cache| ==> |cache[k]| == size
    requires Covered(c, net, cache, items, want)
    ensures var (cache1, xs) := RunLayers(c, net, cache, items, l); PassInv(c, net, cache, items, l, want, cache1, xs)
  {
    hide *;
    AgreesItems(c, items, want, size);
    if l > 0 {
      RunLayersOk(c, net, cache, items, l - 1, want, size);
      var (cache1, xs) := RunLayers(c, net, cache, items, l - 1);
      assert |cache[l - 1]| == size;
      StepLayerOk(c, net, cache, items, l - 1, want, cache1, xs);
      RunLayersNext(c, net, cache, items, l);
    } else {
      PassBase(c, net, cache, items, want);
    }
  }

  lemma RunLayersNext(c: KvConfig, net: Net, cache: seq<seq<KV>>, items: seq<Item>, l: nat)
    requires ValidConfig(c) && 0 < l <= |cache| && forall i :: 0 <= i < |items| ==> ItemOk(items[i])
    ensures var (cache1, xs) := RunLayers(c, net, cache, items, l - 1);
            RunLayers(c, net, cache, items, l) == StepLayer(c, net, items, l - 1, cache1, xs)
  {
    hide StepLayer, EmbedAll;
  }

  lemma AgreesItems(c: KvConfig, items: seq<Item>, want: nat -> seq<Token>, size: nat)
    requires Agrees(c, items, want, size)
    ensures ValidConfig(c) && forall i :: 0 <= i < |items| ==> ItemOk(items[i])
  {
  }

  lemma PassBase(c: KvConfig, net: Net, cache: seq<seq<KV>>, items: seq<Item>, want: nat -> seq<Token>)
    requires ValidConfig(c) && forall i :: 0 <= i < |items| ==> ItemOk(items[i])
    ensures var (cache1, xs) := RunLayers(c, net, cache, items, 0); PassInv(c, net, cache, items, 0, want, cache1, xs)
  {
    EmbedOk(net, items);
  }

  lemma EmbedOk(net: Net, items: seq<Item>)
    requires forall i :: 0 <= i < |items| ==> ItemOk(items[i])
    ensures HiddenOk(net, 0, items, EmbedAll(net, items, |items|))
  {
    assert forall i :: 0 <= i < |items| ==> items[i].tokens[..items[i].pos + 1][items[i].pos] == items[i].tokens[items[i].pos];
  }

  lemma LayerOk(c: KvConfig, net: Net, cache: seq<seq<KV>>, items: seq<Item>, xs: seq<Vec>, l: nat, want: nat -> seq<Token>)
    requires l < net.layers && |cache| == net.layers && |xs| == |items|
    requires Agrees(c, items, want, |cache[l]|) && HiddenOk(net, l, items, xs) && Covered(c, net, cache, items, want)
    ensures var r := WriteAll(c, net, l, cache[l], items, xs, |items|);
            && HiddenOk(net, l + 1, items, AttendAll(c, net, l, r, items, xs, |items|))
            && LayerDone(c, net, l, cache[l], r, items, want)
  {
    var r := WriteAll(c, net, l, cache[l], items, xs, |items|);
    assert items[..|items|] == items;
    forall s: nat ensures (Written(c, items, s) ==> Holds(net, l, r, s, want)) && (!Written(c, items, s) ==> At(r, s) == At(cache[l], s)) {
      WriteAllHolds(c, net, l, cache[l], items, xs, |items|, want, s);
    }
    forall i, q: nat | 0 <= i < |items| && q <= items[i].pos ensures Holds(net, l, r, Slot(c, items[i].blocks, q), want) {
      var s := Slot(c, items[i].blocks, q);
      assert Written(c, items, s) || Holds(net, l, cache[l], s, want);
    }
    AttendAllOk(c, net, l, r, items, xs, want);
  }

  /** Row `k` of a pass belongs to the `k`-th slice that wants logits, at that slice's last token. */
  lemma {:induction false} RowsPointAtEnds(works: seq<Work>, m: nat)
    requires m < |works| && works[m].needsLogits && forall i :: 0 <= i < |works| ==> WorkOk(works[i])
    ensures var k := |LogitRows(works[..m])|; var w := works[m];
            && k < |LogitRows(works)| == |LogitParams(works)| && LogitParams(works)[k] == w.params
            && 0 <= LogitRows(works)[k] < |Flatten(works)|
            && WorkOk(w) && Flatten(works)[LogitRows(works)[k]] == Item(w.blocks, w.tokens, w.start + w.len - 1)
  {
    RowsMatch(works);
    RowsMatch(works[..m]);
    var n := |works| - 1;
    if m < n {
      RowsMatch(works[..n]);
      RowsPointAtEnds(works[..n], m);
      assert works[..n][..m] == works[..m];
    }
  }

  /** The sample of slice `m` is the reference's next token for the prefix the slice ends at. */
  ghost predicate RowOk(net: Net, works: seq<Work>, sampled: seq<Token>, m: nat)
    requires m < |works|
  {
    var k := |LogitRows(works[..m])|;
    k < |sampled| && WorkOk(works[m]) && sampled[k] == NextToken(net, works[m].params, works[m].tokens[..works[m].start + works[m].len])
  }

  /**
   The whole pass: each slice that wants logits gets the token the reference picks for its prefix,
   whatever else is in the step and however the prefix was chunked, and the cache holds the
   reference K/V at every written slot and is otherwise unchanged.
   */
  lemma ForwardCorrect(c: KvConfig, net: Net, cache: seq<seq<KV>>, works: seq<Work>, want: nat -> seq<Token>, size: nat)
    requires ValidConfig(c) && |cache| == net.layers && forall i :: 0 <= i < |works| ==> WorkOk(works[i])
    requires forall k :: 0 <= k < |cache| ==> |cache[k]| == size
    requires Agrees(c, Flatten(works), want, size) && Covered(c, net, cache, Flatten(works), want)
    ensures var (cache1, sampled) := Forward(c, net, cache, works);
            && (forall l :: 0 <= l < |cache| ==> LayerDone(c, net, l, cache[l], cache1[l], Flatten(works), want))
            && |sampled| == |LogitRows(works)|
            && (forall m :: 0 <= m < |works| && works[m].needsLogits ==> RowOk(net, works, sampled, m))
  {
    hide LayerDone, Covered, Agrees, RunLayers, Flatten, LogitRows, LogitParams;
    FlattenOk(works);
    RowsMatch(works);
    var items := Flatten(works);
    RunLayersOk(c, net, cache, items, net.layers, want, size);
    var (cache1, xs) := RunLayers(c, net, cache, items, net.layers);
    var sampled := Forward(c, net, cache, works).1;
    forall m | 0 <= m < |works| && works[m].needsLogits ensures RowOk(net, works, sampled, m) {
      RowsPointAtEnds(works, m);
    }
  }
}
