/**
 Paged attention twice: the two-pass reference and the decode kernel (strided threads, a merge tree). Each is
 proved to compute the softmax-weighted value of the history, so they agree, for every history length and
 every block table. `AttentionGqa.dfy` has the grouped-query kernel. Arithmetic is exact; threads of a block
 that write disjoint rows between two barriers are run in index order.
 */
module AttentionKernels {
  import opened Lists
  import opened Paging
  import opened Softmax

  /** [slot][kv head][dimension] */
  type CacheView = seq<seq<seq<real>>>

  function Fetch(cache: CacheView, slot: nat, head: nat, d: nat): real {
    if slot < |cache| && head < |cache[slot]| && d < |cache[slot][head]| then cache[slot][head][d] else 0.0
  }

  /** One (token, query head): its query, the caches, its block table and the KV head it reads. */
  datatype PagedHead = PagedHead(
    exp: real -> real, q: seq<real>, keys: CacheView, values: CacheView,
    table: seq<nat>, blockSize: nat, kvHead: nat, dim: nat, scale: real, lowest: real)

  function SlotAt(x: PagedHead, p: nat): nat
    requires x.blockSize > 0
  {
    Get(x.table, p / x.blockSize) * x.blockSize + p % x.blockSize
  }

  function KeyAt(x: PagedHead, p: nat, d: nat): real {
    if x.blockSize > 0 then Fetch(x.keys, SlotAt(x, p), x.kvHead, d) else 0.0
  }

  function ValueAt(x: PagedHead, p: nat, d: nat): real {
    if x.blockSize > 0 then Fetch(x.values, SlotAt(x, p), x.kvHead, d) else 0.0
  }

  function QueryAt(x: PagedHead, d: nat): real {
    if d < |x.q| then x.q[d] else 0.0
  }

  /** The query times the key at `p`, over the first `n` dimensions. */
  function Dot(x: PagedHead, p: nat, n: nat): real {
    if n == 0 then 0.0 else Dot(x, p, n - 1) + QueryAt(x, n - 1) * KeyAt(x, p, n - 1)
  }

  function HeadOf(x: PagedHead): Head {
    Head(x.exp, (p: nat) => Dot(x, p, x.dim) * x.scale, (p: nat, d: nat) => ValueAt(x, p, d), x.dim, x.lowest)
  }

  ghost predicate Ready(x: PagedHead, pos: nat) {
    x.blockSize > 0 && |x.q| == x.dim && Above(HeadOf(x), pos)
  }

  /** The output every implementation must produce. */
  ghost predicate IsAttention(x: PagedHead, pos: nat, out: seq<real>) {
    && |out| == x.dim && Sum(HeadOf(x), Upto(pos), pos + 1, 0.0, 0) != 0.0
    && forall d :: 0 <= d < x.dim ==> out[d] == Attention(HeadOf(x), pos, d)
  }

  // ---- the two-pass reference ----

  method Score(x: PagedHead, p: nat) returns (s: real)
    requires x.blockSize > 0 && |x.q| == x.dim
    ensures s == HeadOf(x).score(p)
  {
    s := 0.0;
    for d := 0 to x.dim
      invariant s == Dot(x, p, d)
    {
      s := s + x.q[d] * Fetch(x.keys, SlotAt(x, p), x.kvHead, d);
    }
    s := s * x.scale;
  }

  lemma MaxNext(h: Head, pos: nat, p: nat, mx: real)
    requires Above(h, pos) && p <= pos && IsMax(h, Range(p), mx)
    ensures IsMax(h, Range(p + 1), if h.score(p) > mx then h.score(p) else mx)
  {
    hide IsMax, IsExp;
    OneIsMax(h, p);
    assert forall k :: k in Range(p) || k in {p} ==> k <= p;
    MaxUnion(h, Range(p), {p}, mx, h.score(p));
    assert Range(p + 1) == Range(p) + {p};
  }

  lemma AddQuotient(o: real, w: real, v: real, denom: real)
    requires denom != 0.0
    ensures (o + (w / denom) * v) * denom == o * denom + w * v
  {
    var q := w / denom;
    assert q * denom == w;
    assert (q * v) * denom == (q * denom) * v;
    Distribute(o, q * v, denom);
  }

  /** First pass: every score, and their maximum. */
  method ScoreAll(x: PagedHead, pos: nat, scratch: array<real>) returns (mx: real)
    requires Ready(x, pos) && scratch.Length == pos + 1
    modifies scratch
    ensures forall k :: 0 <= k <= pos ==> scratch[k] == HeadOf(x).score(k)
    ensures IsMax(HeadOf(x), Upto(pos), mx)
  {
    hide *;
    ReadyParts(x, pos);
    mx := x.lowest;
    NoMax(HeadOf(x));
    for p := 0 to pos + 1
      invariant IsMax(HeadOf(x), Range(p), mx)
      invariant forall k :: 0 <= k < p ==> scratch[k] == HeadOf(x).score(k)
    {
      var s := Score(x, p);
      scratch[p] := s;
      MaxNext(HeadOf(x), pos, p, mx);
      if s > mx {
        mx := s;
      }
    }
    UptoIs(pos);
  }

  lemma ReadyParts(x: PagedHead, pos: nat)
    requires Ready(x, pos)
    ensures x.blockSize > 0 && |x.q| == x.dim && Above(HeadOf(x), pos) && IsExp(HeadOf(x).exp) && HeadOf(x).lowest == x.lowest && HeadOf(x).dim == x.dim
  {
  }

  lemma UptoIs(pos: nat)
    ensures Upto(pos) == Range(pos + 1)
  {
  }

  lemma NoMax(h: Head)
    ensures IsMax(h, Range(0), h.lowest)
  {
  }

  /** Second pass: turn scores into weights and add them up. */
  method Exponentiate(x: PagedHead, pos: nat, mx: real, scratch: array<real>) returns (denom: real)
    requires scratch.Length == pos + 1 && forall k :: 0 <= k <= pos ==> scratch[k] == HeadOf(x).score(k)
    modifies scratch
    ensures forall k :: 0 <= k <= pos ==> scratch[k] == Weight(HeadOf(x), k, mx)
    ensures denom == Sum(HeadOf(x), Upto(pos), pos + 1, mx, 0)
  {
    hide Dot, Sum;
    ghost var h := HeadOf(x);
    denom := 0.0;
    SumStart(h, pos, mx, 0);
    for p := 0 to pos + 1
      invariant denom == Sum(h, Upto(pos), p, mx, 0)
      invariant forall k :: 0 <= k < p ==> scratch[k] == Weight(h, k, mx)
      invariant forall k :: p <= k <= pos ==> scratch[k] == h.score(k)
    {
      SumNext(h, pos, p, mx, 0);
      scratch[p] := x.exp(scratch[p] - mx);
      denom := denom + scratch[p];
    }
  }

  /** `o` is component `d` of the output after the first `p` positions, normalised. */
  ghost predicate Accumulated(h: Head, pos: nat, p: nat, mx: real, denom: real, o: real, d: nat) {
    o * denom == Sum(h, Upto(pos), p, mx, d + 1)
  }

  method PagedAttentionHead(x: PagedHead, pos: nat) returns (out: array<real>)
    requires Ready(x, pos)
    ensures fresh(out) && IsAttention(x, pos, out[..])
  {
    hide IsExp, Dot, Attention, Sum, Accumulated, IsMax;
    ghost var h := HeadOf(x);
    var scratch := new real[pos + 1];
    var mx := ScoreAll(x, pos, scratch);
    var denom := Exponentiate(x, pos, mx, scratch);
    TotalPositive(h, pos, mx);
    TotalPositive(h, pos, 0.0);
    out := new real[x.dim];
    for d := 0 to x.dim
      invariant forall k :: 0 <= k < d ==> Accumulated(h, pos, 0, mx, denom, out[k], k)
      invariant forall k :: 0 <= k <= pos ==> scratch[k] == Weight(h, k, mx)
    {
      out[d] := 0.0;
      AccumulateStart(h, pos, mx, denom, d);
    }
    for p := 0 to pos + 1
      invariant forall d :: 0 <= d < x.dim ==> Accumulated(h, pos, p, mx, denom, out[d], d)
      invariant forall k :: 0 <= k <= pos ==> scratch[k] == Weight(h, k, mx)
    {
      AddPosition(x, pos, p, mx, scratch[p], denom, out);
    }
    forall d | 0 <= d < x.dim ensures out[..][d] == Attention(h, pos, d) {
      AccumulateEnd(h, pos, mx, denom, out[d], d);
    }
  }

  /** Add one position's normalised contribution to the output. */
  method AddPosition(x: PagedHead, pos: nat, p: nat, ghost mx: real, weight: real, denom: real, out: array<real>)
    requires x.blockSize > 0 && out.Length == x.dim && denom != 0.0 && p <= pos && weight == Weight(HeadOf(x), p, mx)
    requires forall d :: 0 <= d < x.dim ==> Accumulated(HeadOf(x), pos, p, mx, denom, out[d], d)
    modifies out
    ensures forall d :: 0 <= d < x.dim ==> Accumulated(HeadOf(x), pos, p + 1, mx, denom, out[d], d)
  {
    hide Dot, Sum, Accumulated;
    ghost var h := HeadOf(x);
    var w := weight / denom;
    for d := 0 to x.dim
      invariant forall k :: d <= k < x.dim ==> out[k] == old(out[k])
      invariant forall k :: 0 <= k < d ==> Accumulated(h, pos, p + 1, mx, denom, out[k], k)
    {
      var v := Fetch(x.values, SlotAt(x, p), x.kvHead, d);
      AccumulateNext(h, pos, p, mx, denom, out[d], d, v, w);
      out[d] := out[d] + w * v;
    }
  }

  lemma AccumulateStart(h: Head, pos: nat, mx: real, denom: real, d: nat)
    ensures Accumulated(h, pos, 0, mx, denom, 0.0, d)
  {
  }

  lemma AccumulateNext(h: Head, pos: nat, p: nat, mx: real, denom: real, o: real, d: nat, v: real, w: real)
    requires denom != 0.0 && p <= pos && Accumulated(h, pos, p, mx, denom, o, d) && v == h.value(p, d) && w == Weight(h, p, mx) / denom
    ensures Accumulated(h, pos, p + 1, mx, denom, o + w * v, d)
  {
    hide Sum;
    AddQuotient(o, Weight(h, p, mx), v, denom);
    SumNext(h, pos, p, mx, d + 1);
  }

  lemma AccumulateEnd(h: Head, pos: nat, mx: real, denom: real, o: real, d: nat)
    requires IsExp(h.exp) && denom == Sum(h, Upto(pos), pos + 1, mx, 0) && Accumulated(h, pos, pos + 1, mx, denom, o, d)
    ensures Sum(h, Upto(pos), pos + 1, 0.0, 0) != 0.0 && o == Attention(h, pos, d)
  {
    hide Sum;
    SumQuotient(h, pos, mx, d);
    Quotient(Sum(h, Upto(pos), pos + 1, mx, d + 1), denom, o);
  }

  lemma SumStart(h: Head, pos: nat, m: real, col: nat)
    ensures Sum(h, Upto(pos), 0, m, col) == 0.0
  {
  }

  lemma SumNext(h: Head, pos: nat, p: nat, m: real, col: nat)
    requires p <= pos
    ensures Sum(h, Upto(pos), p + 1, m, col) == Sum(h, Upto(pos), p, m, col) + Weight(h, p, m) * Column(h, p, col)
  {
  }

  // ---- strides ----

  /** The positions up to `pos` that a worker with index `r` of `k` visits. */
  ghost function Strided(pos: nat, k: nat, r: nat): set<nat>
    requires k > 0
  {
    set p | p in Range(pos + 1) && p % k == r
  }

  lemma HalfStride(p: nat, s: nat, k: nat, r: nat)
    requires s > 0 && r < s && k == s + s
    ensures p % s == r <==> p % k == r || p % k == r + s
  {
    HalfDiv(p, s, k);
    ModLess(p, k);
  }

  /** Halving the stride joins two workers' positions, which are disjoint. */
  lemma StridesJoin(pos: nat, s: nat, r: nat)
    requires s > 0 && r < s
    ensures Strided(pos, 2 * s, r) !! Strided(pos, 2 * s, r + s)
    ensures Strided(pos, s, r) == Strided(pos, 2 * s, r) + Strided(pos, 2 * s, r + s)
  {
    forall p | p in Range(pos + 1) ensures p % s == r <==> p % (2 * s) == r || p % (2 * s) == r + s {
      HalfStride(p, s, 2 * s, r);
    }
  }

  ghost predicate PowerOfTwo(k: nat) {
    k == 1 || (k > 1 && k % 2 == 0 && PowerOfTwo(k / 2))
  }

  /** One worker's walk: positions r, r + k, r + 2k, ... with the online update. */
  method Walk(x: PagedHead, pos: nat, k: nat, r: nat) returns (part: Partial)
    requires Ready(x, pos) && r < k
    ensures Summarises(HeadOf(x), part, Strided(pos, k, r), pos + 1)
  {
    hide Above, Dot, Summarises, Fetch, Strided;
    ghost var h := HeadOf(x);
    part := NoPositions(HeadOf(x));
    EmptySummarises(h, pos + 1);
    ghost var done: set<nat> := {};
    var p := r;
    WalkStart(pos, k, r);
    while p <= pos
      invariant p % k == r && Summarises(h, part, done, pos + 1) && Walked(pos, k, r, p, done)
      decreases pos + k - p
    {
      var s := Score(x, p);
      SummaryShape(h, part, done, pos + 1);
      WalkUpdate(h, pos, part, done, k, r, p);
      part := UpdateRow(x, part, p, s);
      done := done + {p};
      NextMultiple(p, k, r);
      p := p + k;
    }
    WalkEnd(pos, k, r, p, done);
  }

  /** Of the worker's positions, exactly those below `p` have been visited. */
  ghost predicate Walked(pos: nat, k: nat, r: nat, p: nat, done: set<nat>)
    requires k > 0
  {
    forall i: nat :: i in done <==> i in Strided(pos, k, r) && i < p
  }

  lemma WalkStart(pos: nat, k: nat, r: nat)
    requires r < k
    ensures r % k == r && Walked(pos, k, r, r, {})
  {
    DivUnique(k, r, 0, r);
    forall i: nat | i < r ensures i % k == i {
      DivUnique(k, i, 0, i);
    }
  }

  lemma NextMultiple(p: nat, k: nat, r: nat)
    requires k > 0 && p % k == r
    ensures (p + k) % k == r
    ensures forall i: nat :: p < i < p + k ==> i % k != r
  {
    var q := p / k;
    assert p == q * k + r && (q + 1) * k == q * k + k;
    DivUnique(k, p + k, q + 1, r);
    forall i: nat | p < i < p + k ensures i % k != r {
      if i < (q + 1) * k {
        DivUnique(k, i, q, i - q * k);
      } else {
        DivUnique(k, i, q + 1, i - (q + 1) * k);
      }
    }
  }

  lemma WalkUpdate(h: Head, pos: nat, part: Partial, done: set<nat>, k: nat, r: nat, p: nat)
    requires Above(h, pos) && k > 0 && p <= pos && p % k == r && |part.acc| == h.dim
    requires Summarises(h, part, done, pos + 1) && Walked(pos, k, r, p, done)
    ensures Summarises(h, Update(h, part, p), done + {p}, pos + 1) && Walked(pos, k, r, p + k, done + {p})
  {
    hide Summarises, IsExp;
    NextMultiple(p, k, r);
    UpdateSummarises(h, part, done, p, pos + 1);
    forall i: nat ensures i in done + {p} <==> i in Strided(pos, k, r) && i < p + k {
      assert i in done <==> i in Strided(pos, k, r) && i < p;
    }
  }

  lemma WalkEnd(pos: nat, k: nat, r: nat, p: nat, done: set<nat>)
    requires k > 0 && p > pos && Walked(pos, k, r, p, done)
    ensures done == Strided(pos, k, r)
  {
    forall i ensures i in done <==> i in Strided(pos, k, r) {
      assert i in done <==> i in Strided(pos, k, r) && i < p;
    }
  }

  lemma SummaryShape(h: Head, part: Partial, s: set<nat>, n: nat)
    requires Summarises(h, part, s, n)
    ensures |part.acc| == h.dim
  {
  }

  /** The online update of one accumulator row. */
  method UpdateRow(x: PagedHead, part: Partial, p: nat, s: real) returns (r: Partial)
    requires x.blockSize > 0 && s == HeadOf(x).score(p) && |part.acc| == x.dim
    ensures r == Update(HeadOf(x), part, p)
  {
    hide Dot, Blend, Accrue, Update;
    var m := if part.m >= s then part.m else s;
    var rescale := if part.m == x.lowest then 0.0 else x.exp(part.m - m);
    var w := x.exp(s - m);
    var acc: seq<real> := [];
    for d := 0 to x.dim
      invariant |acc| == d && forall k :: 0 <= k < d ==> acc[k] == Blend(part.acc[k], rescale, w, ValueAt(x, p, k))
    {
      acc := acc + [Blend(part.acc[d], rescale, w, Fetch(x.values, SlotAt(x, p), x.kvHead, d))];
    }
    r := Partial(m, Accrue(part.l, rescale, w), acc);
    UpdateParts(x, part, p);
    assert acc == Update(HeadOf(x), part, p).acc;
  }

  lemma UpdateParts(x: PagedHead, part: Partial, p: nat)
    requires |part.acc| == x.dim
    ensures var h := HeadOf(x); var u := Update(h, part, p); var s := h.score(p);
            var m := if part.m >= s then part.m else s; var ca := if part.m == x.lowest then 0.0 else x.exp(part.m - m); var w := x.exp(s - m);
            && u.m == m && u.l == Accrue(part.l, ca, w) && |u.acc| == x.dim
            && forall d :: 0 <= d < x.dim ==> u.acc[d] == Blend(part.acc[d], ca, w, ValueAt(x, p, d))
  {
    hide Dot, Blend, Accrue, Fetch, SlotAt;
  }

  /** Scale row 0 by the reciprocal of its sum. */
  method Normalise(x: PagedHead, pos: nat, part: Partial) returns (out: seq<real>)
    requires Ready(x, pos) && Summarises(HeadOf(x), part, Upto(pos), pos + 1)
    ensures IsAttention(x, pos, out)
  {
    hide Above, Dot, Summarises, Sum, Attention;
    ghost var h := HeadOf(x);
    var inv := if part.l > 0.0 then 1.0 / part.l else 0.0;
    SummaryShape(h, part, Upto(pos), pos + 1);
    ReadyExp(x, pos);
    TotalPositive(h, pos, 0.0);
    out := [];
    for d := 0 to x.dim
      invariant |out| == d && forall k :: 0 <= k < d ==> out[k] == Attention(h, pos, k)
    {
      Normalised(h, pos, part, d);
      out := out + [part.acc[d] * inv];
    }
  }

  lemma ReadyExp(x: PagedHead, pos: nat)
    requires Ready(x, pos)
    ensures IsExp(HeadOf(x).exp)
  {
  }

  // ---- the decode kernel ----

  const Threads: nat := 64

  /** `rows[r]` summarises what worker `r` of `k` has seen. */
  ghost predicate RowsHold(h: Head, pos: nat, k: nat, rows: seq<Partial>) {
    k > 0 && k <= |rows| && forall r {:trigger rows[r]} :: 0 <= r < k ==> Summarises(h, rows[r], Strided(pos, k, r), pos + 1)
  }

  /** One thread block: every thread walks its stride, then the rows are merged pairwise in a tree. */
  method AttentionDecode(x: PagedHead, pos: nat) returns (out: seq<real>)
    requires Ready(x, pos)
    ensures IsAttention(x, pos, out)
  {
    hide Above, Dot, Summarises, Strided, IsAttention, RowsHold;
    var rows := new Partial[Threads](_ => NoPositions(HeadOf(x)));
    for t := 0 to Threads
      invariant forall r :: 0 <= r < t ==> Summarises(HeadOf(x), rows[r], Strided(pos, Threads, r), pos + 1)
    {
      var part := Walk(x, pos, Threads, t);
      rows[t] := part;
    }
    AllRows(HeadOf(x), pos, rows[..]);
    MergeTree(x, pos, rows);
    WholeHistory(HeadOf(x), pos, rows[..]);
    out := Normalise(x, pos, rows[0]);
  }

  lemma AllRows(h: Head, pos: nat, rows: seq<Partial>)
    requires |rows| == Threads && forall r :: 0 <= r < Threads ==> Summarises(h, rows[r], Strided(pos, Threads, r), pos + 1)
    ensures RowsHold(h, pos, Threads, rows)
  {
  }

  lemma WholeHistory(h: Head, pos: nat, rows: seq<Partial>)
    requires RowsHold(h, pos, 1, rows)
    ensures Summarises(h, rows[0], Upto(pos), pos + 1)
  {
    hide Summarises;
    assert Strided(pos, 1, 0) == Upto(pos);
  }

  /** Merge the rows pairwise, halving the stride, until row 0 holds everything. */
  method MergeTree(x: PagedHead, pos: nat, rows: array<Partial>)
    requires Ready(x, pos) && rows.Length == Threads && RowsHold(HeadOf(x), pos, Threads, rows[..])
    modifies rows
    ensures RowsHold(HeadOf(x), pos, 1, rows[..])
  {
    hide RowsHold, Ready;
    ghost var k: nat := Threads;
    var stride := Threads / 2;
    assert PowerOfTwo(Threads) by { assert PowerOfTwo(1); assert PowerOfTwo(2); assert PowerOfTwo(4); assert PowerOfTwo(8); assert PowerOfTwo(16); assert PowerOfTwo(32); }
    while stride > 0
      invariant PowerOfTwo(k) && stride == k / 2 && k <= Threads
      invariant RowsHold(HeadOf(x), pos, k, rows[..])
    {
      MergeRound(x, pos, rows, stride);
      k := stride;
      stride := stride / 2;
    }
  }

  /** One round of the tree; row `t` reads row `t + stride`, which nobody writes in this round. */
  method MergeRound(x: PagedHead, pos: nat, rows: array<Partial>, stride: nat)
    requires Ready(x, pos) && stride > 0 && 2 * stride <= rows.Length && RowsHold(HeadOf(x), pos, 2 * stride, rows[..])
    modifies rows
    ensures RowsHold(HeadOf(x), pos, stride, rows[..])
  {
    hide Ready, Summarises, Strided, Dot;
    ghost var h := HeadOf(x);
    for t := 0 to stride
      invariant forall r :: 0 <= r < t ==> Summarises(h, rows[r], Strided(pos, stride, r), pos + 1)
      invariant forall r :: t <= r < 2 * stride ==> rows[r] == old(rows[r])
    {
      assert rows[t] == old(rows[..])[t] && rows[t + stride] == old(rows[..])[t + stride];
      MergeTwo(x, pos, stride, t, rows[t], rows[t + stride]);
      var merged := MergeRows(x, rows[t], rows[t + stride]);
      rows[t] := merged;
    }
  }

  lemma MergeTwo(x: PagedHead, pos: nat, stride: nat, t: nat, a: Partial, b: Partial)
    requires Ready(x, pos) && t < stride
    requires Summarises(HeadOf(x), a, Strided(pos, 2 * stride, t), pos + 1) && Summarises(HeadOf(x), b, Strided(pos, 2 * stride, t + stride), pos + 1)
    ensures |a.acc| == |b.acc| == x.dim && Summarises(HeadOf(x), Merge(HeadOf(x), a, b), Strided(pos, stride, t), pos + 1)
  {
    hide Dot, Strided, Summarises;
    var h := HeadOf(x);
    SummaryShape(h, a, Strided(pos, 2 * stride, t), pos + 1);
    SummaryShape(h, b, Strided(pos, 2 * stride, t + stride), pos + 1);
    StridesJoin(pos, stride, t);
    MergeSummarises(h, a, Strided(pos, 2 * stride, t), b, Strided(pos, 2 * stride, t + stride), pos + 1);
  }

  method MergeRows(x: PagedHead, a: Partial, b: Partial) returns (r: Partial)
    requires |a.acc| == |b.acc| == x.dim
    ensures r == Merge(HeadOf(x), a, b)
  {
    hide Dot, Blend;
    var m := if a.m >= b.m then a.m else b.m;
    var ca := if a.m == x.lowest then 0.0 else x.exp(a.m - m);
    var cb := if b.m == x.lowest then 0.0 else x.exp(b.m - m);
    var acc: seq<real> := [];
    for d := 0 to x.dim
      invariant |acc| == d && forall k :: 0 <= k < d ==> acc[k] == Blend(a.acc[k], ca, b.acc[k], cb)
    {
      acc := acc + [Blend(a.acc[d], ca, b.acc[d], cb)];
    }
    r := Partial(m, Blend(a.l, ca, b.l, cb), acc);
    assert acc == Mix(a.acc, ca, b.acc, cb);
  }
}
