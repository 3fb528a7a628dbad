/**
 The grouped-query decode kernel: one thread block per KV head serves all query heads of its group,
 reading each key and value once. Warps stride over the history, the lanes of a warp share each dot
 product through a butterfly sum, and the warps' partials are merged one after the other.
 */
module AttentionGqa {
  import opened Lists
  import opened Paging
  import opened Softmax
  import opened AttentionKernels

  const Lanes: nat := 32
  const Warps: nat := 16

  // ---- the butterfly sum ----

  function Total(v: seq<real>, n: nat): real
    requires n <= |v|
  {
    if n == 0 then 0.0 else Total(v, n - 1) + v[n - 1]
  }

  /** The sum of the lanes below `n` whose index is `r` modulo `k`. */
  ghost function SumMod(v: seq<real>, n: nat, k: nat, r: nat): real
    requires n <= |v| && k > 0
  {
    if n == 0 then 0.0 else SumMod(v, n - 1, k, r) + if (n - 1) % k == r then v[n - 1] else 0.0
  }

  /** The lane whose index differs from `i` in exactly the bit `off`. */
  function Partner(i: nat, off: nat): nat
    requires off > 0
  {
    if (i / off) % 2 == 0 then i + off else if i >= off then i - off else 0
  }

  lemma MulMono(a: nat, b: nat, k: nat)
    requires a <= b
    ensures a * k <= b * k
  {
  }

  /** A multiple of `k` above `i` is above the end of `i`'s class. */
  lemma ClassBelow(i: nat, k: nat, n: nat)
    requires k > 0 && i < n && n % k == 0
    ensures i - i % k + k <= n
  {
    var q, m := i / k, n / k;
    assert i == q * k + i % k && n == m * k;
    if q >= m {
      MulMono(m, q, k);
    }
    MulMono(q + 1, m, k);
    assert (q + 1) * k == q * k + k;
  }

  /** Moving within one class changes the remainder by as much. */
  lemma MoveMod(i: nat, k: nat, r: nat)
    requires k > 0 && r < k
    ensures (i - i % k + r) % k == r
  {
    var q := i / k;
    assert i == q * k + i % k;
    DivUnique(k, q * k + r, q, r);
  }

  /** `(base + r) % k` for a multiple `base` of `k`. */
  lemma MoveTo(i: nat, k: nat, j: nat, r: nat)
    requires k > 0 && r < k && j == i - i % k + r
    ensures j % k == r
  {
    MoveMod(i, k, r);
  }

  lemma PartnerMod(i: nat, off: nat, k: nat, n: nat)
    requires off > 0 && k == off + off && i < n && n % k == 0
    ensures Partner(i, off) < n
    ensures i % k < off ==> Partner(i, off) % k == i % k + off && i % off == i % k
    ensures i % k >= off ==> Partner(i, off) % k == i % k - off && i % off == i % k - off
  {
    hide Partner;
    ModLess(i, k);
    ClassBelow(i, k, n);
    HalfDiv(i, off, k);
    PartnerFrom(i, off, i % k < off);
    if i % k < off {
      MoveTo(i, k, Partner(i, off), i % k + off);
    } else {
      MoveTo(i, k, Partner(i, off), i % k - off);
    }
  }

  lemma PartnerFrom(i: nat, off: nat, lower: bool)
    requires off > 0 && (lower ==> (i / off) % 2 == 0) && (!lower ==> (i / off) % 2 == 1)
    ensures Partner(i, off) == if lower then i + off else if i >= off then i - off else 0
  {
  }

  lemma {:induction false} SumModHalf(v: seq<real>, n: nat, off: nat, r: nat)
    requires n <= |v| && off > 0 && r < off
    ensures SumMod(v, n, off, r) == SumMod(v, n, 2 * off, r) + SumMod(v, n, 2 * off, r + off)
  {
    if n > 0 {
      SumModHalf(v, n - 1, off, r);
      HalfStride(n - 1, off, 2 * off, r);
    }
  }

  lemma {:induction false} SumModBelow(v: seq<real>, n: nat, k: nat, r: nat)
    requires n <= |v| && n <= k && r < k
    ensures SumMod(v, n, k, r) == if r < n then v[r] else 0.0
  {
    if n > 0 {
      SumModBelow(v, n - 1, k, r);
      DivUnique(k, n - 1, 0, n - 1);
    }
  }

  lemma {:induction false} SumModOne(v: seq<real>, n: nat)
    requires n <= |v|
    ensures SumMod(v, n, 1, 0) == Total(v, n)
  {
    if n > 0 {
      SumModOne(v, n - 1);
    }
  }

  lemma DividesHalf(n: nat, k: nat)
    requires k > 0 && k % 2 == 0 && n % k == 0
    ensures n % (k / 2) == 0
  {
    var m, s := n / k, k / 2;
    assert n == m * k && k == 2 * s;
    assert n == (2 * m) * s;
    DivUnique(s, n, 2 * m, 0);
  }

  ghost predicate LanesHold(v: seq<real>, r: seq<real>, k: nat) {
    k > 0 && |r| == |v| && forall i {:trigger r[i]} :: 0 <= i < |v| ==> r[i] == SumMod(v, |v|, k, i % k)
  }

  /** What lane `i` holds after adding its partner's value. */
  function WithPartner(r: seq<real>, off: nat, i: nat): real
    requires off > 0 && i < |r|
  {
    r[i] + if Partner(i, off) < |r| then r[Partner(i, off)] else 0.0
  }

  /** After the exchange with partners at distance `off`, each lane holds the sum over its class modulo `off`. */
  lemma Exchange(v: seq<real>, r: seq<real>, r1: seq<real>, off: nat)
    requires off > 0 && |v| % (2 * off) == 0 && LanesHold(v, r, 2 * off) && |r1| == |r|
    requires forall i :: 0 <= i < |r| ==> r1[i] == WithPartner(r, off, i)
    ensures LanesHold(v, r1, off)
  {
    hide Partner, SumMod;
    forall i | 0 <= i < |r1| ensures r1[i] == SumMod(v, |v|, off, i % off) {
      PartnerMod(i, off, 2 * off, |v|);
      SumModHalf(v, |v|, off, i % off);
    }
  }

  /** Sum across a warp, leaving the total in every lane. */
  method WarpAllSum(v: seq<real>) returns (r: seq<real>)
    requires PowerOfTwo(|v|)
    ensures |r| == |v| && forall i :: 0 <= i < |v| ==> r[i] == Total(v, |v|)
  {
    hide Partner, SumMod, LanesHold;
    r := v;
    var off := |v| / 2;
    ghost var k: nat := |v|;
    LanesStart(v);
    while off > 0
      invariant PowerOfTwo(k) && off == k / 2 && |v| % k == 0 && |r| == |v| && LanesHold(v, r, k)
    {
      DividesHalf(|v|, k);
      var r1 := ExchangeLanes(r, off);
      Exchange(v, r, r1, off);
      r := r1;
      k := off;
      off := off / 2;
    }
    LanesEnd(v, r);
  }

  method ExchangeLanes(r: seq<real>, off: nat) returns (r1: seq<real>)
    requires off > 0 && |r| % (2 * off) == 0
    ensures |r1| == |r| && forall i :: 0 <= i < |r| ==> r1[i] == WithPartner(r, off, i)
  {
    hide Partner;
    r1 := [];
    for i := 0 to |r|
      invariant |r1| == i && forall j :: 0 <= j < i ==> r1[j] == WithPartner(r, off, j)
    {
      PartnerMod(i, off, 2 * off, |r|);
      var v := r[i] + r[Partner(i, off)];
      assert v == WithPartner(r, off, i);
      r1 := r1 + [v];
    }
  }

  lemma LanesStart(v: seq<real>)
    requires |v| > 0
    ensures LanesHold(v, v, |v|) && |v| % |v| == 0
  {
    DivUnique(|v|, |v|, 1, 0);
    forall i | 0 <= i < |v| ensures v[i] == SumMod(v, |v|, |v|, i % |v|) {
      DivUnique(|v|, i, 0, i);
      SumModBelow(v, |v|, |v|, i);
    }
  }

  lemma LanesEnd(v: seq<real>, r: seq<real>)
    requires LanesHold(v, r, 1)
    ensures |r| == |v| && forall i :: 0 <= i < |v| ==> r[i] == Total(v, |v|)
  {
    SumModOne(v, |v|);
  }

  // ---- one score, shared by the lanes of a warp ----

  /** Each lane multiplies the dimensions it owns; the lanes' sum is the whole dot product. */
  method SharedScore(x: PagedHead, p: nat) returns (s: real)
    requires x.blockSize > 0 && |x.q| == x.dim && x.dim % Lanes == 0
    ensures s == HeadOf(x).score(p)
  {
    hide Dot, Span;
    var dpl := x.dim / Lanes;
    SpanIsMul(dpl, Lanes);
    var dots: seq<real> := [];
    NoDims(x, p);
    SpanIsMul(dpl, 0);
    for lane := 0 to Lanes
      invariant |dots| == lane && Total(dots, lane) == Dot(x, p, Span(dpl, lane))
    {
      LaneFits(dpl, lane);
      var from := lane * dpl;
      var dot := LaneDot(x, p, from, dpl);
      TotalAppend(dots, dot);
      dots := dots + [dot];
    }
    WarpSize();
    var sums := WarpAllSum(dots);
    s := sums[0] * x.scale;
  }

  /** The dimensions of one lane. */
  method LaneDot(x: PagedHead, p: nat, from: nat, dpl: nat) returns (dot: real)
    requires x.blockSize > 0 && from + dpl <= |x.q|
    ensures dot == Dot(x, p, from + dpl) - Dot(x, p, from)
  {
    hide Dot;
    dot := 0.0;
    for d := 0 to dpl
      invariant dot == Dot(x, p, from + d) - Dot(x, p, from)
    {
      NextDim(x, p, from + d);
      dot := dot + x.q[from + d] * Fetch(x.keys, SlotAt(x, p), x.kvHead, from + d);
    }
  }

  lemma LaneFits(dpl: nat, lane: nat)
    requires lane < Lanes
    ensures Span(dpl, lane) == lane * dpl && Span(dpl, lane + 1) == Span(dpl, lane) + dpl <= Span(dpl, Lanes)
  {
    SpanIsMul(dpl, lane);
    SpanIsMul(dpl, lane + 1);
    SpanIsMul(dpl, Lanes);
    MulMono(lane + 1, Lanes, dpl);
  }

  lemma WarpSize()
    ensures PowerOfTwo(Lanes)
  {
    assert PowerOfTwo(1);
    assert PowerOfTwo(2);
    assert PowerOfTwo(4);
    assert PowerOfTwo(8);
    assert PowerOfTwo(16);
  }

  lemma NoDims(x: PagedHead, p: nat)
    ensures Dot(x, p, 0) == 0.0
  {
  }

  lemma NextDim(x: PagedHead, p: nat, k: nat)
    requires x.blockSize > 0 && k < |x.q|
    ensures Dot(x, p, k + 1) == Dot(x, p, k) + x.q[k] * Fetch(x.keys, SlotAt(x, p), x.kvHead, k)
  {
  }

  lemma TotalAppend(v: seq<real>, e: real)
    ensures Total(v + [e], |v| + 1) == Total(v, |v|) + e
  {
    TotalPrefix(v, v + [e], |v|);
  }

  lemma {:induction false} TotalPrefix(v: seq<real>, v1: seq<real>, n: nat)
    requires n <= |v| && v <= v1
    ensures Total(v1, n) == Total(v, n)
  {
    if n > 0 {
      TotalPrefix(v, v1, n - 1);
    }
  }

  // ---- the kernel ----

  /** The query heads of one KV head. */
  datatype Group = Group(shared: PagedHead, queries: seq<seq<real>>)

  function Member(g: Group, h: nat): PagedHead
    requires h < |g.queries|
  {
    g.shared.(q := g.queries[h])
  }

  ghost predicate GroupReady(g: Group, pos: nat) {
    g.shared.dim % Lanes == 0 && forall h :: 0 <= h < |g.queries| ==> Ready(Member(g, h), pos)
  }

  ghost predicate AllSummarise(g: Group, pos: nat, parts: seq<Partial>, s: set<nat>) {
    |parts| == |g.queries| && forall h {:trigger parts[h]} :: 0 <= h < |parts| ==> Summarises(HeadOf(Member(g, h)), parts[h], s, pos + 1)
  }

  /** One warp: at each of its positions, update every head of the group. */
  method WarpWalk(g: Group, pos: nat, r: nat) returns (parts: seq<Partial>)
    requires GroupReady(g, pos) && r < Warps
    ensures AllSummarise(g, pos, parts, Strided(pos, Warps, r))
  {
    hide GroupReady, AllSummarise, Strided;
    parts := seq(|g.queries|, h requires 0 <= h < |g.queries| => NoPositions(HeadOf(Member(g, h))));
    NoneYet(g, pos, parts);
    ghost var done: set<nat> := {};
    var p := r;
    WalkStart(pos, Warps, r);
    while p <= pos
      invariant p % Warps == r && AllSummarise(g, pos, parts, done) && Walked(pos, Warps, r, p, done)
      decreases pos + Warps - p
    {
      WalkStep(pos, r, p, done);
      parts := UpdateGroup(g, pos, parts, done, p);
      done := done + {p};
      p := p + Warps;
    }
    WalkEnd(pos, Warps, r, p, done);
  }

  lemma NoneYet(g: Group, pos: nat, parts: seq<Partial>)
    requires |parts| == |g.queries| && forall h :: 0 <= h < |parts| ==> parts[h] == NoPositions(HeadOf(Member(g, h)))
    ensures AllSummarise(g, pos, parts, {})
  {
    hide Summarises;
    forall h | 0 <= h < |parts| ensures Summarises(HeadOf(Member(g, h)), parts[h], {}, pos + 1) {
      EmptySummarises(HeadOf(Member(g, h)), pos + 1);
    }
  }

  lemma WalkStep(pos: nat, r: nat, p: nat, done: set<nat>)
    requires p <= pos && p % Warps == r && Walked(pos, Warps, r, p, done)
    ensures p !in done && (p + Warps) % Warps == r && Walked(pos, Warps, r, p + Warps, done + {p})
  {
    NextMultiple(p, Warps, r);
    forall i: nat ensures i in done + {p} <==> i in Strided(pos, Warps, r) && i < p + Warps {
      assert i in done <==> i in Strided(pos, Warps, r) && i < p;
    }
  }

  method UpdateGroup(g: Group, pos: nat, parts: seq<Partial>, ghost done: set<nat>, p: nat) returns (parts1: seq<Partial>)
    requires GroupReady(g, pos) && AllSummarise(g, pos, parts, done) && p <= pos && p !in done
    ensures AllSummarise(g, pos, parts1, done + {p})
  {
    hide Summarises, Ready, Strided, Dot;
    parts1 := [];
    for h := 0 to |g.queries|
      invariant |parts1| == h && forall k {:trigger parts1[k]} :: 0 <= k < h ==> Summarises(HeadOf(Member(g, k)), parts1[k], done + {p}, pos + 1)
    {
      var x := Member(g, h);
      UpdateOne(x, pos, parts[h], done, p);
      var s := SharedScore(x, p);
      var part := UpdateRow(x, parts[h], p, s);
      parts1 := parts1 + [part];
    }
  }

  lemma UpdateOne(x: PagedHead, pos: nat, part: Partial, done: set<nat>, p: nat)
    requires Ready(x, pos) && p <= pos && p !in done && Summarises(HeadOf(x), part, done, pos + 1)
    ensures x.blockSize > 0 && |x.q| == x.dim == |part.acc| && Summarises(HeadOf(x), Update(HeadOf(x), part, p), done + {p}, pos + 1)
  {
    hide Dot, Summarises;
    SummaryShape(HeadOf(x), part, done, pos + 1);
    UpdateSummarises(HeadOf(x), part, done, p, pos + 1);
  }

  /** The positions of the first `w` warps. */
  ghost function SeenBy(pos: nat, w: nat): set<nat> {
    set p | p in Range(pos + 1) && p % Warps < w
  }

  lemma SeenNext(pos: nat, w: nat)
    ensures SeenBy(pos, w) !! Strided(pos, Warps, w) && SeenBy(pos, w + 1) == SeenBy(pos, w) + Strided(pos, Warps, w)
  {
  }

  lemma SeenAll(pos: nat)
    ensures SeenBy(pos, 0) == {} && SeenBy(pos, Warps) == Upto(pos)
  {
  }

  /** Merge the warps' partials of one head, in warp order, and normalise. */
  method MergeWarps(g: Group, pos: nat, rows: seq<seq<Partial>>, h: nat) returns (out: seq<real>)
    requires GroupReady(g, pos) && h < |g.queries| && |rows| == Warps
    requires forall w {:trigger rows[w]} :: 0 <= w < Warps ==> AllSummarise(g, pos, rows[w], Strided(pos, Warps, w))
    ensures IsAttention(Member(g, h), pos, out)
  {
    hide Summarises, Ready, Strided, Dot, SeenBy, IsAttention;
    var x := Member(g, h);
    assert Ready(x, pos);
    var part := NoPositions(HeadOf(x));
    EmptySummarises(HeadOf(x), pos + 1);
    SeenAll(pos);
    for w := 0 to Warps
      invariant Summarises(HeadOf(x), part, SeenBy(pos, w), pos + 1)
    {
      assert AllSummarise(g, pos, rows[w], Strided(pos, Warps, w));
      MergeNext(x, pos, part, w, rows[w][h]);
      part := MergeRows(x, part, rows[w][h]);
    }
    out := Normalise(x, pos, part);
  }

  lemma MergeNext(x: PagedHead, pos: nat, a: Partial, w: nat, b: Partial)
    requires Ready(x, pos) && Summarises(HeadOf(x), a, SeenBy(pos, w), pos + 1) && Summarises(HeadOf(x), b, Strided(pos, Warps, w), pos + 1)
    ensures |a.acc| == |b.acc| == x.dim && Summarises(HeadOf(x), Merge(HeadOf(x), a, b), SeenBy(pos, w + 1), pos + 1)
  {
    hide Dot, Summarises, SeenBy, Strided;
    SummaryShape(HeadOf(x), a, SeenBy(pos, w), pos + 1);
    SummaryShape(HeadOf(x), b, Strided(pos, Warps, w), pos + 1);
    SeenNext(pos, w);
    MergeSummarises(HeadOf(x), a, SeenBy(pos, w), b, Strided(pos, Warps, w), pos + 1);
  }

  /** Every head of the group gets its attention output. */
  method AttentionDecodeGqa(g: Group, pos: nat) returns (outs: seq<seq<real>>)
    requires GroupReady(g, pos)
    ensures |outs| == |g.queries| && forall h :: 0 <= h < |outs| ==> IsAttention(Member(g, h), pos, outs[h])
  {
    hide GroupReady, AllSummarise, Strided, IsAttention;
    var rows: seq<seq<Partial>> := [];
    for w := 0 to Warps
      invariant |rows| == w && forall k {:trigger rows[k]} :: 0 <= k < w ==> AllSummarise(g, pos, rows[k], Strided(pos, Warps, k))
    {
      var parts := WarpWalk(g, pos, w);
      rows := rows + [parts];
    }
    outs := [];
    for h := 0 to |g.queries|
      invariant |outs| == h && forall k :: 0 <= k < h ==> IsAttention(Member(g, k), pos, outs[k])
    {
      var out := MergeWarps(g, pos, rows, h);
      outs := outs + [out];
    }
  }

  /** Query head kv * group + h belongs to KV head kv, and every query head has exactly one such name. */
  lemma HeadNames(group: nat, head: nat, kv: nat, h: nat)
    requires group > 0 && h < group
    ensures head == kv * group + h <==> kv == head / group && h == head % group
  {
    if head == kv * group + h { DivUnique(group, head, kv, h); }
  }

  /** The kernels and the reference agree: the output is determined. */
  lemma OneAttention(x: PagedHead, pos: nat, a: seq<real>, b: seq<real>)
    requires IsAttention(x, pos, a) && IsAttention(x, pos, b)
    ensures a == b
  {
    assert forall d :: 0 <= d < x.dim ==> a[d] == b[d];
  }
}
