/**
 Online softmax in exact arithmetic. A partial result is a running maximum, a running sum of weights
 and a running weighted sum of values; it summarises a set of positions, and updating and merging
 partials summarises the union, whatever the grouping. `exp` is any positive function that turns sums
 into products.
 */
module Softmax {
  import opened Lists

  /** One attention head over one history: the score and the value components of each position. */
  datatype Head = Head(exp: real -> real, score: nat -> real, value: (nat, nat) -> real, dim: nat, lowest: real)

  ghost predicate Adds(e: real -> real, x: real, y: real) {
    e(x + y) == e(x) * e(y)
  }

  ghost predicate IsExp(e: real -> real) {
    (forall x :: e(x) > 0.0) && (forall x, y :: Adds(e, x, y))
  }

  /** `lowest` is below every score that occurs. */
  ghost predicate Above(h: Head, pos: nat) {
    IsExp(h.exp) && forall p: nat :: p <= pos ==> h.score(p) > h.lowest
  }

  /** Column 0 counts weights; column `d + 1` is component `d` of the value. */
  function Column(h: Head, p: nat, col: nat): real {
    if col == 0 then 1.0 else h.value(p, col - 1)
  }

  function Weight(h: Head, p: nat, m: real): real {
    h.exp(h.score(p) - m)
  }

  /** The weighted sum of a column over the positions of `s` below `n`, with scores relative to `m`. */
  ghost function Sum(h: Head, s: set<nat>, n: nat, m: real, col: nat): real {
    if n == 0 then 0.0
    else Sum(h, s, n - 1, m, col) + if n - 1 in s then Weight(h, n - 1, m) * Column(h, n - 1, col) else 0.0
  }

  ghost function Upto(pos: nat): set<nat> {
    Range(pos + 1)
  }

  /** The softmax-weighted value, with no maximum subtracted. */
  ghost function Attention(h: Head, pos: nat, d: nat): real
    requires Sum(h, Upto(pos), pos + 1, 0.0, 0) != 0.0
  {
    Sum(h, Upto(pos), pos + 1, 0.0, d + 1) / Sum(h, Upto(pos), pos + 1, 0.0, 0)
  }

  // ---- sums ----

  lemma Distribute(a: real, b: real, c: real)
    ensures (a + b) * c == a * c + b * c
  {
  }

  lemma Regroup(a: real, b: real, c: real)
    ensures a * b * c == a * c * b
  {
    assert a * b * c == a * (b * c);
    assert a * c * b == a * (c * b);
    assert b * c == c * b;
  }

  lemma Shift(h: Head, p: nat, m: real, m1: real)
    requires IsExp(h.exp)
    ensures Weight(h, p, m1) == Weight(h, p, m) * h.exp(m - m1)
  {
    assert Adds(h.exp, h.score(p) - m, m - m1);
    assert (h.score(p) - m) + (m - m1) == h.score(p) - m1;
  }

  /** Changing the reference score scales every sum by the same factor. */
  lemma {:induction false} SumShift(h: Head, s: set<nat>, n: nat, m: real, m1: real, col: nat)
    requires IsExp(h.exp)
    ensures Sum(h, s, n, m1, col) == Sum(h, s, n, m, col) * h.exp(m - m1)
  {
    hide IsExp, Weight, Column;
    if n > 0 {
      SumShift(h, s, n - 1, m, m1, col);
      ShiftTerm(h, n - 1, m, m1, col);
      var term := if n - 1 in s then Weight(h, n - 1, m) * Column(h, n - 1, col) else 0.0;
      Distribute(Sum(h, s, n - 1, m, col), term, h.exp(m - m1));
    }
  }

  lemma ShiftTerm(h: Head, p: nat, m: real, m1: real, col: nat)
    requires IsExp(h.exp)
    ensures Weight(h, p, m1) * Column(h, p, col) == (Weight(h, p, m) * Column(h, p, col)) * h.exp(m - m1)
  {
    hide IsExp, Weight, Column;
    Shift(h, p, m, m1);
    Regroup(Weight(h, p, m), h.exp(m - m1), Column(h, p, col));
  }

  lemma {:induction false} SumUnion(h: Head, a: set<nat>, b: set<nat>, n: nat, m: real, col: nat)
    requires a !! b
    ensures Sum(h, a + b, n, m, col) == Sum(h, a, n, m, col) + Sum(h, b, n, m, col)
  {
    if n > 0 {
      SumUnion(h, a, b, n - 1, m, col);
    }
  }

  lemma {:induction false} SumNone(h: Head, s: set<nat>, n: nat, m: real, col: nat)
    requires forall p :: p in s ==> p >= n
    ensures Sum(h, s, n, m, col) == 0.0
  {
    if n > 0 {
      SumNone(h, s, n - 1, m, col);
    }
  }

  lemma {:induction false} SumOne(h: Head, p: nat, n: nat, m: real, col: nat)
    requires p < n
    ensures Sum(h, {p}, n, m, col) == Weight(h, p, m) * Column(h, p, col)
  {
    if p < n - 1 {
      SumOne(h, p, n - 1, m, col);
    } else {
      SumNone(h, {p}, n - 1, m, col);
    }
  }

  lemma {:induction false} SumPositive(h: Head, s: set<nat>, n: nat, m: real)
    requires IsExp(h.exp)
    ensures Sum(h, s, n, m, 0) >= 0.0
    ensures (exists p :: p in s && p < n) ==> Sum(h, s, n, m, 0) > 0.0
  {
    if n > 0 {
      SumPositive(h, s, n - 1, m);
      if exists p :: p in s && p < n {
        var p :| p in s && p < n;
        assert p < n - 1 || p == n - 1;
      }
    }
  }

  /** Heads that agree on the positions below `n`. */
  ghost predicate AgreeBelow(h: Head, h1: Head, n: nat) {
    && h.exp == h1.exp && h.dim == h1.dim && h.lowest == h1.lowest
    && (forall p: nat :: p < n ==> h.score(p) == h1.score(p))
    && (forall p: nat, d: nat :: p < n ==> h.value(p, d) == h1.value(p, d))
  }

  lemma {:induction false} SumAgrees(h: Head, h1: Head, s: set<nat>, n: nat, m: real, col: nat)
    requires AgreeBelow(h, h1, n)
    ensures Sum(h, s, n, m, col) == Sum(h1, s, n, m, col)
  {
    if n > 0 {
      SumAgrees(h, h1, s, n - 1, m, col);
    }
  }

  // ---- partial results ----

  datatype Partial = Partial(m: real, l: real, acc: seq<real>)

  function Zeros(n: nat): (r: seq<real>)
    ensures |r| == n && forall d :: 0 <= d < n ==> r[d] == 0.0
  {
    seq(n, _ => 0.0)
  }

  function NoPositions(h: Head): Partial {
    Partial(h.lowest, 0.0, Zeros(h.dim))
  }

  ghost predicate IsMax(h: Head, s: set<nat>, m: real) {
    if s == {} then m == h.lowest else (exists p :: p in s && h.score(p) == m) && forall p :: p in s ==> h.score(p) <= m
  }

  ghost predicate Summarises(h: Head, part: Partial, s: set<nat>, n: nat) {
    && (forall p :: p in s ==> p < n && h.score(p) > h.lowest)
    && IsMax(h, s, part.m)
    && |part.acc| == h.dim
    && part.l == Sum(h, s, n, part.m, 0)
    && (forall d :: 0 <= d < h.dim ==> part.acc[d] == Sum(h, s, n, part.m, d + 1))
  }

  function Scale(h: Head, m: real, m1: real): real {
    if m == h.lowest then 0.0 else h.exp(m - m1)
  }

  function MaxOf(a: real, b: real): real {
    if a >= b then a else b
  }

  function Blend(a: real, ca: real, b: real, cb: real): real {
    a * ca + b * cb
  }

  function Accrue(l: real, ca: real, w: real): real {
    l * ca + w
  }

  function Mix(a: seq<real>, ca: real, b: seq<real>, cb: real): (r: seq<real>)
    requires |a| == |b|
    ensures |r| == |a| && forall d :: 0 <= d < |a| ==> r[d] == Blend(a[d], ca, b[d], cb)
  {
    seq(|a|, d requires 0 <= d < |a| => Blend(a[d], ca, b[d], cb))
  }

  /** The pairwise merge. */
  function Merge(h: Head, a: Partial, b: Partial): (r: Partial)
    requires |a.acc| == |b.acc|
    ensures |r.acc| == |a.acc|
  {
    var m := MaxOf(a.m, b.m);
    var ca, cb := Scale(h, a.m, m), Scale(h, b.m, m);
    Partial(m, Blend(a.l, ca, b.l, cb), Mix(a.acc, ca, b.acc, cb))
  }

  /** Rescaling a summary to a later maximum. */
  lemma Rescaled(h: Head, s: set<nat>, n: nat, m: real, m1: real, x: real, col: nat)
    requires IsExp(h.exp) && IsMax(h, s, m) && x == Sum(h, s, n, m, col) && forall p :: p in s ==> h.score(p) > h.lowest
    ensures x * Scale(h, m, m1) == Sum(h, s, n, m1, col)
  {
    if s == {} {
      SumNone(h, s, n, m1, col);
    } else {
      SumShift(h, s, n, m, m1, col);
    }
  }

  lemma MaxUnion(h: Head, a: set<nat>, b: set<nat>, ma: real, mb: real)
    requires IsMax(h, a, ma) && IsMax(h, b, mb) && forall p :: p in a || p in b ==> h.score(p) > h.lowest
    ensures IsMax(h, a + b, MaxOf(ma, mb))
  {
    if a == {} {
      assert a + b == b;
    } else if b == {} {
      assert a + b == a;
    } else {
      var pa :| pa in a && h.score(pa) == ma;
      var pb :| pb in b && h.score(pb) == mb;
      assert pa in a + b && pb in a + b;
    }
  }

  /** Merging summarises the union; an empty partial is neutral. */
  lemma MergeSummarises(h: Head, x: Partial, a: set<nat>, y: Partial, b: set<nat>, n: nat)
    requires IsExp(h.exp) && a !! b && Summarises(h, x, a, n) && Summarises(h, y, b, n)
    ensures Summarises(h, Merge(h, x, y), a + b, n)
  {
    hide IsExp, Sum, IsMax, Blend, Scale;
    var r := Merge(h, x, y);
    MaxUnion(h, a, b, x.m, y.m);
    Rescaled(h, a, n, x.m, r.m, x.l, 0);
    Rescaled(h, b, n, y.m, r.m, y.l, 0);
    SumUnion(h, a, b, n, r.m, 0);
    var ca, cb := Scale(h, x.m, r.m), Scale(h, y.m, r.m);
    BlendIs(x.l, ca, y.l, cb, Sum(h, a, n, r.m, 0), Sum(h, b, n, r.m, 0));
    forall d | 0 <= d < h.dim ensures r.acc[d] == Sum(h, a + b, n, r.m, d + 1) {
      Rescaled(h, a, n, x.m, r.m, x.acc[d], d + 1);
      Rescaled(h, b, n, y.m, r.m, y.acc[d], d + 1);
      SumUnion(h, a, b, n, r.m, d + 1);
      BlendIs(x.acc[d], ca, y.acc[d], cb, Sum(h, a, n, r.m, d + 1), Sum(h, b, n, r.m, d + 1));
    }
  }

  /** The online update with one more position. */
  function Update(h: Head, x: Partial, p: nat): (r: Partial)
    requires |x.acc| == h.dim
    ensures |r.acc| == h.dim
  {
    var m := MaxOf(x.m, h.score(p));
    var ca, w := Scale(h, x.m, m), Weight(h, p, m);
    Partial(m, Accrue(x.l, ca, w), seq(h.dim, d requires 0 <= d < h.dim => Blend(x.acc[d], ca, w, h.value(p, d))))
  }

  lemma UpdateSummarises(h: Head, x: Partial, a: set<nat>, p: nat, n: nat)
    requires IsExp(h.exp) && p !in a && p < n && h.score(p) > h.lowest && Summarises(h, x, a, n)
    ensures Summarises(h, Update(h, x, p), a + {p}, n)
  {
    hide IsExp, Sum, Blend, Accrue, Scale, Weight, IsMax;
    var r := Update(h, x, p);
    OneIsMax(h, p);
    MaxUnion(h, a, {p}, x.m, h.score(p));
    var ca, w := Scale(h, x.m, r.m), Weight(h, p, r.m);
    Rescaled(h, a, n, x.m, r.m, x.l, 0);
    SumUnion(h, a, {p}, n, r.m, 0);
    SumOne(h, p, n, r.m, 0);
    AccrueIs(x.l, ca, w, Sum(h, a, n, r.m, 0));
    forall d | 0 <= d < h.dim ensures r.acc[d] == Sum(h, a + {p}, n, r.m, d + 1) {
      Rescaled(h, a, n, x.m, r.m, x.acc[d], d + 1);
      SumUnion(h, a, {p}, n, r.m, d + 1);
      SumOne(h, p, n, r.m, d + 1);
      BlendIs(x.acc[d], ca, w, h.value(p, d), Sum(h, a, n, r.m, d + 1), Sum(h, {p}, n, r.m, d + 1));
    }
  }

  lemma OneIsMax(h: Head, p: nat)
    ensures IsMax(h, {p}, h.score(p))
  {
    assert p in {p};
  }

  lemma BlendIs(a: real, ca: real, b: real, cb: real, x: real, y: real)
    requires a * ca == x && b * cb == y
    ensures Blend(a, ca, b, cb) == x + y
  {
  }

  lemma AccrueIs(l: real, ca: real, w: real, x: real)
    requires l * ca == x
    ensures Accrue(l, ca, w) == x + w && w * 1.0 == w
  {
  }

  lemma EmptySummarises(h: Head, n: nat)
    ensures Summarises(h, NoPositions(h), {}, n)
  {
    SumNone(h, {}, n, h.lowest, 0);
    forall d | 0 <= d < h.dim ensures NoPositions(h).acc[d] == Sum(h, {}, n, h.lowest, d + 1) {
      SumNone(h, {}, n, h.lowest, d + 1);
    }
  }

  lemma Cancel(a: real, b: real, k: real)
    requires b != 0.0 && k != 0.0
    ensures b * k != 0.0 && (a * k) / (b * k) == a / b
  {
    assert b * k != 0.0;
    var q := a / b;
    assert q * b == a;
    assert q * (b * k) == (q * b) * k;
    Quotient(a * k, b * k, q);
  }

  lemma Quotient(x: real, y: real, q: real)
    requires y != 0.0 && q * y == x
    ensures x / y == q
  {
  }

  lemma TotalPositive(h: Head, pos: nat, m: real)
    requires IsExp(h.exp)
    ensures Sum(h, Upto(pos), pos + 1, m, 0) > 0.0
  {
    SumPositive(h, Upto(pos), pos + 1, m);
    assert 0 in Upto(pos) && 0 < pos + 1;
  }

  /** The quotient of two sums does not depend on the score that was subtracted. */
  lemma SumQuotient(h: Head, pos: nat, m: real, d: nat)
    requires IsExp(h.exp)
    ensures Sum(h, Upto(pos), pos + 1, m, 0) > 0.0 && Sum(h, Upto(pos), pos + 1, 0.0, 0) != 0.0
    ensures Sum(h, Upto(pos), pos + 1, m, d + 1) / Sum(h, Upto(pos), pos + 1, m, 0) == Attention(h, pos, d)
  {
    TotalPositive(h, pos, m);
    TotalPositive(h, pos, 0.0);
    SumShift(h, Upto(pos), pos + 1, 0.0, m, 0);
    SumShift(h, Upto(pos), pos + 1, 0.0, m, d + 1);
    Cancel(Sum(h, Upto(pos), pos + 1, 0.0, d + 1), Sum(h, Upto(pos), pos + 1, 0.0, 0), h.exp(0.0 - m));
  }

  /** Normalising a summary of the whole history gives the attention output. */
  lemma Normalised(h: Head, pos: nat, x: Partial, d: nat)
    requires IsExp(h.exp) && Summarises(h, x, Upto(pos), pos + 1) && d < h.dim
    ensures x.l > 0.0 && Sum(h, Upto(pos), pos + 1, 0.0, 0) != 0.0
    ensures x.acc[d] * (1.0 / x.l) == Attention(h, pos, d)
  {
    hide Sum;
    SumQuotient(h, pos, x.m, d);
    assert x.acc[d] * (1.0 / x.l) == x.acc[d] / x.l;
  }
}
