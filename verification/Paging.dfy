/**
 Block arithmetic. `Span`, `Quot` and `Rem` are multiplication, division and remainder by the
 block size, defined by repeated addition so that the proofs above never meet a non-linear term;
 the first lemmas tie them to the operators the program uses.
 */
module Paging {

  /** `k * bs` */
  function Span(bs: nat, k: nat): nat {
    if k == 0 then 0 else Span(bs, k - 1) + bs
  }

  /** `p / bs` */
  function Quot(bs: nat, p: nat): nat
    requires bs > 0
  {
    if p < bs then 0 else 1 + Quot(bs, p - bs)
  }

  /** `p % bs` */
  function Rem(bs: nat, p: nat): nat
    requires bs > 0
  {
    if p < bs then p else Rem(bs, p - bs)
  }

  lemma {:induction false} SpanIsMul(bs: nat, k: nat)
    ensures Span(bs, k) == k * bs
  {
    if k > 0 {
      SpanIsMul(bs, k - 1);
    }
  }

  lemma QuotIsDiv(bs: nat, p: nat)
    requires bs > 0
    ensures Quot(bs, p) == p / bs && Rem(bs, p) == p % bs
  {
    QuotRem(bs, p);
    SpanIsMul(bs, Quot(bs, p));
    var q, r := Quot(bs, p), Rem(bs, p);
    assert p == q * bs + r;
    DivUnique(bs, p, q, r);
  }

  lemma DivUnique(m: nat, p: nat, q: nat, r: nat)
    requires m > 0 && p == q * m + r && r < m
    ensures p / m == q && p % m == r
  {
    var d := p / m - q;
    assert p == (p / m) * m + p % m;
    assert d * m == r - p % m;
    assert d >= 1 ==> d * m >= m;
    assert d <= -1 ==> d * m <= (-1) * m;
  }

  lemma {:induction false} QuotRem(bs: nat, p: nat)
    requires bs > 0
    ensures Rem(bs, p) < bs
    ensures p == Span(bs, Quot(bs, p)) + Rem(bs, p)
  {
    if p >= bs {
      QuotRem(bs, p - bs);
    }
  }

  lemma {:induction false} SpanMono(bs: nat, a: nat, b: nat)
    requires bs > 0 && a <= b
    ensures Span(bs, a) <= Span(bs, b)
    ensures a < b ==> Span(bs, a) + bs <= Span(bs, b)
  {
    if a < b {
      SpanMono(bs, a, b - 1);
    }
  }

  lemma SpanUnique(bs: nat, a: nat, x: nat, b: nat, y: nat)
    requires bs > 0 && x < bs && y < bs && Span(bs, a) + x == Span(bs, b) + y
    ensures a == b && x == y
  {
    if a < b { SpanMono(bs, a, b); } else if b < a { SpanMono(bs, b, a); }
  }

  /** Position `p` lies in block `k` at offset `o` exactly when the program's division says so. */
  lemma QuotUnique(bs: nat, p: nat, k: nat, o: nat)
    requires bs > 0 && o < bs && p == Span(bs, k) + o
    ensures Quot(bs, p) == k && Rem(bs, p) == o
  {
    QuotRem(bs, p);
    SpanUnique(bs, k, o, Quot(bs, p), Rem(bs, p));
  }

  /** `q` full blocks fit in `p` positions exactly when `q <= p / bs`. */
  lemma FullBlocks(bs: nat, p: nat, q: nat)
    requires bs > 0
    ensures q <= Quot(bs, p) <==> Span(bs, q) <= p
  {
    QuotRem(bs, p);
    if q <= Quot(bs, p) { SpanMono(bs, q, Quot(bs, p)); } else { SpanMono(bs, Quot(bs, p), q); }
  }

  /** Blocks needed for `n` positions. */
  function BlocksFor(bs: nat, n: nat): nat
    requires bs > 0
  {
    Quot(bs, n + bs - 1)
  }

  lemma BlocksForIsDiv(bs: nat, n: nat)
    requires bs > 0
    ensures BlocksFor(bs, n) == (n + bs - 1) / bs
  {
    QuotIsDiv(bs, n + bs - 1);
  }

  /** `k` blocks hold `n` positions exactly when `k` is at least the number needed. */
  lemma BlocksForFits(bs: nat, n: nat, k: nat)
    requires bs > 0
    ensures BlocksFor(bs, n) <= k <==> n <= Span(bs, k)
  {
    FullBlocks(bs, n + bs - 1, k + 1);
  }

  // ---- halving a modulus ----

  lemma HalfRow(i: nat, off: nat, q: nat, t: nat)
    requires off > 0 && i == (2 * q) * off + t && t < off + off
    ensures t < off ==> i / off == 2 * q && i % off == t
    ensures t >= off ==> i / off == 2 * q + 1 && i % off == t - off
  {
    if t < off {
      DivUnique(off, i, 2 * q, t);
    } else {
      NextRow(q, off);
      DivUnique(off, i, 2 * q + 1, t - off);
    }
  }

  lemma NextRow(q: nat, off: nat)
    ensures (2 * q + 1) * off == (2 * q) * off + off
  {
  }

  lemma DivMod(i: nat, k: nat)
    requires k > 0
    ensures i == (i / k) * k + i % k && i % k < k
  {
  }

  lemma DoubleMul(q: nat, off: nat, k: nat)
    requires k == off + off
    ensures q * k == (2 * q) * off
  {
    assert q * k == q * off + q * off;
  }

  /** Whether `i` lies in the lower or the upper half of its class modulo `k` is the parity of `i / (k / 2)`. */
  lemma HalfDiv(i: nat, off: nat, k: nat)
    requires off > 0 && k == off + off
    ensures i % k < off ==> (i / off) % 2 == 0 && i % off == i % k
    ensures i % k >= off ==> (i / off) % 2 == 1 && i % off == i % k - off
  {
    var q, t := i / k, i % k;
    DivMod(i, k);
    DoubleMul(q, off, k);
    HalfRow(i, off, q, t);
  }

  lemma ModLess(i: nat, k: nat)
    requires k > 0
    ensures 0 <= i % k < k && i % k <= i
  {
    DivMod(i, k);
  }
}
