/**
 Nucleus sampling. The program orders only a window of the most probable tokens and widens it until the
 nucleus closes inside; it is proved to keep the same tokens, the same mass and to draw the same token
 as ordering the whole vocabulary would, for every distribution and every draw, and the nucleus has the
 fewest members of any set of tokens that reaches `topP`. Probabilities are exact.
 */
module Sampler {
  import opened Lists

  /** Descending by probability, ties broken by index. */
  predicate Precedes(probs: seq<real>, a: nat, b: nat) {
    a < |probs| && b < |probs| && (probs[a] > probs[b] || (probs[a] == probs[b] && a < b))
  }

  /** Every index below `n`, once each. */
  ghost predicate IsPerm(s: seq<nat>, n: nat) {
    |s| == n && NoDup(s) && forall i :: 0 <= i < |s| ==> s[i] < n
  }

  /** The first `k` entries are in order, and before all the others. */
  ghost predicate TopSorted(probs: seq<real>, s: seq<nat>, k: nat) {
    forall i, j :: 0 <= i < k && i < j < |s| ==> Precedes(probs, s[i], s[j])
  }

  /** The whole vocabulary in order. */
  ghost predicate IsRanking(probs: seq<real>, r: seq<nat>) {
    IsPerm(r, |probs|) && TopSorted(probs, r, |r|)
  }

  lemma {:induction false} SubsetEqual<T>(a: set<T>, b: set<T>)
    requires a <= b && |a| == |b|
    ensures a == b
  {
    if b - a != {} {
      var x :| x in b - a;
      SubsetCard(a, b - {x});
    }
  }

  lemma PermHas(s: seq<nat>, n: nat, x: nat)
    requires IsPerm(s, n) && x < n
    ensures x in s
  {
    ElemsCard(s);
    assert Elems(s) <= Range(n);
    SubsetEqual(Elems(s), Range(n));
    assert x in Elems(s);
  }

  /** However the window was ordered, it holds the beginning of the full ranking. */
  lemma {:induction false} WindowIsRanking(probs: seq<real>, s: seq<nat>, k: nat, r: seq<nat>)
    requires IsPerm(s, |probs|) && k <= |s| && TopSorted(probs, s, k) && IsRanking(probs, r)
    ensures s[..k] == r[..k]
  {
    if k > 0 {
      WindowIsRanking(probs, s, k - 1, r);
      var i := k - 1;
      forall q | 0 <= q < i ensures s[q] == r[q] {
        assert s[..i][q] == r[..i][q];
      }
      PermHas(s, |probs|, r[i]);
      PermHas(r, |probs|, s[i]);
      var j :| 0 <= j < |s| && s[j] == r[i];
      var m :| 0 <= m < |r| && r[m] == s[i];
      assert s[..k] == s[..i] + [s[i]] && r[..k] == r[..i] + [r[i]];
    }
  }

  // ---- the nucleus ----

  /** The mass of the first `j` entries. */
  function Mass(probs: seq<real>, s: seq<nat>, j: nat): real
    requires j <= |s|
  {
    if j == 0 then 0.0 else Mass(probs, s, j - 1) + if s[j - 1] < |probs| then probs[s[j - 1]] else 0.0
  }

  /** The number of entries, from `j` on, up to the one that reaches `topP`; all `k` if none does. */
  function Reach(probs: seq<real>, s: seq<nat>, topP: real, j: nat, k: nat): (r: nat)
    requires j <= k <= |s|
    ensures j <= r <= k
    decreases k - j
  {
    if j == k then k else if Mass(probs, s, j + 1) >= topP then j + 1 else Reach(probs, s, topP, j + 1, k)
  }

  function Nucleus(probs: seq<real>, r: seq<nat>, topP: real): nat {
    Reach(probs, r, topP, 0, |r|)
  }

  lemma {:induction false} MassPrefix(probs: seq<real>, s: seq<nat>, r: seq<nat>, j: nat)
    requires j <= |s| && j <= |r| && s[..j] == r[..j]
    ensures Mass(probs, s, j) == Mass(probs, r, j)
  {
    if j > 0 {
      assert s[..j][..j - 1] == s[..j - 1] && r[..j][..j - 1] == r[..j - 1];
      assert s[..j][j - 1] == r[..j][j - 1];
      MassPrefix(probs, s, r, j - 1);
    }
  }

  /** A nucleus that closes strictly inside the window is the nucleus of the whole ranking. */
  lemma {:induction false} ReachInWindow(probs: seq<real>, s: seq<nat>, k: nat, r: seq<nat>, topP: real, j: nat)
    requires j <= k <= |s| && |s| == |r| && s[..k] == r[..k]
    ensures Reach(probs, s, topP, j, k) < k || k == |r| ==> Reach(probs, s, topP, j, k) == Reach(probs, r, topP, j, |r|)
    decreases k - j
  {
    if j < k {
      assert s[..j + 1] == s[..k][..j + 1] == r[..k][..j + 1] == r[..j + 1];
      MassPrefix(probs, s, r, j + 1);
      ReachInWindow(probs, s, k, r, topP, j + 1);
    }
  }

  /** What the nucleus is: as many leading tokens as it takes to reach `topP`, all of them if that is never reached. */
  lemma NucleusIs(probs: seq<real>, r: seq<nat>, topP: real)
    requires r != []
    ensures var n := Nucleus(probs, r, topP);
            && 0 < n <= |r| && (Mass(probs, r, n) >= topP || n == |r|)
            && forall j :: 0 < j < n ==> Mass(probs, r, j) < topP
  {
    hide Mass;
    ReachIs(probs, r, topP, 0, |r|);
  }

  lemma {:induction false} ReachIs(probs: seq<real>, s: seq<nat>, topP: real, j: nat, k: nat)
    requires j < k <= |s|
    ensures var n := Reach(probs, s, topP, j, k);
            && j < n <= k && (Mass(probs, s, n) >= topP || n == k)
            && forall i :: j < i < n ==> Mass(probs, s, i) < topP
    decreases k - j
  {
    hide Mass;
    if Mass(probs, s, j + 1) < topP && j + 1 < k {
      ReachIs(probs, s, topP, j + 1, k);
    }
  }

  // ---- the draw ----

  /** Of the `keep` leading tokens, the first whose cumulated mass reaches `u`; the last of them if none does. */
  ghost predicate Drawn(probs: seq<real>, r: seq<nat>, keep: nat, u: real, token: nat)
    requires keep <= |r|
  {
    exists i: nat :: DrawnAt(probs, r, keep, u, i) && token == r[i]
  }

  ghost predicate DrawnAt(probs: seq<real>, r: seq<nat>, keep: nat, u: real, i: nat)
    requires keep <= |r|
  {
    i < keep && (u <= Mass(probs, r, i + 1) || i == keep - 1) && forall j :: 0 < j <= i ==> u > Mass(probs, r, j)
  }

  /** The draw is determined. */
  lemma DrawnOnce(probs: seq<real>, r: seq<nat>, keep: nat, u: real, token: nat, token1: nat)
    requires keep <= |r| && Drawn(probs, r, keep, u, token) && Drawn(probs, r, keep, u, token1)
    ensures token == token1
  {
    hide Mass;
    var i: nat :| DrawnAt(probs, r, keep, u, i) && token == r[i];
    var i1: nat :| DrawnAt(probs, r, keep, u, i1) && token1 == r[i1];
    var before, before1 := Mass(probs, r, i + 1), Mass(probs, r, i1 + 1);
  }

  lemma DrawnPrefix(probs: seq<real>, s: seq<nat>, r: seq<nat>, keep: nat, u: real, token: nat)
    requires keep <= |s| && keep <= |r| && s[..keep] == r[..keep] && Drawn(probs, s, keep, u, token)
    ensures Drawn(probs, r, keep, u, token)
  {
    hide Mass;
    var i: nat :| DrawnAt(probs, s, keep, u, i) && token == s[i];
    forall j | 0 <= j <= i + 1 ensures Mass(probs, s, j) == Mass(probs, r, j) {
      assert s[..j] == s[..keep][..j] == r[..keep][..j] == r[..j];
      MassPrefix(probs, s, r, j);
    }
    assert s[i] == s[..keep][i] == r[..keep][i] == r[i];
    assert DrawnAt(probs, r, keep, u, i);
  }

  /**
   The share of a token: with no negative probability, the token at rank `i` is drawn exactly for the numbers
   between the mass before it and the mass with it, an interval as long as its probability.
   */
  lemma DrawnShare(probs: seq<real>, r: seq<nat>, keep: nat, u: real, token: nat, i: nat)
    requires IsRanking(probs, r) && i < keep <= |r| && (forall x :: 0 <= x < |probs| ==> probs[x] >= 0.0)
    requires 0.0 < u <= Mass(probs, r, keep) && Drawn(probs, r, keep, u, token)
    ensures token == r[i] <==> Mass(probs, r, i) < u <= Mass(probs, r, i + 1)
    ensures r[i] < |probs| && Mass(probs, r, i + 1) - Mass(probs, r, i) == probs[r[i]]
  {
    var k: nat :| DrawnAt(probs, r, keep, u, k) && token == r[k];
    hide Mass, TopSorted;
    NoMass(probs, r);
    assert Mass(probs, r, k) < u <= Mass(probs, r, k + 1) by {
      assert k > 0 ==> u > Mass(probs, r, k);
    }
    if i < k {
      MassGrows(probs, r, i + 1, k);
    } else if k < i {
      MassGrows(probs, r, k + 1, i);
    }
    MassNext(probs, r, i);
  }

  lemma NoMass(probs: seq<real>, r: seq<nat>)
    ensures Mass(probs, r, 0) == 0.0
  {
  }

  lemma MassNext(probs: seq<real>, r: seq<nat>, i: nat)
    requires i < |r| && r[i] < |probs|
    ensures Mass(probs, r, i + 1) == Mass(probs, r, i) + probs[r[i]]
  {
  }

  // ---- the program ----

  /** The position of the entry that precedes all others from `i` on. */
  method FindFirst(probs: seq<real>, s: seq<nat>, i: nat) returns (best: nat)
    requires IsPerm(s, |probs|) && i < |s|
    ensures i <= best < |s| && forall m :: i <= m < |s| && m != best ==> Precedes(probs, s[best], s[m])
  {
    best := i;
    for j := i + 1 to |s|
      invariant i <= best < j
      invariant forall m :: i <= m < j && m != best ==> Precedes(probs, s[best], s[m])
    {
      if Precedes(probs, s[j], s[best]) {
        best := j;
      }
    }
  }

  function Swapped(s: seq<nat>, i: nat, j: nat): seq<nat>
    requires i < |s| && j < |s|
  {
    s[i := s[j]][j := s[i]]
  }

  lemma SwapKeeps(probs: seq<real>, s: seq<nat>, i: nat, best: nat)
    requires IsPerm(s, |probs|) && i <= best < |s| && TopSorted(probs, s, i)
    requires forall m :: i <= m < |s| && m != best ==> Precedes(probs, s[best], s[m])
    ensures IsPerm(Swapped(s, i, best), |probs|) && TopSorted(probs, Swapped(s, i, best), i + 1)
  {
    var t := Swapped(s, i, best);
    forall a, b | 0 <= a < i + 1 && a < b < |t| ensures Precedes(probs, t[a], t[b]) {
      if a < i {
        assert Precedes(probs, s[a], s[b]) && Precedes(probs, s[a], s[best]) && Precedes(probs, s[a], s[i]);
      }
    }
  }

  /** Order the first `k` positions among all: what `nth_element` and then `sort` leave in the window. */
  method OrderWindow(probs: seq<real>, idx: array<nat>, k: nat)
    requires IsPerm(idx[..], |probs|) && k <= idx.Length
    modifies idx
    ensures IsPerm(idx[..], |probs|) && TopSorted(probs, idx[..], k)
  {
    hide IsPerm, TopSorted, Precedes;
    NothingSorted(probs, idx[..]);
    for i := 0 to k
      invariant IsPerm(idx[..], |probs|) && TopSorted(probs, idx[..], i)
    {
      var best := FindFirst(probs, idx[..], i);
      SwapKeeps(probs, idx[..], i, best);
      ghost var t := Swapped(idx[..], i, best);
      idx[i], idx[best] := idx[best], idx[i];
      assert idx[..] == t;
    }
  }

  lemma NothingSorted(probs: seq<real>, s: seq<nat>)
    ensures TopSorted(probs, s, 0)
  {
  }

  /** Add up the window until `topP` is reached. */
  method CloseNucleus(probs: seq<real>, s: seq<nat>, k: nat, topP: real) returns (keep: nat, cum: real)
    requires k <= |s| == |probs| && forall i :: 0 <= i < |s| ==> s[i] < |probs|
    ensures keep == Reach(probs, s, topP, 0, k) && cum == Mass(probs, s, keep)
  {
    keep, cum := 0, 0.0;
    while keep < k
      invariant keep <= k && cum == Mass(probs, s, keep) && Reach(probs, s, topP, keep, k) == Reach(probs, s, topP, 0, k)
    {
      cum := cum + probs[s[keep]];
      keep := keep + 1;
      if cum >= topP {
        break;
      }
    }
  }

  /** The widening window: order the top `k`, stop when the nucleus closes inside it. */
  method FindNucleus(probs: seq<real>, topP: real, idx: array<nat>) returns (keep: nat, cum: real)
    requires probs != [] && IsPerm(idx[..], |probs|)
    modifies idx
    ensures keep <= idx.Length && IsPerm(idx[..], |probs|)
    ensures forall r :: IsRanking(probs, r) ==> Agrees(probs, idx[..], r, topP, keep, cum)
  {
    hide TopSorted, IsRanking, Reach, Agrees, NoDup;
    var k := 64;
    while true
      invariant IsPerm(idx[..], |probs|) && k > 0
      decreases |probs| + |probs| + 256 - k
    {
      var last := k >= |probs|;
      if last {
        k := |probs|;
      }
      OrderWindow(probs, idx, k);
      keep, cum := CloseNucleus(probs, idx[..], k, topP);
      if keep < k || last {
        forall r | IsRanking(probs, r) ensures Agrees(probs, idx[..], r, topP, keep, cum) {
          WindowAgrees(probs, idx[..], k, r, topP);
        }
        return;
      }
      k := k * 4;
    }
  }

  /** The kept tokens, their number and their mass are those of the full ranking. */
  ghost predicate Agrees(probs: seq<real>, s: seq<nat>, r: seq<nat>, topP: real, keep: nat, cum: real) {
    && keep <= |s| && keep <= |r| && keep == Nucleus(probs, r, topP)
    && s[..keep] == r[..keep] && cum == Mass(probs, r, keep)
  }

  lemma WindowAgrees(probs: seq<real>, s: seq<nat>, k: nat, r: seq<nat>, topP: real)
    requires IsPerm(s, |probs|) && k <= |s| && TopSorted(probs, s, k) && IsRanking(probs, r)
    requires Reach(probs, s, topP, 0, k) < k || k == |probs|
    ensures Agrees(probs, s, r, topP, Reach(probs, s, topP, 0, k), Mass(probs, s, Reach(probs, s, topP, 0, k)))
  {
    hide Reach, TopSorted, NoDup;
    WindowIsRanking(probs, s, k, r);
    ReachInWindow(probs, s, k, r, topP, 0);
    var keep := Reach(probs, s, topP, 0, k);
    assert s[..keep] == s[..k][..keep] == r[..k][..keep] == r[..keep];
    MassPrefix(probs, s, r, keep);
  }

  /** Walk down the kept tokens until the drawn number is used up. */
  method DrawToken(probs: seq<real>, s: seq<nat>, keep: nat, u0: real) returns (token: nat)
    requires 0 < keep <= |s| && forall i :: 0 <= i < |s| ==> s[i] < |probs|
    ensures Drawn(probs, s, keep, u0, token)
  {
    var u := u0;
    for i := 0 to keep
      invariant u == u0 - Mass(probs, s, i) && forall j :: 0 < j <= i ==> u0 > Mass(probs, s, j)
    {
      u := u - probs[s[i]];
      if u <= 0.0 {
        assert DrawnAt(probs, s, keep, u0, i);
        return s[i];
      }
    }
    assert DrawnAt(probs, s, keep, u0, keep - 1);
    return s[keep - 1];
  }

  /** `token` is what `draw` picks from the nucleus of the full ranking; `draw` turns the kept mass into a number. */
  ghost predicate SampledFrom(probs: seq<real>, r: seq<nat>, topP: real, draw: real -> real, token: nat) {
    var keep := Nucleus(probs, r, topP);
    Drawn(probs, r, keep, draw(Mass(probs, r, keep)), token)
  }

  /** Top-p sampling draws the same token as sampling from the full ranking. */
  method SampleTopP(probs: seq<real>, topP: real, draw: real -> real) returns (token: nat)
    requires probs != []
    ensures forall r :: IsRanking(probs, r) ==> SampledFrom(probs, r, topP, draw, token)
  {
    hide IsRanking, Nucleus, Drawn, Reach;
    var idx := new nat[|probs|](i => i);
    var keep, cum := FindNucleus(probs, topP, idx);
    ghost var r := RankingExists(probs);
    assert Agrees(probs, idx[..], r, topP, keep, cum);
    NucleusPositive(probs, r, topP);
    token := DrawToken(probs, idx[..], keep, draw(cum));
    forall r | IsRanking(probs, r) ensures SampledFrom(probs, r, topP, draw, token) {
      assert Agrees(probs, idx[..], r, topP, keep, cum);
      DrawnPrefix(probs, idx[..], r, keep, draw(cum), token);
    }
  }

  lemma NucleusPositive(probs: seq<real>, r: seq<nat>, topP: real)
    requires IsRanking(probs, r) && probs != []
    ensures Nucleus(probs, r, topP) > 0
  {
    hide Mass;
    NucleusIs(probs, r, topP);
  }

  // ---- there is exactly one ranking ----

  lemma RankingUnique(probs: seq<real>, r: seq<nat>, r1: seq<nat>)
    requires IsRanking(probs, r) && IsRanking(probs, r1)
    ensures r == r1
  {
    WindowIsRanking(probs, r, |r|, r1);
  }

  /** Ordering one more position of a permutation. */
  lemma OrderOne(probs: seq<real>, s: seq<nat>, i: nat) returns (t: seq<nat>)
    requires IsPerm(s, |probs|) && i < |s| && TopSorted(probs, s, i)
    ensures IsPerm(t, |probs|) && TopSorted(probs, t, i + 1)
  {
    hide TopSorted, Precedes;
    var best := FirstOf(probs, s, i, |s|);
    SwapKeeps(probs, s, i, best);
    t := Swapped(s, i, best);
  }

  lemma {:induction false} FirstOf(probs: seq<real>, s: seq<nat>, i: nat, n: nat) returns (best: nat)
    requires IsPerm(s, |probs|) && i < n <= |s|
    ensures i <= best < n && forall m :: i <= m < n && m != best ==> Precedes(probs, s[best], s[m])
    decreases n
  {
    if n == i + 1 {
      best := i;
    } else {
      best := FirstOf(probs, s, i, n - 1);
      if Precedes(probs, s[n - 1], s[best]) {
        best := n - 1;
      }
    }
  }

  lemma {:induction false} RankingFrom(probs: seq<real>, s: seq<nat>, i: nat) returns (r: seq<nat>)
    requires IsPerm(s, |probs|) && i <= |s| && TopSorted(probs, s, i)
    ensures IsRanking(probs, r)
    decreases |s| - i
  {
    if i == |s| {
      r := s;
    } else {
      var t := OrderOne(probs, s, i);
      r := RankingFrom(probs, t, i + 1);
    }
  }

  lemma RankingExists(probs: seq<real>) returns (r: seq<nat>)
    ensures IsRanking(probs, r)
  {
    var s := seq(|probs|, i requires 0 <= i < |probs| => i);
    r := RankingFrom(probs, s, 0);
  }

  // ---- the nucleus is smallest ----

  /** The mass of the entries at the positions `t` below `n`. */
  ghost function MassAt(probs: seq<real>, r: seq<nat>, t: set<nat>, n: nat): real
    requires n <= |r|
  {
    if n == 0 then 0.0
    else MassAt(probs, r, t, n - 1) + if n - 1 in t && r[n - 1] < |probs| then probs[r[n - 1]] else 0.0
  }

  /** Any choice of positions has at most the mass of as many leading positions. */
  lemma {:induction false} LeadingIsMost(probs: seq<real>, r: seq<nat>, t: set<nat>, n: nat)
    requires IsRanking(probs, r) && n <= |r| && (forall i :: i in t ==> i < n)
    ensures |t| <= n && MassAt(probs, r, t, n) <= Mass(probs, r, |t|)
  {
    SubsetCard(t, Range(n));
    if n > 0 {
      if n - 1 in t {
        var t1 := t - {n - 1};
        LeadingIsMost(probs, r, t1, n - 1);
        MassAtSame(probs, r, t, t1, n - 1);
        var j := |t1|;
        assert |t| == j + 1;
        if j < n - 1 { assert Precedes(probs, r[j], r[n - 1]); }
      } else {
        LeadingIsMost(probs, r, t, n - 1);
      }
    }
  }

  lemma {:induction false} MassAtSame(probs: seq<real>, r: seq<nat>, t: set<nat>, t1: set<nat>, n: nat)
    requires n <= |r| && forall i: nat :: i < n ==> (i in t <==> i in t1)
    ensures MassAt(probs, r, t, n) == MassAt(probs, r, t1, n)
  {
    if n > 0 {
      MassAtSame(probs, r, t, t1, n - 1);
    }
  }

  /** The mass of a set of tokens. */
  ghost function SetMass(probs: seq<real>, tokens: set<nat>): real {
    TokenMass(probs, tokens, |probs|)
  }

  ghost function TokenMass(probs: seq<real>, tokens: set<nat>, n: nat): real
    requires n <= |probs|
  {
    if n == 0 then 0.0 else TokenMass(probs, tokens, n - 1) + if n - 1 in tokens then probs[n - 1] else 0.0
  }

  lemma {:induction false} TokenMassWithout(probs: seq<real>, tokens: set<nat>, x: nat, n: nat)
    requires n <= |probs| && x in tokens
    ensures TokenMass(probs, tokens, n) == TokenMass(probs, tokens - {x}, n) + if x < n then probs[x] else 0.0
  {
    if n > 0 {
      TokenMassWithout(probs, tokens, x, n - 1);
    }
  }

  lemma {:induction false} TokenMassNone(probs: seq<real>, tokens: set<nat>, n: nat)
    requires n <= |probs| && forall x :: x in tokens ==> x >= n
    ensures TokenMass(probs, tokens, n) == 0.0
  {
    if n > 0 {
      TokenMassNone(probs, tokens, n - 1);
    }
  }

  /** Of the tokens at the first `n` ranks, those in `tokens`, as positions. */
  ghost function Positions(r: seq<nat>, tokens: set<nat>, n: nat): (t: set<nat>)
    requires n <= |r|
    ensures forall i :: i in t ==> i < n
  {
    if n == 0 then {} else Positions(r, tokens, n - 1) + if r[n - 1] in tokens then {n - 1} else {}
  }

  lemma {:induction false} PositionsMass(probs: seq<real>, r: seq<nat>, tokens: set<nat>, n: nat)
    requires IsPerm(r, |probs|) && n <= |r| && (forall x :: x in tokens ==> x in r[..n])
    ensures |Positions(r, tokens, n)| == |tokens| && MassAt(probs, r, Positions(r, tokens, n), n) == SetMass(probs, tokens)
  {
    if n == 0 {
      assert tokens == {};
      TokenMassNone(probs, tokens, |probs|);
    } else {
      var x := r[n - 1];
      var rest := tokens - {x};
      assert r[..n] == r[..n - 1] + [x];
      PositionsMass(probs, r, rest, n - 1);
      PositionsSame(r, tokens, rest, n - 1);
      MassAtSame(probs, r, Positions(r, tokens, n), Positions(r, rest, n - 1), n - 1);
      if x in tokens {
        TokenMassWithout(probs, tokens, x, |probs|);
      } else {
        assert rest == tokens;
      }
    }
  }

  lemma {:induction false} PositionsSame(r: seq<nat>, a: set<nat>, b: set<nat>, n: nat)
    requires n <= |r| && forall i :: 0 <= i < n ==> (r[i] in a <==> r[i] in b)
    ensures Positions(r, a, n) == Positions(r, b, n)
  {
    if n > 0 {
      PositionsSame(r, a, b, n - 1);
    }
  }

  /**
   Minimality: the nucleus reaches `topP` if the whole vocabulary does, and no smaller set of tokens does.
   */
  lemma SmallestNucleus(probs: seq<real>, r: seq<nat>, topP: real, tokens: set<nat>)
    requires IsRanking(probs, r) && topP > 0.0 && (forall x :: x in tokens ==> x < |probs|) && SetMass(probs, tokens) >= topP
    ensures Nucleus(probs, r, topP) <= |tokens|
    ensures (forall x :: 0 <= x < |probs| ==> probs[x] >= 0.0) ==> Mass(probs, r, Nucleus(probs, r, topP)) >= topP
  {
    hide Reach, TopSorted, NoDup;
    var n := |r|;
    forall x | x in tokens ensures x in r[..n] {
      PermHas(r, |probs|, x);
      assert r[..n] == r;
    }
    PositionsMass(probs, r, tokens, n);
    var t := Positions(r, tokens, n);
    LeadingIsMost(probs, r, t, n);
    var j := |t|;
    assert Mass(probs, r, j) >= topP;
    assert j > 0;
    NucleusIs(probs, r, topP);
    if forall x :: 0 <= x < |probs| ==> probs[x] >= 0.0 {
      MassGrows(probs, r, j, n);
    }
  }

  lemma {:induction false} MassGrows(probs: seq<real>, r: seq<nat>, j: nat, n: nat)
    requires j <= n <= |r| && forall x :: 0 <= x < |probs| ==> probs[x] >= 0.0
    ensures Mass(probs, r, j) <= Mass(probs, r, n)
  {
    if j < n {
      MassGrows(probs, r, j, n - 1);
    }
  }
}
