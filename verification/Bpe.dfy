/**
 Byte-pair merging. The program applies every occurrence of the lowest-ranked pair in one pass; the
 definition of BPE merges one pair at a time, always the leftmost of the lowest rank. The two agree for
 every input when each merge ranks after every merge that produces one of its parts.
 */
module Bpe {
  import opened Lists

  type Id = int

  datatype Rule = Rule(rank: nat, id: Id)

  type Merges = map<(Id, Id), Rule>

  const MaxRank: nat := 0x7FFF_FFFF

  /** Ranks are handed out one by one, so no two pairs share one and none reaches the sentinel. */
  ghost predicate ValidMerges(m: Merges) {
    && (forall p :: p in m ==> m[p].rank < MaxRank)
    && (forall p, q :: p in m && q in m && m[p].rank == m[q].rank ==> p == q)
  }

  predicate MergesAt(m: Merges, s: seq<Id>, i: int) {
    0 <= i < |s| - 1 && (s[i], s[i + 1]) in m
  }

  function RankAt(m: Merges, s: seq<Id>, i: nat): nat
    requires MergesAt(m, s, i)
  {
    m[(s[i], s[i + 1])].rank
  }

  /** The leftmost position of the lowest rank among the first `n` adjacent pairs. */
  function BestAt(m: Merges, s: seq<Id>, n: nat): (r: Option<nat>)
    requires n <= |s|
    ensures r.Some? ==> r.value < n && MergesAt(m, s, r.value)
  {
    if n == 0 then None
    else
      var best := BestAt(m, s, n - 1);
      if MergesAt(m, s, n - 1) && (best.None? || RankAt(m, s, n - 1) < RankAt(m, s, best.value)) then Some(n - 1) else best
  }

  function MergeAt(m: Merges, s: seq<Id>, i: nat): (r: seq<Id>)
    requires MergesAt(m, s, i)
    ensures |r| == |s| - 1
  {
    s[..i] + [m[(s[i], s[i + 1])].id] + s[i + 2..]
  }

  /** Merge the leftmost lowest-ranked pair, again and again. */
  function OneByOne(m: Merges, s: seq<Id>): seq<Id>
    decreases |s|
  {
    var best := BestAt(m, s, |s|);
    if best.None? then s else OneByOne(m, MergeAt(m, s, best.value))
  }

  /** Replace every occurrence of the pair (a, b), left to right. */
  function MergeAll(s: seq<Id>, a: Id, b: Id, c: Id): (r: seq<Id>)
    ensures |r| <= |s|
  {
    if |s| < 2 then s
    else if s[0] == a && s[1] == b then [c] + MergeAll(s[2..], a, b, c)
    else [s[0]] + MergeAll(s[1..], a, b, c)
  }

  lemma {:induction false} MergeAllShrinks(s: seq<Id>, a: Id, b: Id, c: Id, i: nat)
    requires i + 1 < |s| && s[i] == a && s[i + 1] == b
    ensures |MergeAll(s, a, b, c)| < |s|
  {
    if !(s[0] == a && s[1] == b) {
      MergeAllShrinks(s[1..], a, b, c, i - 1);
    }
  }

  /** One pass of the program's loop. */
  function Pass(m: Merges, s: seq<Id>, i: nat): (r: seq<Id>)
    requires MergesAt(m, s, i)
    ensures |r| < |s|
  {
    MergeAllShrinks(s, s[i], s[i + 1], m[(s[i], s[i + 1])].id, i);
    MergeAll(s, s[i], s[i + 1], m[(s[i], s[i + 1])].id)
  }

  function AllAtOnce(m: Merges, s: seq<Id>): seq<Id>
    decreases |s|
  {
    var best := BestAt(m, s, |s|);
    if best.None? then s else AllAtOnce(m, Pass(m, s, best.value))
  }

  // ---- the lowest-ranked pair ----

  ghost predicate IsBest(m: Merges, s: seq<Id>, n: nat, i: nat) {
    && i < n && MergesAt(m, s, i)
    && (forall j: nat :: j < n && MergesAt(m, s, j) ==> RankAt(m, s, i) <= RankAt(m, s, j))
    && (forall j: nat :: j < i && MergesAt(m, s, j) ==> RankAt(m, s, i) < RankAt(m, s, j))
  }

  lemma {:induction false} BestIs(m: Merges, s: seq<Id>, n: nat)
    requires n <= |s|
    ensures BestAt(m, s, n).None? ==> forall j: nat :: j < n ==> !MergesAt(m, s, j)
    ensures BestAt(m, s, n).Some? ==> IsBest(m, s, n, BestAt(m, s, n).value)
  {
    if n > 0 {
      BestIs(m, s, n - 1);
    }
  }

  lemma BestUnique(m: Merges, s: seq<Id>, i: nat)
    requires IsBest(m, s, |s|, i)
    ensures BestAt(m, s, |s|) == Some(i)
  {
    BestIs(m, s, |s|);
  }

  // ---- merging all is merging the first, repeatedly ----

  ghost predicate Occurs(s: seq<Id>, a: Id, b: Id, i: nat) {
    i + 1 < |s| && s[i] == a && s[i + 1] == b
  }

  /** The leftmost occurrence. */
  ghost predicate FirstAt(s: seq<Id>, a: Id, b: Id, i: nat) {
    Occurs(s, a, b, i) && forall j: nat :: j < i ==> !Occurs(s, a, b, j)
  }

  lemma {:induction false} MergeAllNothing(s: seq<Id>, a: Id, b: Id, c: Id)
    requires forall i: nat :: !Occurs(s, a, b, i)
    ensures MergeAll(s, a, b, c) == s
  {
    if |s| >= 2 {
      assert !Occurs(s, a, b, 0);
      forall i: nat ensures !Occurs(s[1..], a, b, i) {
        assert !Occurs(s, a, b, i + 1);
      }
      MergeAllNothing(s[1..], a, b, c);
    }
  }

  /** Merging the leftmost occurrence first does not change the result of merging all. */
  lemma {:induction false} MergeFirstThenAll(s: seq<Id>, a: Id, b: Id, c: Id, i: nat)
    requires FirstAt(s, a, b, i) && c != a && c != b
    ensures MergeAll(s[..i] + [c] + s[i + 2..], a, b, c) == MergeAll(s, a, b, c)
  {
    var t := s[..i] + [c] + s[i + 2..];
    if i == 0 {
      assert t == [c] + s[2..] && t[1..] == s[2..];
    } else {
      assert !Occurs(s, a, b, 0);
      forall j: nat | j < i - 1 ensures !Occurs(s[1..], a, b, j) {
        assert !Occurs(s, a, b, j + 1);
      }
      MergeFirstThenAll(s[1..], a, b, c, i - 1);
      assert t[1..] == s[1..][..i - 1] + [c] + s[1..][i - 1 + 2..];
      assert t[0] == s[0] && |t| >= 2;
      assert !(t[0] == a && t[1] == b);
    }
  }

  /** Every merge ranks after every merge that produces one of its parts. */
  ghost predicate PartsFirst(m: Merges) {
    forall p, q :: p in m && q in m && (q.0 == m[p].id || q.1 == m[p].id) ==> m[p].rank < m[q].rank
  }

  /** After merging the leftmost best pair, that pair is still the best one wherever it occurs. */
  lemma StillBest(m: Merges, s: seq<Id>, i: nat, k: nat)
    requires ValidMerges(m) && PartsFirst(m) && IsBest(m, s, |s|, i)
    requires FirstAt(MergeAt(m, s, i), s[i], s[i + 1], k)
    ensures IsBest(m, MergeAt(m, s, i), |MergeAt(m, s, i)|, k)
  {
    var t := MergeAt(m, s, i);
    var p := (s[i], s[i + 1]);
    forall j: nat | MergesAt(m, t, j) ensures RankAt(m, s, i) <= RankAt(m, t, j) && (j < k ==> RankAt(m, s, i) < RankAt(m, t, j)) {
      var q := (t[j], t[j + 1]);
      if j + 1 == i || j == i {
        assert q.0 == m[p].id || q.1 == m[p].id;
      } else if j + 1 < i {
        assert t[j] == s[j] && t[j + 1] == s[j + 1] && MergesAt(m, s, j);
      } else {
        assert t[j] == s[j + 1] && t[j + 1] == s[j + 2] && MergesAt(m, s, j + 1);
      }
      if j < k {
        assert !Occurs(t, s[i], s[i + 1], j);
      }
    }
  }

  lemma {:induction false} FirstOccurrence(s: seq<Id>, a: Id, b: Id, n: nat) returns (k: nat)
    requires Occurs(s, a, b, n)
    ensures FirstAt(s, a, b, k)
    decreases n
  {
    if exists j: nat :: j < n && Occurs(s, a, b, j) {
      var j: nat :| j < n && Occurs(s, a, b, j);
      k := FirstOccurrence(s, a, b, j);
    } else {
      k := n;
    }
  }

  /** The leftmost best position is the leftmost occurrence of its pair. */
  lemma BestIsFirst(m: Merges, s: seq<Id>, i: nat)
    requires IsBest(m, s, |s|, i)
    ensures FirstAt(s, s[i], s[i + 1], i)
  {
    var a, b := s[i], s[i + 1];
    forall j: nat | j < i ensures !Occurs(s, a, b, j) {
      assert Occurs(s, a, b, j) ==> MergesAt(m, s, j);
    }
  }

  /** A whole pass is what merging one by one does before it gets to any other pair. */
  lemma {:induction false} PassIsOneByOne(m: Merges, s: seq<Id>, i: nat)
    requires ValidMerges(m) && PartsFirst(m) && IsBest(m, s, |s|, i)
    ensures OneByOne(m, s) == OneByOne(m, Pass(m, s, i))
    decreases |s|
  {
    hide ValidMerges, PartsFirst, IsBest, MergeAll;
    BestUnique(m, s, i);
    BestParts(m, s, i);
    var a, b := s[i], s[i + 1];
    var c := m[(a, b)].id;
    var t := MergeAt(m, s, i);
    NotItsOwnPart(m, (a, b));
    BestIsFirst(m, s, i);
    MergeFirstThenAll(s, a, b, c, i);
    if exists n: nat :: Occurs(t, a, b, n) {
      var n: nat :| Occurs(t, a, b, n);
      var k := FirstOccurrence(t, a, b, n);
      StillBest(m, s, i, k);
      PassIsOneByOne(m, t, k);
    } else {
      MergeAllNothing(t, a, b, c);
    }
  }

  lemma BestParts(m: Merges, s: seq<Id>, i: nat)
    requires IsBest(m, s, |s|, i)
    ensures i < |s| && MergesAt(m, s, i)
  {
  }

  lemma NotItsOwnPart(m: Merges, p: (Id, Id))
    requires PartsFirst(m) && p in m
    ensures m[p].id != p.0 && m[p].id != p.1
  {
  }

  /** Applying every occurrence per pass gives the same tokens as merging one pair at a time. */
  lemma {:induction false} SameTokens(m: Merges, s: seq<Id>)
    requires ValidMerges(m) && PartsFirst(m)
    ensures AllAtOnce(m, s) == OneByOne(m, s)
    decreases |s|
  {
    hide ValidMerges, PartsFirst;
    var best := BestAt(m, s, |s|);
    BestIs(m, s, |s|);
    if best.Some? {
      PassIsOneByOne(m, s, best.value);
      SameTokens(m, Pass(m, s, best.value));
    }
  }

  // ---- the order of ranks matters ----

  /** (3, 1) outranks the (1, 2) that produces its 3. */
  const Outranked: Merges := map[(1, 2) := Rule(1, 3), (3, 1) := Rule(0, 4)]

  lemma OneStep(m: Merges, s: seq<Id>, i: nat)
    requires IsBest(m, s, |s|, i)
    ensures OneByOne(m, s) == OneByOne(m, MergeAt(m, s, i)) && AllAtOnce(m, s) == AllAtOnce(m, Pass(m, s, i))
  {
    hide IsBest, MergeAt, Pass;
    BestUnique(m, s, i);
    BestParts(m, s, i);
  }

  lemma OutrankedOneByOne()
    ensures OneByOne(Outranked, [1, 2, 1, 2]) == [4, 2]
  {
    hide OneByOne;
    OneStep(Outranked, [1, 2, 1, 2], 0);
    assert MergeAt(Outranked, [1, 2, 1, 2], 0) == [3, 1, 2];
    OneStep(Outranked, [3, 1, 2], 0);
    assert MergeAt(Outranked, [3, 1, 2], 0) == [4, 2];
    NoPairs(Outranked, [4, 2]);
  }

  lemma NoPairs(m: Merges, s: seq<Id>)
    requires forall i :: !MergesAt(m, s, i)
    ensures OneByOne(m, s) == s && AllAtOnce(m, s) == s
  {
    BestIs(m, s, |s|);
  }

  lemma OutrankedAllAtOnce()
    ensures AllAtOnce(Outranked, [1, 2, 1, 2]) == [3, 3]
  {
    hide AllAtOnce, MergeAll;
    OneStep(Outranked, [1, 2, 1, 2], 0);
    MergeTwice();
    NoPairs(Outranked, [3, 3]);
  }

  lemma MergeTwice()
    ensures MergeAll([1, 2, 1, 2], 1, 2, 3) == [3, 3]
  {
    assert [1, 2, 1, 2][2..] == [1, 2];
    assert [1, 2][2..] == [];
  }

  /** Without that order of ranks the two can differ. */
  lemma OrderMatters()
    ensures ValidMerges(Outranked) && !PartsFirst(Outranked)
    ensures AllAtOnce(Outranked, [1, 2, 1, 2]) != OneByOne(Outranked, [1, 2, 1, 2])
  {
    hide AllAtOnce, OneByOne;
    OutrankedAllAtOnce();
    OutrankedOneByOne();
    assert [3, 3][0] != [4, 2][0];
    assert !PartsFirst(Outranked) by { assert (1, 2) in Outranked && (3, 1) in Outranked; }
  }

  /** No mergeable pair remains. */
  lemma {:induction false} NothingLeft(m: Merges, s: seq<Id>)
    ensures forall i :: !MergesAt(m, AllAtOnce(m, s), i)
    decreases |s|
  {
    BestIs(m, s, |s|);
    if BestAt(m, s, |s|).Some? {
      NothingLeft(m, Pass(m, s, BestAt(m, s, |s|).value));
    } else {
      forall i ensures !MergesAt(m, s, i) {
        if 0 <= i < |s| { var j: nat := i; assert !MergesAt(m, s, j); }
      }
    }
  }

  // ---- the program's loops ----

  /** Scan for the winning pair. */
  method FindBest(m: Merges, ids: seq<Id>) returns (best: Option<nat>)
    requires ValidMerges(m)
    ensures best == BestAt(m, ids, |ids|)
  {
    var bestRank: nat := MaxRank;
    var bestAt: nat := 0;
    if ids == [] {
      return None;
    }
    for i := 0 to |ids| - 1
      invariant BestAt(m, ids, i) == if bestRank == MaxRank then None else Some(bestAt)
      invariant bestRank < MaxRank ==> MergesAt(m, ids, bestAt) && bestRank == RankAt(m, ids, bestAt)
      invariant bestRank <= MaxRank
    {
      if (ids[i], ids[i + 1]) in m {
        var rule := m[(ids[i], ids[i + 1])];
        if rule.rank < bestRank {
          bestRank, bestAt := rule.rank, i;
        }
      }
    }
    assert BestAt(m, ids, |ids|) == BestAt(m, ids, |ids| - 1);
    if bestRank == MaxRank {
      return None;
    }
    return Some(bestAt);
  }

  /** Apply every occurrence of the winning pair, left to right. */
  method ApplyPair(ids: seq<Id>, a: Id, b: Id, c: Id) returns (next: seq<Id>)
    ensures next == MergeAll(ids, a, b, c)
  {
    next := [];
    var i := 0;
    while i < |ids|
      invariant i <= |ids| && next + MergeAll(ids[i..], a, b, c) == MergeAll(ids, a, b, c)
    {
      if i + 1 < |ids| && ids[i] == a && ids[i + 1] == b {
        assert ids[i..][2..] == ids[i + 2..];
        next := next + [c];
        i := i + 1;
      } else {
        assert ids[i..][1..] == ids[i + 1..];
        next := next + [ids[i]];
      }
      i := i + 1;
    }
    assert ids[i..] == [];
  }

  /** The tokenizer's merge loop, and what it returns under the usual order of merge ranks. */
  method BpeMerge(m: Merges, ids0: seq<Id>) returns (ids: seq<Id>)
    requires ValidMerges(m)
    ensures ids == AllAtOnce(m, ids0)
    ensures forall i :: !MergesAt(m, ids, i)
    ensures PartsFirst(m) ==> ids == OneByOne(m, ids0)
  {
    hide ValidMerges, PartsFirst;
    ids := ids0;
    while |ids| >= 2
      invariant AllAtOnce(m, ids) == AllAtOnce(m, ids0)
      decreases |ids|
    {
      var best := FindBest(m, ids);
      if best.None? {
        break;
      }
      var i := best.value;
      var next := ApplyPair(ids, ids[i], ids[i + 1], m[(ids[i], ids[i + 1])].id);
      assert next == Pass(m, ids, i);
      ids := next;
    }
    Stops(m, ids);
    NothingLeft(m, ids0);
    if PartsFirst(m) {
      SameTokens(m, ids0);
    }
  }

  lemma Stops(m: Merges, s: seq<Id>)
    requires |s| < 2 || BestAt(m, s, |s|).None?
    ensures AllAtOnce(m, s) == s
  {
    BestIs(m, s, |s|);
  }
}
