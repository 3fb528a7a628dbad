/**
 Small facts about finite sequences that the cache manager and the scheduler both need:
 duplicate-free lists, erasing one element, and total lookup in a vector.
 */
module Lists {

  datatype Option<+T> = None | Some(value: T)

  ghost predicate NoDup<T>(s: seq<T>) {
    forall i, j :: 0 <= i < j < |s| ==> s[i] != s[j]
  }

  /** `s[i]`, or 0 outside the vector. */
  function Get(s: seq<nat>, i: nat): nat {
    if i < |s| then s[i] else 0
  }

  /** `s` with position `i` replaced; unchanged when `i` is outside the vector. */
  function Put(s: seq<nat>, i: nat, v: nat): (r: seq<nat>)
    ensures |r| == |s|
    ensures forall j: nat :: Get(r, j) == if j == i && i < |s| then v else Get(s, j)
  {
    if i < |s| then s[i := v] else s
  }

  lemma NoDupConcat<T>(a: seq<T>, b: seq<T>)
    requires NoDup(a) && NoDup(b) && forall x :: x in a ==> x !in b
    ensures NoDup(a + b)
  {
    var s := a + b;
    forall i, j | 0 <= i < j < |s| ensures s[i] != s[j] {
      if i < |a| <= j { assert s[i] in a && s[j] in b; }
    }
  }

  /** Erase the first occurrence of `x`, if there is one. */
  function Without<T(==)>(s: seq<T>, x: T): (r: seq<T>) {
    if s == [] then [] else if s[0] == x then s[1..] else [s[0]] + Without(s[1..], x)
  }

  /** Erasing at the first occurrence. */
  lemma {:induction false} WithoutAt<T>(l: seq<T>, b: T, i: nat)
    requires i < |l| && l[i] == b && b !in l[..i]
    ensures Without(l, b) == l[..i] + l[i + 1..]
  {
    if i > 0 {
      assert l[0] == l[..i][0] && l[1..][..i - 1] == l[..i][1..];
      WithoutAt(l[1..], b, i - 1);
      assert l[..i] == [l[0]] + l[1..][..i - 1];
    }
  }

  lemma {:induction false} FirstIndex<T>(s: seq<T>, x: T) returns (k: nat)
    requires x in s
    ensures k < |s| && s[k] == x && x !in s[..k]
  {
    if s[0] == x {
      k := 0;
    } else {
      var m := FirstIndex(s[1..], x);
      k := m + 1;
      assert s[..k] == [s[0]] + s[1..][..m];
    }
  }

  lemma WithoutSplit<T>(s: seq<T>, x: T)
    requires x in s
    ensures exists k :: 0 <= k < |s| && s[k] == x && x !in s[..k] && Without(s, x) == s[..k] + s[k + 1..]
  {
    var k := FirstIndex(s, x);
    WithoutAt(s, x, k);
  }

  lemma {:induction false} WithoutAbsent<T>(s: seq<T>, x: T)
    requires x !in s
    ensures Without(s, x) == s
  {
    if s != [] {
      WithoutAbsent(s[1..], x);
      assert s == [s[0]] + s[1..];
    }
  }

  lemma WithoutNoDup<T>(s: seq<T>, x: T)
    requires NoDup(s)
    ensures NoDup(Without(s, x))
    ensures x !in Without(s, x)
    ensures forall y :: y in Without(s, x) <==> y in s && y != x
    ensures |Without(s, x)| == |s| - (if x in s then 1 else 0)
  {
    hide Without;
    if x in s {
      WithoutSplit(s, x);
      var k :| 0 <= k < |s| && s[k] == x && x !in s[..k] && Without(s, x) == s[..k] + s[k + 1..];
      var r := Without(s, x);
      forall y ensures y in r <==> y in s && y != x {
        if y in s && y != x {
          var i :| 0 <= i < |s| && s[i] == y;
          if i < k { assert r[i] == y; } else { assert r[i - 1] == y; }
        }
      }
    } else {
      WithoutAbsent(s, x);
    }
  }

  /** What comes before a surviving element after an erasure is what came before, minus the erased one. */
  lemma WithoutBefore<T>(s: seq<T>, x: T, j: nat, y: T)
    requires NoDup(s) && j < |Without(s, x)|
    requires exists i :: 0 <= i < |s| && s[i] == Without(s, x)[j] && y in s[..i]
    requires y != x
    ensures y in Without(s, x)[..j]
  {
    hide Without;
    var i :| 0 <= i < |s| && s[i] == Without(s, x)[j] && y in s[..i];
    if x in s {
      var k := FirstIndex(s, x);
      WithoutAt(s, x, k);
      SkipOne(s, k, j);
      var m := FirstIndex(s[..i], y);
      assert s[m] == y && i == if j < k then j else j + 1;
      SkipOne(s, k, if m < k then m else m - 1);
    } else {
      WithoutAbsent(s, x);
    }
  }

  lemma SkipOne<T>(s: seq<T>, k: nat, j: nat)
    requires k < |s| && j < |s| - 1
    ensures (s[..k] + s[k + 1..])[j] == s[if j < k then j else j + 1]
  {
  }

  function Range(n: nat): (r: set<nat>)
    ensures forall x: nat :: x in r <==> x < n
    ensures |r| == n
  {
    if n == 0 then {} else Range(n - 1) + {n - 1}
  }

  function Elems<T>(s: seq<T>): set<T> {
    set x | x in s
  }

  lemma {:induction false} ElemsCard<T>(s: seq<T>)
    ensures |Elems(s)| <= |s|
    ensures NoDup(s) ==> |Elems(s)| == |s|
  {
    if s != [] {
      ElemsCard(s[1..]);
      assert Elems(s) == {s[0]} + Elems(s[1..]);
    }
  }

  /** A duplicate-free list of exactly the numbers below `n` has length `n`. */
  lemma NoDupRange(s: seq<nat>, n: nat)
    requires NoDup(s) && forall x: nat :: x in s <==> x < n
    ensures |s| == n
  {
    ElemsCard(s);
    assert Elems(s) == Range(n);
  }

  /** A list that covers every number below `n` is at least that long. */
  lemma CoverRange(s: seq<nat>, n: nat)
    requires forall x: nat :: x < n ==> x in s
    ensures n <= |s|
  {
    ElemsCard(s);
    SubsetCard(Range(n), Elems(s));
  }

  lemma {:induction false} SubsetCard<T>(a: set<T>, b: set<T>)
    requires a <= b
    ensures |a| <= |b|
  {
    if a != {} {
      var x :| x in a;
      SubsetCard(a - {x}, b - {x});
    }
  }

  /** `l` is a subsequence of `r`. */
  ghost predicate IsSub<T(!new)>(l: seq<T>, r: seq<T>) {
    l == [] || (r != [] &&
      if l[|l| - 1] == r[|r| - 1] then IsSub(l[..|l| - 1], r[..|r| - 1]) else IsSub(l, r[..|r| - 1]))
  }

  lemma {:induction false} SubMembers<T(!new)>(l: seq<T>, r: seq<T>)
    requires IsSub(l, r)
    ensures forall x :: x in l ==> x in r
    ensures |l| <= |r|
    decreases |r|
  {
    if l != [] {
      var l0, r0 := l[..|l| - 1], r[..|r| - 1];
      if l[|l| - 1] == r[|r| - 1] {
        SubMembers(l0, r0);
        assert l == l0 + [l[|l| - 1]];
      } else {
        SubMembers(l, r0);
      }
    }
  }

  lemma {:induction false} SubNoDup<T(!new)>(l: seq<T>, r: seq<T>)
    requires IsSub(l, r) && NoDup(r)
    ensures NoDup(l)
    decreases |r|
  {
    if l != [] {
      var l0, r0 := l[..|l| - 1], r[..|r| - 1];
      if l[|l| - 1] == r[|r| - 1] {
        SubNoDup(l0, r0);
        SubMembers(l0, r0);
        assert forall i :: 0 <= i < |l0| ==> l[i] in l0;
        assert forall i :: 0 <= i < |r0| ==> r0[i] == r[i];
      } else {
        SubNoDup(l, r0);
      }
    }
  }

  lemma WithoutLast<T>(l: seq<T>)
    requires NoDup(l) && l != []
    ensures Without(l, l[|l| - 1]) == l[..|l| - 1]
  {
    var x := l[|l| - 1];
    WithoutSplit(l, x);
    var k :| 0 <= k < |l| && l[k] == x && x !in l[..k] && Without(l, x) == l[..k] + l[k + 1..];
  }

  /** Dropping the last element of `r` from a subsequence drops at most its last element. */
  lemma {:induction false} SubDropLast<T(!new)>(l: seq<T>, r: seq<T>)
    requires IsSub(l, r) && NoDup(r) && r != []
    ensures IsSub(Without(l, r[|r| - 1]), r[..|r| - 1])
    ensures r[|r| - 1] in l ==> l[|l| - 1] == r[|r| - 1] && Without(l, r[|r| - 1]) == l[..|l| - 1]
    ensures r[|r| - 1] !in l ==> Without(l, r[|r| - 1]) == l
  {
    var x, r0 := r[|r| - 1], r[..|r| - 1];
    assert x !in r0;
    SubNoDup(l, r);
    if l != [] && l[|l| - 1] == x {
      WithoutLast(l);
    } else {
      if l != [] { SubMembers(l, r0); }
      WithoutAbsent(l, x);
    }
  }

  /** Removing an element that is not in the subsequence keeps it one. */
  lemma {:induction false} SubRemoveOther<T(!new)>(l: seq<T>, r: seq<T>, i: nat)
    requires IsSub(l, r) && i < |r| && r[i] !in l
    ensures IsSub(l, r[..i] + r[i + 1..])
    decreases |r|
  {
    var r0 := r[..|r| - 1];
    var q := r[..i] + r[i + 1..];
    if l != [] {
      if i == |r| - 1 {
        assert q == r0;
      } else {
        assert q[|q| - 1] == r[|r| - 1] && q[..|q| - 1] == r0[..i] + r0[i + 1..];
        if l[|l| - 1] == r[|r| - 1] {
          SubRemoveOther(l[..|l| - 1], r0, i);
        } else {
          SubRemoveOther(l, r0, i);
        }
      }
    }
  }

  lemma {:induction false} SubSkip<T(!new)>(l: seq<T>, r: seq<T>)
    requires r != [] && IsSub(l, r[..|r| - 1])
    ensures IsSub(l, r) && IsSub(l + [r[|r| - 1]], r)
    decreases |r|, 0
  {
    assert (l + [r[|r| - 1]])[..|l|] == l;
    if l != [] && l[|l| - 1] == r[|r| - 1] {
      SubFront(l, r[..|r| - 1]);
    }
  }

  lemma {:induction false} SubFront<T(!new)>(l: seq<T>, r: seq<T>)
    requires l != [] && IsSub(l, r)
    ensures IsSub(l[..|l| - 1], r)
    decreases |r|, 1
  {
    var l0, r0 := l[..|l| - 1], r[..|r| - 1];
    if l[|l| - 1] == r[|r| - 1] {
      SubSkip(l0, r);
    } else {
      SubFront(l, r0);
      SubSkip(l0, r);
    }
  }

  lemma {:induction false} SubRefl<T(!new)>(l: seq<T>)
    ensures IsSub(l, l)
  {
    if l != [] {
      SubRefl(l[..|l| - 1]);
    }
  }

  lemma {:induction false} SubTrans<T(!new)>(a: seq<T>, b: seq<T>, c: seq<T>)
    requires IsSub(a, b) && IsSub(b, c)
    ensures IsSub(a, c)
    decreases |c|
  {
    if a != [] && b != [] {
      var a0, b0, c0 := a[..|a| - 1], b[..|b| - 1], c[..|c| - 1];
      if b[|b| - 1] == c[|c| - 1] {
        if a[|a| - 1] == b[|b| - 1] {
          SubTrans(a0, b0, c0);
        } else {
          SubTrans(a, b0, c0);
        }
      } else {
        SubTrans(a, b, c0);
        SubSkip(a, c);
      }
    }
  }

  lemma {:induction false} SubConcatLeft<T(!new)>(a: seq<T>, l: seq<T>, r: seq<T>)
    requires IsSub(l, r)
    ensures IsSub(a + l, a + r)
    decreases |r|
  {
    if r == [] {
      SubRefl(a);
      assert a + l == a && a + r == a;
    } else if l != [] && l[|l| - 1] == r[|r| - 1] {
      SubConcatLeft(a, l[..|l| - 1], r[..|r| - 1]);
      assert (a + l)[..|a + l| - 1] == a + l[..|l| - 1] && (a + r)[..|a + r| - 1] == a + r[..|r| - 1];
    } else {
      SubConcatLeft(a, l, r[..|r| - 1]);
      assert (a + r)[..|a + r| - 1] == a + r[..|r| - 1];
      SubSkip(a + l, a + r);
    }
  }

  lemma SubBoth<T(!new)>(l: seq<T>, r: seq<T>, x: T)
    requires IsSub(l, r)
    ensures IsSub(l + [x], r + [x])
  {
    assert (l + [x])[..|l|] == l && (r + [x])[..|r|] == r;
  }

  lemma {:induction false} SubConcatRight<T(!new)>(l: seq<T>, r: seq<T>, b: seq<T>)
    requires IsSub(l, r)
    ensures IsSub(l + b, r + b)
  {
    hide IsSub;
    if b == [] {
      assert l + b == l && r + b == r;
    } else {
      var n := |b| - 1;
      SubConcatRight(l, r, b[..n]);
      SubBoth(l + b[..n], r + b[..n], b[n]);
      assert l + b == (l + b[..n]) + [b[n]] && r + b == (r + b[..n]) + [b[n]];
    }
  }

  lemma SubWithout<T(!new)>(l: seq<T>, x: T)
    ensures IsSub(Without(l, x), l)
  {
    hide IsSub, Without;
    SubRefl(l);
    if x in l {
      WithoutSplit(l, x);
      var k :| 0 <= k < |l| && l[k] == x && x !in l[..k] && Without(l, x) == l[..k] + l[k + 1..];
      SubRefl(l[k + 1..]);
      SubPrefix(l[..k], [x]);
      SubConcatRight(l[..k], l[..k] + [x], l[k + 1..]);
      assert l[..k] + [x] + l[k + 1..] == l;
    } else {
      WithoutAbsent(l, x);
    }
  }

  lemma SubPrefix<T(!new)>(a: seq<T>, b: seq<T>)
    ensures IsSub(a, a + b)
  {
    SubNil(b);
    SubConcatLeft(a, [], b);
    assert a + [] == a;
  }

  lemma SubNil<T(!new)>(b: seq<T>)
    ensures IsSub([], b)
  {
  }

  lemma {:induction false} SubSameLength<T(!new)>(l: seq<T>, r: seq<T>)
    requires IsSub(l, r) && |l| == |r|
    ensures l == r
  {
    if l != [] {
      var l0, r0 := l[..|l| - 1], r[..|r| - 1];
      if l[|l| - 1] == r[|r| - 1] {
        SubSameLength(l0, r0);
        assert l == l0 + [l[|l| - 1]] && r == r0 + [r[|r| - 1]];
      } else {
        SubMembers(l, r0);
      }
    }
  }

  /** The members of `s` that satisfy `p`, in order. */
  ghost function Filter<T(!new)>(s: seq<T>, p: T -> bool): seq<T> {
    if s == [] then [] else Filter(s[..|s| - 1], p) + if p(s[|s| - 1]) then [s[|s| - 1]] else []
  }

  /** A subsequence of a duplicate-free list is determined by its members. */
  lemma {:induction false} SubIsFilter<T(!new)>(l: seq<T>, r: seq<T>, p: T -> bool)
    requires IsSub(l, r) && NoDup(r) && forall x :: x in l <==> x in r && p(x)
    ensures l == Filter(r, p)
  {
    if r != [] {
      var last, r0 := r[|r| - 1], r[..|r| - 1];
      assert r == r0 + [last] && last !in r0;
      SubDropLast(l, r);
      var l0 := Without(l, last);
      SubNoDup(l, r);
      WithoutNoDup(l, last);
      forall x ensures x in l0 <==> x in r0 && p(x) {
        assert x in r <==> x in r0 || x == last;
      }
      SubIsFilter(l0, r0, p);
      if last in l {
        assert l == l0 + [last];
      }
    } else {
      SubMembers(l, r);
    }
  }
}
