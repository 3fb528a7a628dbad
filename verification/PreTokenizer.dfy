/**
 The hand-written pre-tokenizer against the pattern it stands for. The pattern is given a leftmost-first
 backtracking semantics, in which every way to match is listed in the order a backtracking matcher tries
 it; the program's choice is proved to be the first of these at every position of every text. Text is a
 sequence of code points; letters, numbers and spaces are any three disjoint classes.
 */
module PreTokenizer {
  import opened Lists

  type Cp = nat

  /** The Unicode tables. */
  datatype Tables = Tables(letter: Cp -> bool, number: Cp -> bool, space: Cp -> bool)

  const Apostrophe: Cp := 0x27
  const Blank: Cp := 0x20

  predicate IsNewline(c: Cp) { c == 0x0D || c == 0x0A }

  ghost predicate ValidTables(t: Tables) {
    && (forall c :: !(t.letter(c) && t.number(c)) && !(t.letter(c) && t.space(c)) && !(t.number(c) && t.space(c)))
    && t.space(Blank) && t.space(0x0D) && t.space(0x0A)
  }

  /** ASCII case folding. */
  function Lower(c: Cp): Cp { if 0x41 <= c <= 0x5A then c + 32 else c }

  // ---- patterns and how they match ----

  datatype Class =
    | Exactly(c: Cp)      // one code point
    | Folded(c: Cp)       // one ASCII letter, either case
    | Letter | Number | Space | NonSpace | Newline
    | Prefix              // not a newline, letter or number
    | Mark                // not a space, letter or number

  predicate In(t: Tables, k: Class, c: Cp) {
    match k
    case Exactly(x) => c == x
    case Folded(x) => Lower(c) == x
    case Letter => t.letter(c)
    case Number => t.number(c)
    case Space => t.space(c)
    case NonSpace => !t.space(c)
    case Newline => IsNewline(c)
    case Prefix => !IsNewline(c) && !t.letter(c) && !t.number(c)
    case Mark => !t.space(c) && !t.letter(c) && !t.number(c)
  }

  predicate At(t: Tables, k: Class, s: seq<Cp>, i: nat) {
    i < |s| && In(t, k, s[i])
  }

  /** All repetitions are greedy. `NotNext` is a negative lookahead. */
  datatype Pattern =
    | One(k: Class) | Maybe(k: Class) | Star(k: Class) | Plus(k: Class) | NotNext(k: Class)
    | Cat(a: Pattern, b: Pattern) | Alt(a: Pattern, b: Pattern)

  /** The end of the longest run of a class from `i`. */
  function Run(t: Tables, k: Class, s: seq<Cp>, i: nat): (j: nat)
    requires i <= |s|
    ensures i <= j <= |s| && (forall m :: i <= m < j ==> At(t, k, s, m)) && !At(t, k, s, j)
    decreases |s| - i
  {
    if At(t, k, s, i) then Run(t, k, s, i + 1) else i
  }

  /** hi, hi - 1, ..., lo */
  function Down(hi: nat, lo: nat): (r: seq<nat>)
    ensures (r == []) <==> hi < lo
    ensures forall e :: e in r ==> lo <= e <= hi
    decreases hi
  {
    if hi < lo then [] else if hi == 0 then [0] else [hi] + Down(hi - 1, lo)
  }

  /** Where the pattern can end when it starts at `i`, in the order a backtracking matcher tries. */
  function Ends(t: Tables, p: Pattern, s: seq<Cp>, i: nat): (r: seq<nat>)
    requires i <= |s|
    ensures forall e :: e in r ==> i <= e <= |s|
    decreases p, 0
  {
    match p
    case One(k) => if At(t, k, s, i) then [i + 1] else []
    case Maybe(k) => if At(t, k, s, i) then [i + 1, i] else [i]
    case Star(k) => Down(Run(t, k, s, i), i)
    case Plus(k) => Down(Run(t, k, s, i), i + 1)
    case NotNext(k) => if At(t, k, s, i) then [] else [i]
    case Alt(a, b) => Ends(t, a, s, i) + Ends(t, b, s, i)
    case Cat(a, b) => EndsAfter(t, b, s, Ends(t, a, s, i), i)
  }

  function EndsAfter(t: Tables, p: Pattern, s: seq<Cp>, starts: seq<nat>, i: nat): (r: seq<nat>)
    requires i <= |s| && forall e :: e in starts ==> i <= e <= |s|
    ensures forall e :: e in r ==> i <= e <= |s|
    decreases p, 1, |starts|
  {
    if starts == [] then []
    else
      assert starts[0] in starts && forall e :: e in starts[1..] ==> e in starts;
      Ends(t, p, s, starts[0]) + EndsAfter(t, p, s, starts[1..], i)
  }

  function First(r: seq<nat>): Option<nat> {
    if r == [] then None else Some(r[0])
  }

  // ---- the split pattern ----

  function Word2(k: Class): Pattern { Cat(One(Exactly(Apostrophe)), One(k)) }
  function Word3(k: Class, l: Class): Pattern { Cat(One(Exactly(Apostrophe)), Cat(One(k), One(l))) }

  /** (?i:'s|'t|'re|'ve|'m|'ll|'d) */
  const Contraction: Pattern :=
    Alt(Word2(Folded(0x73)), Alt(Word2(Folded(0x74)), Alt(Word3(Folded(0x72), Folded(0x65)), Alt(Word3(Folded(0x76), Folded(0x65)),
        Alt(Word2(Folded(0x6D)), Alt(Word3(Folded(0x6C), Folded(0x6C)), Word2(Folded(0x64))))))))

  const Letters: Pattern := Cat(Maybe(Prefix), Plus(Letter))
  const Marks: Pattern := Cat(Maybe(Exactly(Blank)), Cat(Plus(Mark), Star(Newline)))
  const Lines: Pattern := Cat(Star(Space), Plus(Newline))
  const Trailing: Pattern := Cat(Plus(Space), NotNext(NonSpace))

  const Split: Pattern := Alt(Contraction, Alt(Letters, Alt(One(Number), Alt(Marks, Alt(Lines, Alt(Trailing, Plus(Space)))))))

  // ---- the program's choice at one position ----

  /** 2, 3, or 0 code points of a contraction. */
  function ContractionLen(s: seq<Cp>, i: nat): nat
    requires i < |s|
  {
    if s[i] != Apostrophe || i + 1 >= |s| then 0
    else
      var c1 := Lower(s[i + 1]);
      var c2 := if i + 2 < |s| then Lower(s[i + 2]) else 0;
      if c1 == 0x73 || c1 == 0x74 || c1 == 0x6D || c1 == 0x64 then 2
      else if (c1 == 0x72 && c2 == 0x65) || (c1 == 0x76 && c2 == 0x65) || (c1 == 0x6C && c2 == 0x6C) then 3
      else 0
  }

  /** The last newline in s[i..j), if any. */
  function LastNewline(s: seq<Cp>, i: nat, j: nat): (r: Option<nat>)
    requires i <= j <= |s|
    ensures r.Some? ==> i <= r.value < j && IsNewline(s[r.value]) && forall m :: r.value < m < j ==> !IsNewline(s[m])
    ensures r.None? ==> forall m :: i <= m < j ==> !IsNewline(s[m])
    decreases j
  {
    if i == j then None else if IsNewline(s[j - 1]) then Some(j - 1) else LastNewline(s, i, j - 1)
  }

  /** Where the piece that starts at `i` ends, branch by branch as the program decides it; `None` is its fallback. */
  function NextEnd(t: Tables, s: seq<Cp>, i: nat): Option<nat>
    requires i < |s|
  {
    var c := s[i];
    var j2 := if t.letter(c) then i else i + 1;
    var j4 := if c == Blank then i + 1 else i;
    if ContractionLen(s, i) > 0 then Some(i + ContractionLen(s, i))
    else if !IsNewline(c) && !t.number(c) && At(t, Letter, s, j2) then Some(Run(t, Letter, s, j2))
    else if t.number(c) then Some(i + 1)
    else if At(t, Mark, s, j4) then Some(Run(t, Newline, s, Run(t, Mark, s, j4)))
    else if t.space(c) then
      var j := Run(t, Space, s, i);
      match LastNewline(s, i, j)
      case Some(l) => Some(l + 1)
      case None => if j < |s| && j - i > 1 then Some(j - 1) else Some(j)
    else None
  }

  // ---- first matches ----

  lemma FirstAlt(t: Tables, a: Pattern, b: Pattern, s: seq<Cp>, i: nat)
    requires i <= |s|
    ensures First(Ends(t, Alt(a, b), s, i)) == if First(Ends(t, a, s, i)).Some? then First(Ends(t, a, s, i)) else First(Ends(t, b, s, i))
  {
  }

  /** The continuation is tried from each end of the first part in turn. */
  lemma FirstAfter(t: Tables, p: Pattern, s: seq<Cp>, starts: seq<nat>, i: nat)
    requires i <= |s| && starts != [] && forall e :: e in starts ==> i <= e <= |s|
    ensures starts[0] <= |s| && (forall e :: e in starts[1..] ==> i <= e <= |s|)
    ensures First(EndsAfter(t, p, s, starts, i)) ==
            if First(Ends(t, p, s, starts[0])).Some? then First(Ends(t, p, s, starts[0])) else First(EndsAfter(t, p, s, starts[1..], i))
  {
    assert starts[0] in starts;
    assert forall e :: e in starts[1..] ==> e in starts;
  }

  lemma FirstPlus(t: Tables, k: Class, s: seq<Cp>, i: nat)
    requires i <= |s|
    ensures First(Ends(t, Plus(k), s, i)) == if At(t, k, s, i) then Some(Run(t, k, s, i)) else None
  {
  }

  lemma FirstStar(t: Tables, k: Class, s: seq<Cp>, i: nat)
    requires i <= |s|
    ensures First(Ends(t, Star(k), s, i)) == Some(Run(t, k, s, i))
  {
  }

  lemma TwoOnes(t: Tables, k: Class, l: Class, s: seq<Cp>, i: nat)
    requires i <= |s|
    ensures Ends(t, Cat(One(k), One(l)), s, i) == if At(t, k, s, i) && At(t, l, s, i + 1) then [i + 2] else []
  {
    if At(t, k, s, i) {
      assert Ends(t, One(k), s, i) == [i + 1];
      assert EndsAfter(t, One(l), s, [i + 1], i) == Ends(t, One(l), s, i + 1) + [] by {
        assert [i + 1][1..] == [];
      }
    }
  }

  lemma ThreeOnes(t: Tables, k: Class, l: Class, m: Class, s: seq<Cp>, i: nat)
    requires i <= |s|
    ensures Ends(t, Cat(One(k), Cat(One(l), One(m))), s, i) == if At(t, k, s, i) && At(t, l, s, i + 1) && At(t, m, s, i + 2) then [i + 3] else []
  {
    if At(t, k, s, i) {
      TwoOnes(t, l, m, s, i + 1);
      assert EndsAfter(t, Cat(One(l), One(m)), s, [i + 1], i) == Ends(t, Cat(One(l), One(m)), s, i + 1) + [] by {
        assert [i + 1][1..] == [];
      }
    }
  }

  lemma FirstWords(t: Tables, s: seq<Cp>, i: nat, c1: Cp, c2: Cp)
    requires i < |s|
    ensures First(Ends(t, Word2(Folded(c1)), s, i)) == if s[i] == Apostrophe && i + 1 < |s| && Lower(s[i + 1]) == c1 then Some(i + 2) else None
    ensures First(Ends(t, Word3(Folded(c1), Folded(c2)), s, i)) ==
            if s[i] == Apostrophe && i + 2 < |s| && Lower(s[i + 1]) == c1 && Lower(s[i + 2]) == c2 then Some(i + 3) else None
  {
    TwoOnes(t, Exactly(Apostrophe), Folded(c1), s, i);
    ThreeOnes(t, Exactly(Apostrophe), Folded(c1), Folded(c2), s, i);
  }

  lemma FirstContraction(t: Tables, s: seq<Cp>, i: nat)
    requires i < |s|
    ensures First(Ends(t, Contraction, s, i)) == if ContractionLen(s, i) > 0 then Some(i + ContractionLen(s, i)) else None
  {
    hide Ends;
    var s2, t2, r3 := Word2(Folded(0x73)), Word2(Folded(0x74)), Word3(Folded(0x72), Folded(0x65));
    var v3, m2, l3, d2 := Word3(Folded(0x76), Folded(0x65)), Word2(Folded(0x6D)), Word3(Folded(0x6C), Folded(0x6C)), Word2(Folded(0x64));
    FirstWords(t, s, i, 0x73, 0);
    FirstWords(t, s, i, 0x74, 0);
    FirstWords(t, s, i, 0x72, 0x65);
    FirstWords(t, s, i, 0x76, 0x65);
    FirstWords(t, s, i, 0x6D, 0);
    FirstWords(t, s, i, 0x6C, 0x6C);
    FirstWords(t, s, i, 0x64, 0);
    FirstAlt(t, l3, d2, s, i);
    FirstAlt(t, m2, Alt(l3, d2), s, i);
    FirstAlt(t, v3, Alt(m2, Alt(l3, d2)), s, i);
    FirstAlt(t, r3, Alt(v3, Alt(m2, Alt(l3, d2))), s, i);
    FirstAlt(t, t2, Alt(r3, Alt(v3, Alt(m2, Alt(l3, d2)))), s, i);
    FirstAlt(t, s2, Alt(t2, Alt(r3, Alt(v3, Alt(m2, Alt(l3, d2))))), s, i);
  }

  /** An optional code point, then something: with the code point if that works, else without. */
  lemma FirstMaybe(t: Tables, k: Class, p: Pattern, s: seq<Cp>, i: nat)
    requires i <= |s|
    ensures First(Ends(t, Cat(Maybe(k), p), s, i)) ==
            if At(t, k, s, i) && First(Ends(t, p, s, i + 1)).Some? then First(Ends(t, p, s, i + 1)) else First(Ends(t, p, s, i))
  {
    var starts := Ends(t, Maybe(k), s, i);
    FirstAfter(t, p, s, starts, i);
    if At(t, k, s, i) {
      assert starts[1..] == [i];
      FirstAfter(t, p, s, starts[1..], i);
      assert starts[1..][1..] == [];
    } else {
      assert starts[1..] == [];
    }
  }

  lemma FirstLetters(t: Tables, s: seq<Cp>, i: nat)
    requires i < |s| && ValidTables(t)
    ensures var j := if t.letter(s[i]) then i else i + 1;
            First(Ends(t, Letters, s, i)) ==
            if !IsNewline(s[i]) && !t.number(s[i]) && At(t, Letter, s, j) then Some(Run(t, Letter, s, j)) else None
  {
    hide Ends;
    FirstMaybe(t, Prefix, Plus(Letter), s, i);
    FirstPlus(t, Letter, s, i);
    FirstPlus(t, Letter, s, i + 1);
  }

  /** Greedy repetition followed by something that matches from the longest repetition. */
  lemma FirstGreedy(t: Tables, k: Class, p: Pattern, s: seq<Cp>, i: nat)
    requires i <= |s| && At(t, k, s, i) && First(Ends(t, p, s, Run(t, k, s, i))).Some?
    ensures First(Ends(t, Cat(Plus(k), p), s, i)) == First(Ends(t, p, s, Run(t, k, s, i)))
  {
    FirstAfter(t, p, s, Ends(t, Plus(k), s, i), i);
  }

  lemma NoneWithout(t: Tables, k: Class, p: Pattern, s: seq<Cp>, i: nat)
    requires i <= |s| && !At(t, k, s, i)
    ensures First(Ends(t, Cat(Plus(k), p), s, i)) == None
  {
    assert Ends(t, Plus(k), s, i) == [];
  }

  lemma FirstMarkRun(t: Tables, s: seq<Cp>, i: nat)
    requires i <= |s|
    ensures First(Ends(t, Cat(Plus(Mark), Star(Newline)), s, i)) ==
            if At(t, Mark, s, i) then Some(Run(t, Newline, s, Run(t, Mark, s, i))) else None
  {
    hide Ends;
    if At(t, Mark, s, i) {
      FirstStar(t, Newline, s, Run(t, Mark, s, i));
      FirstGreedy(t, Mark, Star(Newline), s, i);
    } else {
      NoneWithout(t, Mark, Star(Newline), s, i);
    }
  }

  lemma FirstMarks(t: Tables, s: seq<Cp>, i: nat)
    requires i < |s| && ValidTables(t)
    ensures var j := if s[i] == Blank then i + 1 else i;
            First(Ends(t, Marks, s, i)) == if At(t, Mark, s, j) then Some(Run(t, Newline, s, Run(t, Mark, s, j))) else None
  {
    hide Ends;
    FirstMaybe(t, Exactly(Blank), Cat(Plus(Mark), Star(Newline)), s, i);
    FirstMarkRun(t, s, i);
    FirstMarkRun(t, s, i + 1);
  }

  /** Backing off from `hi`, the first place where a line break can be matched is just after the last newline. */
  lemma {:induction false} BackToNewline(t: Tables, s: seq<Cp>, i: nat, hi: nat)
    requires i <= hi <= |s| && (hi < |s| ==> !IsNewline(s[hi]))
    ensures First(EndsAfter(t, Plus(Newline), s, Down(hi, i), i)) ==
            match LastNewline(s, i, hi) case Some(l) => Some(l + 1) case None => None
    decreases hi
  {
    hide Ends;
    var starts := Down(hi, i);
    FirstAfter(t, Plus(Newline), s, starts, i);
    FirstPlus(t, Newline, s, hi);
    if hi == i {
      assert starts[1..] == [];
      assert EndsAfter(t, Plus(Newline), s, starts[1..], i) == [];
    } else {
      assert starts[1..] == Down(hi - 1, i);
      if IsNewline(s[hi - 1]) {
        FirstAfter(t, Plus(Newline), s, Down(hi - 1, i), i);
        FirstPlus(t, Newline, s, hi - 1);
        assert Run(t, Newline, s, hi - 1) == hi;
      } else {
        BackToNewline(t, s, i, hi - 1);
      }
    }
  }

  lemma FirstLines(t: Tables, s: seq<Cp>, i: nat)
    requires i < |s| && ValidTables(t)
    ensures First(Ends(t, Lines, s, i)) == match LastNewline(s, i, Run(t, Space, s, i)) case Some(l) => Some(l + 1) case None => None
  {
    var j := Run(t, Space, s, i);
    assert !At(t, Space, s, j);
    BackToNewline(t, s, i, j);
  }

  lemma FirstNotNext(t: Tables, k: Class, s: seq<Cp>, i: nat)
    requires i <= |s|
    ensures First(Ends(t, NotNext(k), s, i)) == if At(t, k, s, i) then None else Some(i)
  {
  }

  lemma PlusEnds(t: Tables, k: Class, p: Pattern, s: seq<Cp>, i: nat)
    requires i <= |s|
    ensures Ends(t, Cat(Plus(k), p), s, i) == EndsAfter(t, p, s, Down(Run(t, k, s, i), i + 1), i)
  {
  }

  lemma DownStep(hi: nat, lo: nat)
    requires lo > 0 && hi >= lo
    ensures Down(hi, lo) != [] && Down(hi, lo)[0] == hi && Down(hi, lo)[1..] == Down(hi - 1, lo)
  {
  }

  lemma NoStarts(t: Tables, p: Pattern, s: seq<Cp>, i: nat)
    requires i <= |s|
    ensures First(EndsAfter(t, p, s, [], i)) == None
  {
  }

  lemma FirstTrailing(t: Tables, s: seq<Cp>, i: nat)
    requires i < |s|
    ensures var j := Run(t, Space, s, i);
            First(Ends(t, Trailing, s, i)) ==
            if !t.space(s[i]) then None else if j == |s| then Some(j) else if j - i > 1 then Some(j - 1) else None
  {
    hide Ends, EndsAfter, Down, Run;
    var p := NotNext(NonSpace);
    var j := Run(t, Space, s, i);
    PlusEnds(t, Space, p, s, i);
    if !t.space(s[i]) {
      NoneWithout(t, Space, p, s, i);
    } else {
      assert At(t, Space, s, i);
      DownStep(j, i + 1);
      FirstAfter(t, p, s, Down(j, i + 1), i);
      FirstNotNext(t, NonSpace, s, j);
      if j < |s| {
        if j == i + 1 {
          NoStarts(t, p, s, i);
        } else {
          DownStep(j - 1, i + 1);
          FirstAfter(t, p, s, Down(j - 1, i + 1), i);
          FirstNotNext(t, NonSpace, s, j - 1);
          assert At(t, Space, s, j - 1);
        }
      }
    }
  }

  /** At every position the program makes the first choice of the backtracking matcher, and never falls back. */
  lemma FirstMatch(t: Tables, s: seq<Cp>, i: nat)
    requires i < |s| && ValidTables(t)
    ensures NextEnd(t, s, i).Some? && i < NextEnd(t, s, i).value <= |s|
    ensures First(Ends(t, Split, s, i)) == NextEnd(t, s, i)
  {
    hide Ends;
    FirstContraction(t, s, i);
    FirstLetters(t, s, i);
    FirstMarks(t, s, i);
    FirstLines(t, s, i);
    FirstTrailing(t, s, i);
    FirstPlus(t, Space, s, i);
    FirstNumber(t, s, i);
    FirstAlt(t, Trailing, Plus(Space), s, i);
    FirstAlt(t, Lines, Alt(Trailing, Plus(Space)), s, i);
    FirstAlt(t, Marks, Alt(Lines, Alt(Trailing, Plus(Space))), s, i);
    FirstAlt(t, One(Number), Alt(Marks, Alt(Lines, Alt(Trailing, Plus(Space)))), s, i);
    FirstAlt(t, Letters, Alt(One(Number), Alt(Marks, Alt(Lines, Alt(Trailing, Plus(Space))))), s, i);
    FirstAlt(t, Contraction, Alt(Letters, Alt(One(Number), Alt(Marks, Alt(Lines, Alt(Trailing, Plus(Space)))))), s, i);
    RunBeyond(t, s, i);
  }

  lemma FirstNumber(t: Tables, s: seq<Cp>, i: nat)
    requires i < |s|
    ensures First(Ends(t, One(Number), s, i)) == if t.number(s[i]) then Some(i + 1) else None
  {
  }

  lemma RunBeyond(t: Tables, s: seq<Cp>, i: nat)
    requires i < |s|
    ensures t.letter(s[i]) ==> Run(t, Letter, s, i) > i
    ensures t.space(s[i]) ==> Run(t, Space, s, i) > i
    ensures At(t, Mark, s, i) ==> Run(t, Mark, s, i) > i
  {
  }

  // ---- the whole text ----

  /** The pieces a matcher for the pattern produces from `i` on. */
  ghost function Pieces(t: Tables, s: seq<Cp>, i: nat): seq<seq<Cp>>
    requires i <= |s|
    decreases |s| - i
  {
    if i == |s| then []
    else
      match First(Ends(t, Split, s, i))
      case Some(e) => if i < e <= |s| then [s[i..e]] + Pieces(t, s, e) else []
      case None => []
  }

  function Concat(pieces: seq<seq<Cp>>): seq<Cp> {
    if pieces == [] then [] else pieces[0] + Concat(pieces[1..])
  }

  /** The pieces are not empty and put together again are the text. */
  lemma {:induction false} PiecesCover(t: Tables, s: seq<Cp>, i: nat)
    requires i <= |s| && ValidTables(t)
    ensures Concat(Pieces(t, s, i)) == s[i..]
    ensures forall k :: 0 <= k < |Pieces(t, s, i)| ==> Pieces(t, s, i)[k] != []
    decreases |s| - i
  {
    hide Ends, NextEnd;
    if i < |s| {
      FirstMatch(t, s, i);
      var e := NextEnd(t, s, i).value;
      PiecesCover(t, s, e);
      var rest := Pieces(t, s, e);
      assert Pieces(t, s, i) == [s[i..e]] + rest;
      assert ([s[i..e]] + rest)[1..] == rest;
      assert s[i..] == s[i..e] + s[e..];
    }
  }

  method FindRun(t: Tables, k: Class, s: seq<Cp>, i: nat) returns (j: nat)
    requires i <= |s|
    ensures j == Run(t, k, s, i)
  {
    j := i;
    while j < |s| && In(t, k, s[j])
      invariant i <= j <= |s| && Run(t, k, s, j) == Run(t, k, s, i)
    {
      j := j + 1;
    }
  }

  method FindLastNewline(s: seq<Cp>, i: nat, j: nat) returns (r: Option<nat>)
    requires i <= j <= |s|
    ensures r == LastNewline(s, i, j)
  {
    r := None;
    for k := i to j
      invariant r == LastNewline(s, i, k)
    {
      if IsNewline(s[k]) {
        r := Some(k);
      }
    }
  }

  /** One turn of the program's loop. */
  method NextPiece(t: Tables, s: seq<Cp>, i: nat) returns (e: nat)
    requires i < |s| && ValidTables(t)
    ensures i < e <= |s| && First(Ends(t, Split, s, i)) == Some(e)
  {
    hide Ends, ValidTables, Run, LastNewline;
    FirstMatch(t, s, i);
    var c := s[i];
    var n := ContractionLen(s, i);
    if n > 0 {
      return i + n;
    }
    if !IsNewline(c) && !t.number(c) {
      var j := if t.letter(c) then i else i + 1;
      if j < |s| && t.letter(s[j]) {
        e := FindRun(t, Letter, s, j);
        return;
      }
    }
    if t.number(c) {
      return i + 1;
    }
    var j := if c == Blank then i + 1 else i;
    if j < |s| && !t.space(s[j]) && !t.letter(s[j]) && !t.number(s[j]) {
      j := FindRun(t, Mark, s, j);
      e := FindRun(t, Newline, s, j);
      return;
    }
    j := FindRun(t, Space, s, i);
    var last := FindLastNewline(s, i, j);
    if last.Some? {
      return last.value + 1;
    }
    if j < |s| && j - i > 1 {
      return j - 1;
    }
    return j;
  }

  /** The program's split is the pattern's split. */
  method PreTokenize(t: Tables, s: seq<Cp>) returns (out: seq<seq<Cp>>)
    requires ValidTables(t)
    ensures out == Pieces(t, s, 0) && Concat(out) == s && forall k :: 0 <= k < |out| ==> out[k] != []
  {
    hide Ends, ValidTables;
    out := [];
    var i := 0;
    while i < |s|
      invariant i <= |s| && out + Pieces(t, s, i) == Pieces(t, s, 0)
      decreases |s| - i
    {
      var e := NextPiece(t, s, i);
      assert Pieces(t, s, i) == [s[i..e]] + Pieces(t, s, e);
      out := out + [s[i..e]];
      i := e;
    }
    PiecesCover(t, s, 0);
  }
}
