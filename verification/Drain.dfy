/**
 Termination despite preemption. With no further arrivals every turn of the loop with work pending
 lowers one natural number, under every lookahead and in both modes, except in one family of states of
 the static mode: all residents are finished and the batch is closed or nobody waits. There a turn
 changes nothing, so the engine drains if and only if it is not on its way there.
 */
module Drain {
  import opened Lists
  import opened Paging
  import opened BlockPool
  import opened Requests
  import opened PrefixCache
  import opened PrefixTree
  import opened CacheOps
  import opened Network
  import opened Contents
  import opened Reference
  import opened Scheduling
  import opened Roles
  import opened Safety
  import opened Steps
  import opened Progressing
  import opened Ledger
  import opened Engine
  import opened Fcfs
  import opened Admitting

  // ---- lists of digits, read as a number ----

  /** A leading 1 followed by the digits of `l` in base `b`. */
  function Val(b: nat, l: seq<nat>): nat {
    if l == [] then 1 else Span(b, Val(b, l[..|l| - 1])) + l[|l| - 1]
  }

  ghost predicate Digits(b: nat, l: seq<nat>) {
    forall i :: 0 <= i < |l| ==> l[i] < b
  }

  /** `l1` is smaller than `l` at the first place they differ. */
  ghost predicate LexLess(l1: seq<nat>, l: seq<nat>, p: nat) {
    |l1| == |l| && p < |l| && l1[p] < l[p] && forall i :: 0 <= i < p ==> l1[i] == l[i]
  }

  lemma {:induction false} LexVal(b: nat, l1: seq<nat>, l: seq<nat>, p: nat)
    requires b > 0 && Digits(b, l1) && Digits(b, l) && LexLess(l1, l, p)
    ensures Val(b, l1) < Val(b, l)
  {
    var n := |l| - 1;
    var f1, f := l1[..n], l[..n];
    if p == n {
      assert f1 == f;
    } else {
      LexVal(b, f1, f, p);
      SpanMono(b, Val(b, f1), Val(b, f));
    }
  }

  function Power(b: nat, n: nat): nat {
    if n == 0 then 1 else Span(b, Power(b, n - 1))
  }

  lemma {:induction false} SpanAdd(b: nat, x: nat, y: nat)
    ensures Span(b, x + y) == Span(b, x) + Span(b, y)
  {
    if y > 0 {
      SpanAdd(b, x, y - 1);
    }
  }

  lemma {:induction false} SpanDouble(b: nat, k: nat)
    requires b >= 2
    ensures Span(b, k) >= k + k
  {
    if k > 0 {
      SpanDouble(b, k - 1);
    }
  }

  lemma {:induction false} ValRange(b: nat, l: seq<nat>)
    requires b > 0 && Digits(b, l)
    ensures Power(b, |l|) <= Val(b, l) < Power(b, |l|) + Power(b, |l|)
  {
    if l != [] {
      var n := |l| - 1;
      var f := l[..n];
      ValRange(b, f);
      var q := Power(b, n);
      SpanMono(b, q, Val(b, f));
      SpanMono(b, Val(b, f) + 1, q + q);
      SpanAdd(b, q, q);
    }
  }

  lemma {:induction false} PowerMono(b: nat, m: nat, n: nat)
    requires b >= 2 && m <= n
    ensures Power(b, m) <= Power(b, n)
  {
    if m < n {
      PowerMono(b, m, n - 1);
      SpanDouble(b, Power(b, n - 1));
    }
  }

  lemma ShorterVal(b: nat, l1: seq<nat>, l: seq<nat>)
    requires b >= 2 && Digits(b, l1) && Digits(b, l) && |l1| < |l|
    ensures Val(b, l1) < Val(b, l)
  {
    ValRange(b, l1);
    ValRange(b, l);
    SpanDouble(b, Power(b, |l1|));
    PowerMono(b, |l1| + 1, |l|);
  }

  // ---- the work a sequence has left ----

  function Cap(c: Config): nat {
    Span(c.kv.blockSize, c.kv.numBlocks)
  }

  function Sub(a: int, b: int): nat {
    if a >= b then a - b else 0
  }

  /** Tokens still to generate, then tokens still to compute; nothing once it is finished. */
  function Rank(c: Config, s: Sequence): nat {
    if IsFinished(s) then 0
    else Span(Cap(c) + 1, Sub(s.promptLen + s.params.maxTokens, |s.tokens|)) + Sub(|s.tokens|, s.computed)
  }

  function Base(c: Config): nat {
    Span(Cap(c) + 1, Cap(c) + 1) + 2
  }

  function Ranks(c: Config, y: Sys, ids: seq<Id>): (r: seq<nat>)
    ensures |r| == |ids| && forall i :: 0 <= i < |ids| ==> r[i] == Rank(c, Lookup(y, ids[i]))
  {
    if ids == [] then [] else Ranks(c, y, ids[..|ids| - 1]) + [Rank(c, Lookup(y, ids[|ids| - 1]))]
  }

  function Flag(b: bool): nat {
    if b then 1 else 0
  }

  /** Whether no resident is live, whether a batch is open, then the remaining work along the line. */
  ghost function Spelled(c: Config, y: Sys): (r: seq<nat>)
    ensures |r| == 2 + |Line(y)|
  {
    [Flag(!AnyLive(y)), Flag(y.batchOpen)] + Ranks(c, y, Line(y))
  }

  /** The number that goes down on every turn. */
  ghost function Measure(c: Config, y: Sys): nat {
    Val(Base(c), Spelled(c, y))
  }

  lemma RankBound(c: Config, s: Sequence)
    requires WellFormed(s) && s.promptLen + s.params.maxTokens <= Cap(c) && (IsFinished(s) || |s.tokens| <= Cap(c))
    ensures Rank(c, s) < Base(c)
  {
    var k := Cap(c) + 1;
    var rem := Sub(s.promptLen + s.params.maxTokens, |s.tokens|);
    SpanMono(k, rem + 1, k);
  }

  lemma InLine(w: World, c: Config, cache: seq<seq<KV>>, y: Sys, id: Id)
    requires id in Line(y) && SysInv(w, c, cache, y, [])
    ensures (id in y.running || id in y.waiting) && id in y.seqs && WellFormed(y.seqs[id]) && Lookup(y, id) == y.seqs[id]
  {
    hide KvOk, InPlay, Live, RefOf, Span;
    assert id in y.running || id in y.waiting;
    InQueues(w, c, cache, y, [], id);
  }

  lemma DigitsOk(w: World, c: Config, cache: seq<seq<KV>>, y: Sys)
    requires SysInv(w, c, cache, y, []) && Capacity(c, y) && Base(c) >= 2
    ensures Digits(Base(c), Spelled(c, y))
  {
    hide SysInv, Rank, Base, AnyLive;
    forall i | 0 <= i < |Line(y)| ensures Rank(c, Lookup(y, Line(y)[i])) < Base(c) {
      var id := Line(y)[i];
      InLine(w, c, cache, y, id);
      if !IsFinished(y.seqs[id]) { TokensFit(w, c, cache, y, id); }
      RankBound(c, y.seqs[id]);
    }
  }

  lemma ShorterLowers(w: World, c: Config, cache: seq<seq<KV>>, cache1: seq<seq<KV>>, y: Sys, y1: Sys)
    requires SysInv(w, c, cache, y, []) && SysInv(w, c, cache1, y1, []) && Capacity(c, y) && Capacity(c, y1)
    requires |Line(y1)| < |Line(y)| && Base(c) >= 2
    ensures Measure(c, y1) < Measure(c, y)
  {
    hide SysInv, Base, Capacity, Val, Spelled;
    DigitsOk(w, c, cache, y);
    DigitsOk(w, c, cache1, y1);
    ShorterVal(Base(c), Spelled(c, y1), Spelled(c, y));
  }

  lemma EarlierLowers(w: World, c: Config, cache: seq<seq<KV>>, cache1: seq<seq<KV>>, y: Sys, y1: Sys, p: nat)
    requires SysInv(w, c, cache, y, []) && SysInv(w, c, cache1, y1, []) && Capacity(c, y) && Capacity(c, y1)
    requires LexLess(Spelled(c, y1), Spelled(c, y), p) && Base(c) >= 2
    ensures Measure(c, y1) < Measure(c, y)
  {
    hide SysInv, Base, Capacity, Val, Spelled;
    DigitsOk(w, c, cache, y);
    DigitsOk(w, c, cache1, y1);
    LexVal(Base(c), Spelled(c, y1), Spelled(c, y), p);
  }

  // ---- settling the residents ----

  /** Whoever left the line was finished. */
  ghost predicate Staying(y: Sys, y1: Sys) {
    forall x :: x in Line(y) && x in y.seqs ==> x in Line(y1) || IsFinished(y.seqs[x])
  }

  /** Making room keeps the line, or drops finished members from it. */
  ghost predicate Placing(y: Sys, y1: Sys) {
    && SameRequests(y, y1) && Staying(y, y1) && y1.batchOpen == y.batchOpen && |Line(y1)| <= |Line(y)|
    && (forall x :: x in y.seqs && x in y1.seqs ==> (IsFinished(y1.seqs[x]) <==> IsFinished(y.seqs[x])))
    && (|Line(y1)| < |Line(y)| || Settled(y, y1))
  }

  lemma PlacingTrans(y: Sys, y1: Sys, y2: Sys)
    requires Placing(y, y1) && Placing(y1, y2) && NoDup(Line(y))
    requires forall x :: x in y.running || x in y.waiting ==> x in y.seqs
    ensures Placing(y, y2)
  {
    hide Settled, Line, NoDup;
    if |Line(y2)| == |Line(y)| { SettledTrans(y, y1, y2); }
  }

  lemma GrowPlaces(y: Sys, y1: Sys, id: Id)
    requires id in y.seqs && id in y1.seqs && y1 == y.(pool := y1.pool, seqs := y.seqs[id := y.seqs[id].(table := y1.seqs[id].table)])
    ensures Placing(y, y1) && (AnyLive(y) <==> AnyLive(y1))
  {
    hide AnyLive;
    SameLive(y, y1);
  }

  lemma SameLive(y: Sys, y1: Sys)
    requires y1.running == y.running && forall x :: IsFinished(Lookup(y1, x)) <==> IsFinished(Lookup(y, x))
    ensures AnyLive(y1) <==> AnyLive(y)
  {
    if i :| 0 <= i < |y.running| && !IsFinished(Lookup(y, y.running[i])) {
      assert !IsFinished(Lookup(y1, y1.running[i]));
    }
    if i :| 0 <= i < |y1.running| && !IsFinished(Lookup(y1, y1.running[i])) {
      assert !IsFinished(Lookup(y, y.running[i]));
    }
  }

  /** Releasing a finished resident shortens the line and costs no live one its place. */
  lemma ReleasePlaces(w: World, c: Config, cache: seq<seq<KV>>, y: Sys)
    requires y.running != [] && LastFinished(y, |y.running|).Some? && SysInv(w, c, cache, y, [])
    ensures Placing(y, Evict(c, y)) && (AnyLive(y) ==> AnyLive(Evict(c, y)))
  {
    hide *;
    EvictShape(w, c, cache, y);
    var v, y1 := Victim(y).value, Evict(c, y);
    RunningKnown(w, c, cache, y, v);
    ReleasedIs(c, y);
    FinishedLeaves(y, y1, v);
    LiveWithout(y, y1, v);
  }

  lemma ReleasedIs(c: Config, y: Sys)
    requires LastFinished(y, |y.running|).Some?
    ensures Victim(y).Some? && IsFinished(Lookup(y, Victim(y).value))
    ensures var v, y1 := Victim(y).value, Evict(c, y);
            v in y.seqs ==> v in y1.seqs && y1.seqs == y.seqs[v := y1.seqs[v]] && y1.seqs[v] == y.seqs[v].(table := EmptyTable) && y1.batchOpen == y.batchOpen
  {
    hide Free;
  }

  lemma FinishedLeaves(y: Sys, y1: Sys, v: Id)
    requires v in y.seqs && v in y1.seqs && IsFinished(y.seqs[v]) && y1.seqs == y.seqs[v := y1.seqs[v]] && y1.seqs[v] == y.seqs[v].(table := EmptyTable)
    requires ReleasedFinished(y, y1, v) && y1.batchOpen == y.batchOpen && (forall x :: x in y1.running <==> x in y.running && x != v)
    ensures Placing(y, y1)
  {
    forall x | x in Line(y) && x in y.seqs ensures x in Line(y1) || IsFinished(y.seqs[x]) {
      assert x in y.running || x in y.waiting;
    }
  }

  lemma LiveWithout(y: Sys, y1: Sys, v: Id)
    requires v in y.seqs && v in y1.seqs && IsFinished(y.seqs[v]) && y1.seqs == y.seqs[v := y1.seqs[v]] && (forall x :: x in y1.running <==> x in y.running && x != v)
    ensures AnyLive(y) ==> AnyLive(y1)
  {
    if i :| 0 <= i < |y.running| && !IsFinished(Lookup(y, y.running[i])) {
      var x := y.running[i];
      assert x in y1.running;
      var k :| 0 <= k < |y1.running| && y1.running[k] == x;
      assert !IsFinished(Lookup(y1, y1.running[k]));
    }
  }

  /** Preempting the youngest keeps the line, and a live resident if there were two. */
  lemma PreemptPlaces(w: World, c: Config, cache: seq<seq<KV>>, y: Sys)
    requires y.running != [] && LastFinished(y, |y.running|).None? && SysInv(w, c, cache, y, [])
    ensures Placing(y, Evict(c, y)) && (|y.running| > 1 ==> AnyLive(Evict(c, y)))
  {
    hide SysInv, Free, Settled;
    PreemptSettled(w, c, cache, y);
    EvictShape(w, c, cache, y);
    var v, y1 := Victim(y).value, Evict(c, y);
    RunningKnown(w, c, cache, y, v);
    SettledIs(y, y1);
    if |y.running| > 1 {
      assert y1.running[0] == y.running[0] && y.running[0] in y1.running;
      assert !IsFinished(Lookup(y1, y1.running[0]));
    }
  }

  lemma SettledIs(y: Sys, y1: Sys)
    requires Settled(y, y1)
    ensures SameRequests(y, y1) && Line(y1) == Line(y) && y1.running <= y.running
  {
  }

  lemma {:induction false} PlaceLive(w: World, c: Config, cache: seq<seq<KV>>, y: Sys, mid: seq<Id>, dec: seq<Id>, i: nat)
    requires ValidConfig(c.kv) && SysInv(w, c, cache, y, []) && Candidates(c, y, mid, dec, i) && Capacity(c, y)
    ensures var y1 := PlaceDecodes(c, y, mid, dec, i).0; Placing(y, y1) && (AnyLive(y) ==> AnyLive(y1))
    decreases |y.running|, |dec| - i
  {
    hide SysInv, Candidates, GrowFor, Victim, Evict, Capacity, NoDup, Line, Placing, AnyLive, LastFinished;
    if i < |dec| {
      CandidateHere(c, y, mid, dec, i);
      GrowForKeeps(w, c, cache, y, dec[i]);
      LineNoDup(w, c, cache, y);
      var (y1, ok) := GrowFor(c, y, dec[i]);
      if ok {
        GrowCandidates(c, y, y1, mid, dec, i);
        GrowPlaces(y, y1, dec[i]);
        CapacityPlaced(c, y, y1);
        PlaceLive(w, c, cache, y1, mid, dec, i + 1);
        PlacingTrans(y, y1, PlaceDecodes(c, y1, mid, dec, i + 1).0);
      } else {
        EvictCandidates(w, c, cache, y, mid, dec, i);
        EvictKeeps(w, c, cache, y);
        EvictShape(w, c, cache, y);
        var v, y2 := Victim(y).value, Evict(c, y);
        EvictPlaces(w, c, cache, y, dec[i]);
        CapacityPlaced(c, y, y2);
        PlaceLive(w, c, cache, y2, Without(mid, v), Without(dec, v), i);
        PlacingTrans(y, y2, PlaceDecodes(c, y2, Without(mid, v), Without(dec, v), i).0);
      }
    } else {
      PlacingSame(y);
    }
  }

  /** An eviction for a resident that could not grow leaves somebody live. */
  lemma EvictPlaces(w: World, c: Config, cache: seq<seq<KV>>, y: Sys, id: Id)
    requires ValidConfig(c.kv) && id in y.running && SysInv(w, c, cache, y, []) && Capacity(c, y) && !IsFinished(Lookup(y, id)) && !GrowFor(c, y, id).1
    ensures Placing(y, Evict(c, y)) && (AnyLive(y) ==> AnyLive(Evict(c, y)))
  {
    hide SysInv, GrowFor, Evict, Capacity, Placing, AnyLive, LastFinished;
    if LastFinished(y, |y.running|).Some? {
      ReleasePlaces(w, c, cache, y);
    } else {
      PreemptPlaces(w, c, cache, y);
      if |y.running| == 1 {
        assert y.running == [id];
        LoneGrows(w, c, cache, y, id);
      }
    }
  }

  lemma CapacityPlaced(c: Config, y: Sys, y1: Sys)
    requires Capacity(c, y) && Placing(y, y1)
    ensures Capacity(c, y1)
  {
    hide Line, Span, Settled, Staying;
  }

  lemma PlacingSame(y: Sys)
    ensures Placing(y, y)
  {
    SettledSame(y);
  }

  /** What settling does, whatever it evicts. */
  lemma SettleLive(w: World, c: Config, cache: seq<seq<KV>>, y: Sys)
    requires ValidConfig(c.kv) && SysInv(w, c, cache, y, []) && Capacity(c, y)
    ensures var y1 := Settle(c, y).0; Placing(Started(c, y), y1) && Capacity(c, y1) && (AnyLive(y) ==> AnyLive(y1))
  {
    hide SysInv, Candidates, PlaceDecodes, MidPrefill, Decoding, Placing, AnyLive;
    var y0 := Started(c, y);
    StatsOnly(w, c, cache, y, y0, []);
    StartCandidates(w, c, cache, y0);
    SameLive(y, y0);
    PlaceLive(w, c, cache, y0, MidPrefill(y0, y0.running), Decoding(y0, y0.running), 0);
    CapacityPlaced(c, y0, Settle(c, y).0);
  }

  // ---- who gets a slice ----

  ghost predicate Sliced(slices: seq<Slice>, id: Id) {
    exists k :: 0 <= k < |slices| && slices[k].id == id
  }

  lemma {:induction false} FirstSliced(slices: seq<Slice>, ids: seq<Id>, n: nat) returns (p: nat)
    requires n <= |ids| && exists i :: 0 <= i < n && Sliced(slices, ids[i])
    ensures p < n && Sliced(slices, ids[p]) && forall i :: 0 <= i < p ==> !Sliced(slices, ids[i])
    decreases n
  {
    if exists i :: 0 <= i < n - 1 && Sliced(slices, ids[i]) {
      p := FirstSliced(slices, ids, n - 1);
    } else {
      p := n - 1;
    }
  }

  /** The decode slices follow the prefill slices, in candidate order. */
  ghost predicate StepSuffix(front: seq<Slice>, dec: seq<Id>, slices: seq<Slice>) {
    front <= slices && |slices| == |front| + |dec| && forall k :: 0 <= k < |dec| ==> slices[|front| + k].id == dec[k]
  }

  lemma {:induction false} DecodeSuffix(y: Sys, dec: seq<Id>, j: nat, step: Step)
    requires j <= |dec|
    ensures StepSuffix(step.slices, dec[j..], DecodeSlices(y, dec, j, step).slices)
    decreases |dec| - j
  {
    if j < |dec| {
      var sl := Slice(dec[j], Lookup(y, dec[j]).computed, 1, true, false);
      var step1 := step.(slices := step.slices + [sl], decodeTokens := step.decodeTokens + 1, logits := step.logits + 1);
      DecodeSuffix(y, dec, j + 1, step1);
      assert dec[j..] == [dec[j]] + dec[j + 1..];
      var slices := DecodeSlices(y, dec, j, step).slices;
      forall k | 0 <= k < |dec[j..]| ensures slices[|step.slices| + k].id == dec[j..][k] {
        if k > 0 { assert slices[|step1.slices| + (k - 1)].id == dec[j + 1..][k - 1]; }
      }
    }
  }

  /** The step works on resident `p`, and everyone before it is untouched. */
  ghost predicate WorksAt(y: Sys, y1: Sys, slices: seq<Slice>, p: nat) {
    && p < |y.running| && p < |y1.running|
    && (forall i :: 0 <= i <= p ==> y1.running[i] == y.running[i] && y.running[i] in y.seqs && y.running[i] in y1.seqs)
    && (forall i :: 0 <= i < p ==> !Sliced(slices, y.running[i]) && SameStanding(y.seqs[y.running[i]], y1.seqs[y.running[i]]))
    && Sliced(slices, y.running[p]) && SameStanding(y.seqs[y.running[p]], y1.seqs[y.running[p]])
  }

  predicate SameStanding(s: Sequence, s1: Sequence) {
    SameWork(s, s1) && (IsFinished(s1) <==> IsFinished(s))
  }

  /** A step that slices a survivor works on the first one it slices. */
  lemma ResidentsWork(y: Sys, y0: Sys, y1: Sys, y3: Sys, slices: seq<Slice>) returns (p: nat)
    requires y0.seqs == y.seqs && y0.running == y.running && Placing(y0, y1) && Settled(y0, y1) && SameResidents(y1, y3)
    requires forall x :: x in y.running ==> x in y.seqs
    requires exists k :: 0 <= k < |slices| && slices[k].id in y1.running
    ensures WorksAt(y, y3, slices, p)
  {
    var k :| 0 <= k < |slices| && slices[k].id in y1.running;
    var i :| 0 <= i < |y1.running| && y1.running[i] == slices[k].id;
    assert Sliced(slices, y1.running[i]);
    p := FirstSliced(slices, y1.running, |y1.running|);
    forall j | 0 <= j <= p
      ensures y3.running[j] == y.running[j] == y1.running[j] && y.running[j] in y.seqs && y.running[j] in y3.seqs
      ensures SameStanding(y.seqs[y.running[j]], y3.seqs[y.running[j]])
    {
      assert y1.running[j] in y1.running && y.running[j] == y1.running[j] && y.running[j] in y.running;
    }
  }

  /** Some live survivor gets a slice. */
  lemma SurvivorSliced(w: World, c: Config, cache: seq<seq<KV>>, y1: Sys, mid: seq<Id>, dec0: seq<Id>, dec: seq<Id>, step1: Step, step3: Step, y3: Sys)
    requires AnyLive(y1) && SysInv(w, c, cache, y1, []) && Candidates(c, y1, mid, dec0, |dec0|)
    requires mid != [] ==> step1.slices != [] && step1.slices[0].id == mid[0]
    requires mid == [] && dec0 != [] ==> dec != [] && dec[0] == dec0[0]
    requires step1.slices <= step3.slices && StepSuffix(step3.slices, dec, DecodeSlices(y3, dec, 0, step3).slices)
    ensures exists k :: 0 <= k < |DecodeSlices(y3, dec, 0, step3).slices| && DecodeSlices(y3, dec, 0, step3).slices[k].id in y1.running
  {
    hide SysInv, IsSub, DecodeSlices, PrefillDone;
    var slices := DecodeSlices(y3, dec, 0, step3).slices;
    SubMembers(mid, y1.running);
    SubMembers(dec0, y1.running);
    var i :| 0 <= i < |y1.running| && !IsFinished(Lookup(y1, y1.running[i]));
    RunningKnown(w, c, cache, y1, y1.running[i]);
    if mid != [] {
      assert slices[0].id == mid[0];
    } else {
      assert slices[|step3.slices|].id == dec[0];
    }
  }

  /** If the queue lost nobody, nobody was late. */
  lemma ExpireNothing(c: Config, y: Sys, late: set<Id>)
    requires |Punctual(y, y.waiting, late)| == |y.waiting|
    ensures ExpireQueue(c, y, late) == y
  {
    hide IsSub;
    ExpiredLengths(y, y.waiting, late);
    PunctualIsSub(y, y.waiting, late);
    SubSameLength(Punctual(y, y.waiting, late), y.waiting);
  }

  lemma PunctualShorter(y: Sys, ids: seq<Id>, late: set<Id>)
    ensures |Punctual(y, ids, late)| <= |ids|
  {
    ExpiredLengths(y, ids, late);
  }

  lemma EmptyMidBudget(c: Config, y: Sys, mid: seq<Id>)
    ensures mid == [] ==> PrefillSlices(c, y, mid, 0, EmptyStep, c.maxBatchedTokens) == (EmptyStep, c.maxBatchedTokens)
  {
  }

  // ---- admission ----

  /** Nobody ended; somebody joined exactly if the first try admits; a static batch is closed when it must be. */
  ghost predicate Onwards(c: Config, y: Sys, y1: Sys, admits: bool, step: Step, step1: Step, budget: int) {
    && SameRequests(y, y1) && SameMembers(y, y1) && SameResidents(y, y1) && (y1.batchOpen ==> y.batchOpen)
    && (admits ==> |y1.running| > |y.running| && AnyLive(y1) && |step1.slices| > |step.slices|)
    && (!admits ==> y1.running == y.running && step1 == step)
    && (!admits && !c.continuous && y.waiting != [] && y.running != [] && budget > 0 ==> !y1.batchOpen)
  }

  /** The head was turned away. */
  ghost predicate HeadGone(y: Sys, y1: Sys) {
    && y.running == [] && y1.running == [] && y.waiting != [] && y1.waiting == y.waiting[1..] && y1.seqs.Keys == y.seqs.Keys
    && y.waiting[0] in y1.seqs && y1.seqs[y.waiting[0]].finish == Abort
    && (forall x :: x in y.seqs ==> y1.seqs[x].promptLen == y.seqs[x].promptLen && y1.seqs[x].params == y.seqs[x].params)
  }

  /** Does the first try of this round admit anybody? */
  predicate Admits(c: Config, y: Sys, step: Step, budget: int)
    requires ValidConfig(c.kv)
  {
    AdmitOne(c, BumpWaits(y, 0), step, budget).admitted
  }

  /** Admission, before a static batch is closed and the head turned away. */
  lemma AdmitBumped(w: World, c: Config, cache: seq<seq<KV>>, y: Sys, step: Step, budget: int)
    requires ValidConfig(c.kv) && 0 <= budget && |y.running| <= c.maxNumSeqs && SysInv(w, c, cache, y, []) && Building(c, y, step)
    ensures var (y1, step1, budget1) := AdmitAll(c, BumpWaits(y, 0), step, budget);
            && SysInv(w, c, cache, y1, []) && Joined(y, y1)
            && (if Admits(c, y, step, budget) then |y1.running| > |y.running| && |step1.slices| > |step.slices|
                else y1.running == y.running && y1.waiting == y.waiting && step1 == step && budget1 == budget)
  {
    hide SysInv, Building, AdmitAll, BumpWaits, Joined, AdmitOne;
    var y0 := BumpWaits(y, 0);
    BumpKeeps(w, c, cache, y, 0);
    BumpPool(y, 0);
    BumpJoins(w, c, cache, y, 0);
    BuildingFrame(c, y, y0, step);
    AdmitAllKeeps(w, c, cache, y0, step, budget);
    AdmitAllJoins(w, c, cache, y0, step, budget);
    JoinedOn(w, c, cache, y, y0, AdmitAll(c, y0, step, budget).0);
  }

  lemma AdmissionsAre(c: Config, y: Sys, dec: seq<Id>, step: Step, budget: int)
    requires ValidConfig(c.kv)
    ensures var (y1, step1, budget1) := AdmitAll(c, BumpWaits(y, 0), step, budget);
            Admissions(c, y, dec, step, budget) == (RejectHead(c, CloseBatch(c, y1, budget1), dec), step1)
  {
    hide AdmitAll, RejectHead, CloseBatch;
  }

  lemma AdmissionsOnward(w: World, c: Config, cache: seq<seq<KV>>, y: Sys, dec: seq<Id>, step: Step, budget: int)
    requires ValidConfig(c.kv) && 0 <= budget && |y.running| <= c.maxNumSeqs && SysInv(w, c, cache, y, []) && Building(c, y, step)
    ensures var (y1, step1) := Admissions(c, y, dec, step, budget); var admits := Admits(c, y, step, budget);
            if !admits && y.running == [] && y.waiting != [] && dec == [] then HeadGone(y, y1) && step1 == step
            else Onwards(c, y, y1, admits, step, step1, budget)
  {
    hide SysInv, Building, AdmitAll, BumpWaits, Joined, Admits, HeadGone, RejectHead, CloseBatch, Onwards;
    AdmissionsAre(c, y, dec, step, budget);
    AdmitBumped(w, c, cache, y, step, budget);
    var (y1, step1, budget1) := AdmitAll(c, BumpWaits(y, 0), step, budget);
    var y2 := CloseBatch(c, y1, budget1);
    CloseIs(c, y1, budget1);
    JoinedParts(y, y1);
    if !Admits(c, y, step, budget) && y.running == [] && y.waiting != [] && dec == [] {
      WaitingEmpty(w, c, cache, y1, y1.waiting[0]);
      JoinedKeys(y, y1);
      HeadLeaves(c, y, y1, y2, dec);
    } else {
      RejectNobody(c, y2, dec);
      JoinedServes(c, y, y1, budget1, Admits(c, y, step, budget), step, step1, budget);
    }
  }

  lemma CloseIs(c: Config, y: Sys, budget: int)
    ensures var y1 := CloseBatch(c, y, budget);
            && y1 == y.(batchOpen := y1.batchOpen) && (y1.batchOpen ==> y.batchOpen)
            && (!c.continuous && y.waiting != [] && y.running != [] && budget > 0 ==> !y1.batchOpen)
  {
  }

  lemma RejectNobody(c: Config, y: Sys, dec: seq<Id>)
    requires y.waiting == [] || y.running != [] || dec != []
    ensures RejectHead(c, y, dec) == y
  {
  }

  lemma JoinedKeys(y: Sys, y1: Sys)
    requires Joined(y, y1)
    ensures SameRequests(y, y1)
  {
  }

  lemma HeadLeaves(c: Config, y: Sys, y1: Sys, y2: Sys, dec: seq<Id>)
    requires SameRequests(y, y1) && y1.running == y.running == [] && y1.waiting == y.waiting != [] && y.waiting[0] in y1.seqs && dec == []
    requires y2 == y1.(batchOpen := y2.batchOpen)
    ensures HeadGone(y, RejectHead(c, y2, dec))
  {
    hide Retire;
    RetireFrame(c, y2.(waiting := y2.waiting[1..]), y2.waiting[0], Abort);
  }

  lemma JoinedServes(c: Config, y: Sys, y1: Sys, budget1: int, admits: bool, step: Step, step1: Step, budget: int)
    requires Joined(y, y1)
    requires if admits then |y1.running| > |y.running| && |step1.slices| > |step.slices|
             else y1.running == y.running && y1.waiting == y.waiting && step1 == step && budget1 == budget
    ensures Onwards(c, y, CloseBatch(c, y1, budget1), admits, step, step1, budget)
  {
    hide AnyLive;
    CloseLive(c, y1, budget1);
  }

  lemma JoinedParts(y: Sys, y1: Sys)
    requires Joined(y, y1)
    ensures SameRequests(y, y1) && SameMembers(y, y1) && SameResidents(y, y1) && y1.batchOpen == y.batchOpen
    ensures |y1.running| >= |y.running| && (|y1.running| > |y.running| ==> AnyLive(y1))
    ensures y.waiting == [] && y1.running == y.running ==> y1.waiting == []
  {
  }

  lemma CloseLive(c: Config, y: Sys, budget: int)
    ensures AnyLive(CloseBatch(c, y, budget)) <==> AnyLive(y)
  {
    SameLive(y, CloseBatch(c, y, budget));
  }

  // ---- one round ----

  /** With a live resident, a round shortens the line or works on the front of it, and opens no batch. */
  lemma ScheduleLive(w: World, c: Config, cache: seq<seq<KV>>, y: Sys, late: set<Id>)
    requires ValidConfig(c.kv) && Inv(w, c, cache, y) && Capacity(c, y) && AnyLive(y)
    ensures var (y3, step) := Schedule(c, y, late);
            && AnyLive(y3)
            && (|Line(y3)| < |Line(y)|
                || (|Line(y3)| == |Line(y)| && (y3.batchOpen ==> y.batchOpen) && exists p: nat :: WorksAt(y, y3, step.slices, p)))
  {
    hide SysInv, Candidates, Building, SameResidents, NewSlices, Settled, Placing, Capacity, IdsIn, StepSuffix, Punctual, IsSub, Sliced, NoDup, AnyLive,
      Settle, PrefillSlices, ExpireQueue, Admissions, Admits, DecodeSlices, Schedule, WorksAt, Onwards, HeadGone;
    ScheduleIs(c, y, late);
    PolicyOk(w, c, cache, y);
    LineNoDup(w, c, cache, y);
    SettleKeeps(w, c, cache, y);
    SettleShrinks(c, y);
    SettleLive(w, c, cache, y);
    var (y1, mid, dec0) := Settle(c, y);
    EmptyBuilding(c, y1);
    NoIds(mid);
    PrefillSlicesOk(w, c, cache, y1, mid, dec0, 0, EmptyStep, c.maxBatchedTokens);
    var (step1, budget1) := PrefillSlices(c, y1, mid, 0, EmptyStep, c.maxBatchedTokens);
    var dec := Truncated(dec0, budget1);
    var y2 := ExpireQueue(c, y1, late);
    ExpireKeeps(w, c, cache, y1, late);
    ExpireOpen(c, y1, late);
    PunctualShorter(y1, y1.waiting, late);
    BuildingFrame(c, y1, y2, step1);
    LineNoDup(w, c, cache, y1);
    LiveStays(y1, y2);
    AnyLiveRuns(y2);
    NoNewSlices(y2, step1);
    SameStart(y2, y2);
    var y3, step3 := y2, step1;
    if c.continuous || y.batchOpen || y.running == [] {
      AdmissionsKeep(w, c, cache, y2, dec, step1, budget1 - |dec|);
      AdmissionsOnward(w, c, cache, y2, dec, step1, budget1 - |dec|);
      y3, step3 := Admissions(c, y2, dec, step1, budget1 - |dec|).0, Admissions(c, y2, dec, step1, budget1 - |dec|).1;
      OnwardsParts(c, y2, y3, Admits(c, y2, step1, budget1 - |dec|), step1, step3, budget1 - |dec|);
    }
    LineNoDup(w, c, cache, y2);
    LiveStays(y2, y3);
    SameResidentsTrans(y1, y2, y3);
    PlacingParts(Started(c, y), y1);
    assert dec[0..] == dec;
    DecodeSuffix(y3, dec, 0, step3);
    NewSlicesFront(y2, step1, step3);
    EmptyMidBudget(c, y1, mid);
    if |Line(y3)| == |Line(y)| {
      SurvivorSliced(w, c, cache, y1, mid, dec0, dec, step1, step3, y3);
      var p := ResidentsWork(y, Started(c, y), y1, y3, DecodeSlices(y3, dec, 0, step3).slices);
    }
  }

  lemma AnyLiveRuns(y: Sys)
    requires AnyLive(y)
    ensures y.running != []
  {
  }

  lemma NewSlicesFront(y: Sys, step: Step, step1: Step)
    requires NewSlices(y, step, step1)
    ensures step.slices <= step1.slices
  {
  }

  lemma OnwardsParts(c: Config, y: Sys, y1: Sys, admits: bool, step: Step, step1: Step, budget: int)
    requires Onwards(c, y, y1, admits, step, step1, budget)
    ensures |Line(y1)| == |Line(y)| && SameRequests(y, y1) && SameResidents(y, y1) && (y1.batchOpen ==> y.batchOpen)
  {
  }

  lemma PlacingParts(y: Sys, y1: Sys)
    requires Placing(y, y1)
    ensures |Line(y1)| <= |Line(y)| && y1.batchOpen == y.batchOpen && (|Line(y1)| == |Line(y)| ==> Settled(y, y1)) && SameRequests(y, y1)
  {
  }

  lemma {:induction false} RetireLateOpen(c: Config, y: Sys, ids: seq<Id>, j: nat)
    ensures RetireLate(c, y, ids, j).batchOpen == y.batchOpen
    decreases |ids| - j
  {
    hide Free;
    if j < |ids| {
      RetireLateOpen(c, Retire(c, y.(stats := y.stats.(timedOut := y.stats.timedOut + 1)), ids[j], Timeout), ids, j + 1);
    }
  }

  lemma ExpireOpen(c: Config, y: Sys, late: set<Id>)
    ensures ExpireQueue(c, y, late).batchOpen == y.batchOpen
  {
    hide RetireLate, Expired, Punctual;
    RetireLateOpen(c, y.(waiting := Punctual(y, y.waiting, late)), Expired(y, y.waiting, late), 0);
  }

  // ---- a round with no live resident ----

  lemma {:induction false} NobodySplit(y: Sys, ids: seq<Id>)
    requires forall i :: 0 <= i < |ids| ==> IsFinished(Lookup(y, ids[i]))
    ensures MidPrefill(y, ids) == [] && Decoding(y, ids) == []
  {
    if ids != [] {
      NobodySplit(y, ids[..|ids| - 1]);
    }
  }

  /** With nobody live there is nothing to settle. */
  lemma SettleIdle(c: Config, y: Sys)
    requires ValidConfig(c.kv) && !AnyLive(y)
    ensures Settle(c, y) == (Started(c, y), [], [])
  {
    hide MidPrefill, Decoding;
    var y0 := Started(c, y);
    forall i | 0 <= i < |y0.running| ensures IsFinished(Lookup(y0, y0.running[i])) {
      assert IsFinished(Lookup(y, y.running[i]));
    }
    NobodySplit(y0, y0.running);
  }

  /** May this round admit? */
  predicate MayAdmit(c: Config, y: Sys) {
    c.continuous || y.batchOpen || y.running == []
  }

  /** A round with no live resident is the expiry of the queue and, if it may, one admission with the whole budget. */
  lemma ScheduleIdle(c: Config, y: Sys, late: set<Id>)
    requires ValidConfig(c.kv) && !AnyLive(y)
    ensures var y2 := ExpireQueue(c, Started(c, y), late);
            Schedule(c, y, late) == if MayAdmit(c, y) then Admissions(c, y2, [], EmptyStep, c.maxBatchedTokens) else (y2, EmptyStep)
  {
    hide Settle, ExpireQueue, Admissions, Schedule;
    ScheduleIs(c, y, late);
    SettleIdle(c, y);
  }

  /** The round ends nobody, admits nobody and closes the batch if it could have admitted. */
  ghost predicate NothingDone(c: Config, y: Sys, y1: Sys, step: Step) {
    && step.slices == [] && y1.running == y.running && |Line(y1)| == |Line(y)|
    && (MayAdmit(c, y) && y.waiting != [] ==> !c.continuous && y.running != [] && y.batchOpen && !y1.batchOpen)
  }

  lemma IdleRound(w: World, c: Config, cache: seq<seq<KV>>, y: Sys, late: set<Id>)
    requires ValidConfig(c.kv) && Inv(w, c, cache, y) && !AnyLive(y)
    ensures var (y3, step) := Schedule(c, y, late);
            |Line(y3)| < |Line(y)| || (|Line(y3)| == |Line(y)| && AnyLive(y3) && step.slices != []) || NothingDone(c, y, y3, step)
    ensures AnyLive(Schedule(c, y, late).0) || Schedule(c, y, late).0.running == y.running
  {
    hide SysInv, Building, SameResidents, AnyLive, ExpireQueue, Admissions, Admits, Schedule, Onwards, HeadGone, Punctual, IsSub;
    PolicyOk(w, c, cache, y);
    ScheduleIdle(c, y, late);
    var y1 := Started(c, y);
    StatsOnly(w, c, cache, y, y1, []);
    EmptyBuilding(c, y1);
    var y2 := ExpireQueue(c, y1, late);
    ExpireKeeps(w, c, cache, y1, late);
    ExpireOpen(c, y1, late);
    PunctualShorter(y1, y1.waiting, late);
    BuildingFrame(c, y1, y2, EmptyStep);
    NoIds([]);
    if MayAdmit(c, y) {
      AdmissionsOnward(w, c, cache, y2, [], EmptyStep, c.maxBatchedTokens);
      var (y3, step3) := Admissions(c, y2, [], EmptyStep, c.maxBatchedTokens);
      var admits := Admits(c, y2, EmptyStep, c.maxBatchedTokens);
      if !admits && y2.running == [] && y2.waiting != [] {
        HeadGoneParts(y2, y3);
      } else {
        OnwardsAll(c, y2, y3, admits, EmptyStep, step3, c.maxBatchedTokens);
        OnwardsParts(c, y2, y3, admits, EmptyStep, step3, c.maxBatchedTokens);
        IdleEmpty(w, c, cache, y);
      }
    }
  }

  /** In continuous mode every resident is live. */
  lemma IdleEmpty(w: World, c: Config, cache: seq<seq<KV>>, y: Sys)
    requires SysInv(w, c, cache, y, [])
    ensures c.continuous && y.running != [] ==> AnyLive(y)
  {
    hide SysInv;
    if c.continuous && y.running != [] {
      NobodyFinished(w, c, cache, y, y.running[0]);
      assert !IsFinished(Lookup(y, y.running[0]));
    }
  }

  lemma HeadGoneParts(y: Sys, y1: Sys)
    requires HeadGone(y, y1)
    ensures |Line(y1)| < |Line(y)| && y1.running == y.running
  {
  }

  lemma OnwardsAll(c: Config, y: Sys, y1: Sys, admits: bool, step: Step, step1: Step, budget: int)
    requires Onwards(c, y, y1, admits, step, step1, budget)
    ensures admits ==> AnyLive(y1) && |step1.slices| > |step.slices|
    ensures !admits ==> y1.running == y.running && step1 == step
    ensures !admits && !c.continuous && y.waiting != [] && y.running != [] && budget > 0 ==> !y1.batchOpen
  {
    hide AnyLive, Line;
  }

  // ---- applying a step ----

  ghost predicate Lower(c: Config, s: Sequence, s1: Sequence) {
    s1.params == s.params && s1.promptLen == s.promptLen && Rank(c, s1) < Rank(c, s)
  }

  /** A slice lowers its sequence's rank unless the sequence leaves with it. */
  lemma SliceLowers(w: World, c: Config, cache: seq<seq<KV>>, g: Progress, sl: Slice, sampled: seq<Token>)
    requires Pending(w, c, cache, g.sys, sl) && SysInv(w, c, cache, g.sys, g.done) && Cap(c) >= 1
    ensures var g1 := SliceDone(c, g, sl, sampled);
            && sl.id in g1.sys.seqs && g1.sys.seqs == g.sys.seqs[sl.id := g1.sys.seqs[sl.id]]
            && (g1.done == g.done || g1.done == g.done + [sl.id])
            && (g1.done == g.done ==> Lower(c, g.sys.seqs[sl.id], g1.sys.seqs[sl.id]))
  {
    hide SysInv, SeqContent, KvOk, Append1, Advance, Cap;
    var y := g.sys;
    var id := sl.id;
    PendingFacts(w, c, cache, y, g.done, sl);
    SliceDoneShape(c, g, sl, sampled);
    SysKv(w, c, cache, y, g.done);
    AdvanceOk(w, c, cache, y, sl);
    LiveRoom(w, c, cache, y, g.done, id);
    var s := y.seqs[id];
    var rem := Sub(s.promptLen + s.params.maxTokens, |s.tokens|);
    assert Span(Cap(c) + 1, rem) == Span(Cap(c) + 1, rem - 1) + (Cap(c) + 1);
    if sl.needsLogits {
      var tok := if g.used < |sampled| then sampled[g.used] else 0;
      AppendIs(c, Advance(c, y, sl), g.used + 1, g.done, id, tok);
    }
  }

  lemma LiveRoom(w: World, c: Config, cache: seq<seq<KV>>, y: Sys, done: seq<Id>, id: Id)
    requires id in y.running && id in y.seqs && !IsFinished(y.seqs[id]) && SysInv(w, c, cache, y, done)
    ensures |y.seqs[id].tokens| < y.seqs[id].promptLen + y.seqs[id].params.maxTokens
  {
    hide KvOk, InPlay, Span;
    InQueues(w, c, cache, y, done, id);
    LivePrefix(w.net, y.seqs[id]);
  }

  /** After `j` slices: whoever has had one and is still resident has a lower rank; the others are as before. */
  ghost predicate Worked(c: Config, y0: Sys, slices: seq<Slice>, j: nat, g: Progress) {
    && j <= |slices| && g.sys.seqs.Keys == y0.seqs.Keys
    && (forall x :: x in y0.seqs && !Sliced(slices[..j], x) ==> g.sys.seqs[x] == y0.seqs[x])
    && (forall x :: x in y0.seqs && Sliced(slices[..j], x) && x !in g.done ==> Lower(c, y0.seqs[x], g.sys.seqs[x]))
  }

  lemma {:induction false} SlicesWork(w: World, c: Config, cache: seq<seq<KV>>, y0: Sys, slices: seq<Slice>, j: nat, g: Progress, sampled: seq<Token>)
    requires Cap(c) >= 1
    requires Applying(w, c, cache, y0, slices, j, g) && Distinct(slices) && Samples(w, y0, slices, sampled) && Worked(c, y0, slices, j, g)
    ensures Worked(c, y0, slices, |slices|, SlicesDone(c, g, slices, j, sampled))
    decreases |slices| - j
  {
    hide SysInv, SliceDone, Samples, Pending, Worked, Distinct, Cap, Waits;
    if j < |slices| {
      ApplyOne(w, c, cache, y0, slices, j, g, sampled);
      WorkOne(w, c, cache, y0, slices, j, g, sampled);
      SlicesWork(w, c, cache, y0, slices, j + 1, SliceDone(c, g, slices[j], sampled), sampled);
    } else {
      WorkedAll(c, y0, slices, j, g);
    }
  }

  lemma WorkedAll(c: Config, y0: Sys, slices: seq<Slice>, j: nat, g: Progress)
    requires Worked(c, y0, slices, j, g)
    ensures j <= |slices|
  {
  }

  lemma WorkOne(w: World, c: Config, cache: seq<seq<KV>>, y0: Sys, slices: seq<Slice>, j: nat, g: Progress, sampled: seq<Token>)
    requires Cap(c) >= 1 && j < |slices|
    requires Applying(w, c, cache, y0, slices, j, g) && Distinct(slices) && Worked(c, y0, slices, j, g)
    ensures Worked(c, y0, slices, j + 1, SliceDone(c, g, slices[j], sampled))
  {
    hide SysInv, SliceDone, Pending, Cap, Lower;
    var sl := slices[j];
    assert Waits(w, c, cache, y0, sl, g.sys);
    SliceLowers(w, c, cache, g, sl, sampled);
    var g1 := SliceDone(c, g, sl, sampled);
    assert slices[..j + 1] == slices[..j] + [sl];
    forall x ensures Sliced(slices[..j + 1], x) <==> Sliced(slices[..j], x) || x == sl.id {
      if Sliced(slices[..j], x) {
        var k :| 0 <= k < j && slices[..j][k].id == x;
        assert slices[..j + 1][k].id == x;
      }
      if x == sl.id { assert slices[..j + 1][j].id == x; }
      if Sliced(slices[..j + 1], x) && x != sl.id {
        var k :| 0 <= k < j + 1 && slices[..j + 1][k].id == x;
        assert slices[..j][k].id == x;
      }
    }
    assert !Sliced(slices[..j], sl.id);
  }

  // ---- a whole step ----

  lemma {:induction false} RetireDoneFrame(c: Config, y: Sys, done: seq<Id>, j: nat)
    requires forall x :: x in done ==> x in y.seqs
    ensures var y1 := RetireDone(c, y, done, j); y1.seqs.Keys == y.seqs.Keys && forall x :: x in y.seqs && x !in done ==> y1.seqs[x] == y.seqs[x]
    decreases |done| - j
  {
    hide Retire;
    if j < |done| {
      RetireFrame(c, y, done[j], Lookup(y, done[j]).finish);
      RetireDoneFrame(c, Retire(c, y, done[j], Lookup(y, done[j]).finish), done, j + 1);
    }
  }

  /** Applying a step: whoever stays in the line is untouched if it had no slice and lower if it had one. */
  ghost predicate StepWorked(c: Config, y: Sys, slices: seq<Slice>, y1: Sys) {
    && y1.seqs.Keys == y.seqs.Keys
    && forall x :: x in y.seqs && x in Line(y1) ==>
         if Sliced(slices, x) then Lower(c, y.seqs[x], y1.seqs[x]) else y1.seqs[x] == y.seqs[x]
  }

  lemma DoneNotInLine(w: World, c: Config, cache: seq<seq<KV>>, y: Sys, done: seq<Id>, x: Id)
    requires x in Line(y) && SysInv(w, c, cache, y, done)
    ensures x !in done
  {
    hide KvOk, Live, InPlay;
    assert x in y.running || x in y.waiting;
    InQueues(w, c, cache, y, done, x);
  }

  lemma SlicesWorked(w: World, c: Config, cache: seq<seq<KV>>, y: Sys, step: Step, sampled: seq<Token>)
    requires Cap(c) >= 1
    requires Applying(w, c, cache, y, step.slices, 0, Progress(y, 0, [])) && Distinct(step.slices) && Samples(w, y, step.slices, sampled)
    ensures var g := SlicesDone(c, Progress(y, 0, []), step.slices, 0, sampled); StepWorked(c, y, step.slices, RetireDone(c, g.sys, g.done, 0))
  {
    hide SysInv, SlicesDone, RetireDone, Samples, Distinct, Waits, Lower, Cap, IsSub;
    var slices := step.slices;
    assert Worked(c, y, slices, 0, Progress(y, 0, []));
    SlicesWork(w, c, cache, y, slices, 0, Progress(y, 0, []), sampled);
    SlicesDoneKeeps(w, c, cache, y, slices, 0, Progress(y, 0, []), sampled);
    var g := SlicesDone(c, Progress(y, 0, []), slices, 0, sampled);
    assert slices[..|slices|] == slices;
    RetireDoneFrame(c, g.sys, g.done, 0);
    RetireDoneOrder(c, g.sys, g.done, 0);
    forall x | x in Line(g.sys) ensures x !in g.done {
      DoneNotInLine(w, c, cache, g.sys, g.done, x);
    }
  }

  lemma {:induction false} SlicesOpen(c: Config, g: Progress, slices: seq<Slice>, j: nat, sampled: seq<Token>)
    ensures SlicesDone(c, g, slices, j, sampled).sys.batchOpen == g.sys.batchOpen
    decreases |slices| - j
  {
    hide CommitComputed, Without;
    if j < |slices| {
      SlicesOpen(c, SliceDone(c, g, slices[j], sampled), slices, j + 1, sampled);
    }
  }

  lemma {:induction false} RetireDoneOpen(c: Config, y: Sys, done: seq<Id>, j: nat)
    ensures RetireDone(c, y, done, j).batchOpen == y.batchOpen
    decreases |done| - j
  {
    hide Free;
    if j < |done| {
      RetireDoneOpen(c, Retire(c, y, done[j], Lookup(y, done[j]).finish), done, j + 1);
    }
  }

  lemma {:induction false} DrainedLine(c: Config, y: Sys, j: nat)
    ensures DrainBatch(c, y, j).running == [] && DrainBatch(c, y, j).waiting == y.waiting
    decreases |y.running| - j
  {
    hide Free;
    if j < |y.running| {
      var y1 := Drop(c, y, y.running[j]);
      DrainedLine(c, y1.(stats := y1.stats.(finished := y1.stats.finished + 1)), j + 1);
    }
  }

  /** A step shortens the line, or keeps it and lowers exactly whom it worked on; afterwards somebody is live or nobody resident. */
  lemma StepDoneWorks(w: World, c: Config, cache: seq<seq<KV>>, y: Sys, step: Step, sampled: seq<Token>)
    requires Cap(c) >= 1
    requires Applying(w, c, cache, y, step.slices, 0, Progress(y, 0, [])) && Distinct(step.slices) && Samples(w, y, step.slices, sampled)
    ensures var y1 := OnStepDone(c, y, step, sampled);
            && |Line(y1)| <= |Line(y)|
            && (|Line(y1)| < |Line(y)| || (Line(y1) == Line(y) && y1.running == y.running && y1.batchOpen == y.batchOpen && StepWorked(c, y, step.slices, y1)))
            && (AnyLive(y1) || y1.running == [])
  {
    hide SysInv, SlicesDone, RetireDone, DrainBatch, Samples, Distinct, Waits, Applying, IsSub, Cap, StepWorked;
    SlicesWorked(w, c, cache, y, step, sampled);
    OnStepDoneKeeps(w, c, cache, y, step, sampled);
    SlicesLine(c, Progress(y, 0, []), step.slices, 0, sampled);
    SlicesOpen(c, Progress(y, 0, []), step.slices, 0, sampled);
    var g := SlicesDone(c, Progress(y, 0, []), step.slices, 0, sampled);
    RetireDoneOrder(c, g.sys, g.done, 0);
    RetireDoneOpen(c, g.sys, g.done, 0);
    var y1 := RetireDone(c, g.sys, g.done, 0);
    SubMembers(g.sys.running, y.running);
    if |g.sys.running| == |y.running| { SubSameLength(g.sys.running, y.running); }
    if !c.continuous && y1.running != [] && AllFinished(y1) {
      DrainedLine(c, y1, 0);
    } else if c.continuous && y1.running != [] {
      NobodyFinished(w, c, cache, y1, y1.running[0]);
      assert !IsFinished(Lookup(y1, y1.running[0]));
    }
  }

  // ---- a whole turn ----

  /** All requests fit in the pool with everything they may generate. */
  ghost predicate AllFit(c: Config, brief: Brief) {
    forall id :: id in brief.requests ==> |brief.requests[id].prompt| + brief.requests[id].params.maxTokens <= Cap(c)
  }

  lemma FitsCapacity(c: Config, y: Sys, brief: Brief)
    requires Books(y, [], brief) && AllFit(c, brief)
    ensures Capacity(c, y)
  {
    hide Span, SumComputed, Terminals, NoDup;
    forall id | id in y.seqs ensures y.seqs[id].promptLen + y.seqs[id].params.maxTokens <= Cap(c) {
      assert Serves(y.seqs[id], brief.requests[id]);
    }
  }

  lemma BaseOk(c: Config)
    requires ValidPolicy(c)
    ensures Base(c) >= 2 && Cap(c) >= 1
  {
    SpanMono(c.kv.blockSize, 1, c.kv.numBlocks);
  }

  predicate HasWork(m: Machine) {
    m.sys.waiting != [] || m.sys.running != []
  }

  /** Static mode: everybody resident is finished, and nobody can be taken in any more. */
  ghost predicate Wedged(c: Config, y: Sys) {
    !c.continuous && y.running != [] && !AnyLive(y) && (!y.batchOpen || y.waiting == [])
  }

  /** Lower work at resident `p` and the same before it spell a smaller number, unless a flag already does. */
  lemma WorkSpells(c: Config, y: Sys, y3: Sys, slices: seq<Slice>, y4: Sys, p: nat) returns (q: nat)
    requires WorksAt(y, y3, slices, p) && StepWorked(c, y3, slices, y4) && y4.running == y3.running && Line(y4) == Line(y3) && |Line(y3)| == |Line(y)|
    requires AnyLive(y) && AnyLive(y4) && (y4.batchOpen ==> y.batchOpen)
    ensures LexLess(Spelled(c, y4), Spelled(c, y), q)
  {
    hide Rank, Sliced, AnyLive, Spelled, Line;
    var l, l4 := Spelled(c, y), Spelled(c, y4);
    SpelledFlags(c, y);
    SpelledFlags(c, y4);
    SpelledAt(c, y, p);
    SpelledAt(c, y4, p);
    if y.batchOpen != y4.batchOpen {
      q := 1;
    } else {
      q := p + 2;
      forall i | 2 <= i <= q ensures if i < q then l4[i] == l[i] else l4[i] < l[i] {
        var x := y.running[i - 2];
        SpelledAt(c, y, i - 2);
        SpelledAt(c, y4, i - 2);
        StandingRank(c, y, y3, y4, slices, x, i < q);
      }
    }
  }

  lemma SpelledFlags(c: Config, y: Sys)
    ensures |Spelled(c, y)| == 2 + |Line(y)| && Spelled(c, y)[0] == Flag(!AnyLive(y)) && Spelled(c, y)[1] == Flag(y.batchOpen)
  {
    hide Rank, AnyLive;
  }

  lemma SpelledAt(c: Config, y: Sys, i: nat)
    requires i < |y.running|
    ensures |Spelled(c, y)| == 2 + |Line(y)| && i < |Line(y)| && Spelled(c, y)[i + 2] == Rank(c, Lookup(y, y.running[i])) && y.running[i] in Line(y)
  {
    hide Rank, AnyLive;
    assert Line(y)[i] == y.running[i];
  }

  lemma StandingRank(c: Config, y: Sys, y3: Sys, y4: Sys, slices: seq<Slice>, x: Id, before: bool)
    requires x in y.seqs && x in y3.seqs && x in Line(y4) && StepWorked(c, y3, slices, y4) && SameStanding(y.seqs[x], y3.seqs[x])
    requires if before then !Sliced(slices, x) else Sliced(slices, x)
    ensures x in y4.seqs
    ensures before ==> Rank(c, Lookup(y4, x)) == Rank(c, Lookup(y, x))
    ensures !before ==> Rank(c, Lookup(y4, x)) < Rank(c, Lookup(y, x))
  {
  }

  lemma TickPieces(w: World, c: Config, m: Machine, late: set<Id>, brief: Brief)
    requires ValidConfig(c.kv) && MachineInv(w, c, m, brief) && AllFit(c, brief)
    ensures Capacity(c, m.sys) && Capacity(c, TickOnce(c, w.net, m, late).sys) && Base(c) >= 2 && Cap(c) >= 1
    ensures MachineInv(w, c, TickOnce(c, w.net, m, late), brief)
    ensures var (y, step) := Schedule(c, m.sys, late);
            if step.slices == [] then TickOnce(c, w.net, m, late).sys == y
            else
              && CanRun(w.net, m.cache, Works(y.seqs, step.slices))
              && (var (cache, sampled) := Forward(c.kv, w.net, m.cache, Works(y.seqs, step.slices));
                  && TickOnce(c, w.net, m, late).sys == OnStepDone(c, y, step, sampled)
                  && Applying(w, c, cache, y, step.slices, 0, Progress(y, 0, [])) && Distinct(step.slices) && Samples(w, y, step.slices, sampled))
  {
    hide SysInv, Books, Schedule, Forward, OnStepDone, StepValid, Applying, Samples, Distinct, Works, CanRun, Capacity, AllFit, Cap, Base;
    PolicyOk(w, c, m.cache, m.sys);
    BaseOk(c);
    FitsCapacity(c, m.sys, brief);
    ScheduleKeeps(w, c, m.cache, m.sys, late);
    TickKeeps(w, c, m, late, brief);
    FitsCapacity(c, TickOnce(c, w.net, m, late).sys, brief);
    var (y, step) := Schedule(c, m.sys, late);
    if step.slices != [] {
      ForwardReady(w, c, m.cache, y, step);
    }
  }

  /** Every turn with work pending lowers the measure, whatever it preempts, rejects or expires, unless the batch is wedged. */
  lemma TickLowers(w: World, c: Config, m: Machine, late: set<Id>, brief: Brief)
    requires ValidConfig(c.kv) && MachineInv(w, c, m, brief) && AllFit(c, brief) && HasWork(m) && !Wedged(c, m.sys)
    ensures Measure(c, TickOnce(c, w.net, m, late).sys) < Measure(c, m.sys)
  {
    hide SysInv, Books, Schedule, Forward, OnStepDone, Applying, Samples, Distinct, Works, CanRun, WorksAt,
      StepWorked, IsSub, Capacity, Measure, Line, AllFit, Cap, Base, AnyLive, TickOnce, Spelled, LexLess;
    TickPieces(w, c, m, late, brief);
    var (y, step) := Schedule(c, m.sys, late);
    var m1 := TickOnce(c, w.net, m, late);
    if AnyLive(m.sys) {
      ScheduleLive(w, c, m.cache, m.sys, late);
    } else {
      IdleRound(w, c, m.cache, m.sys, late);
    }
    if step.slices != [] {
      var (cache, sampled) := FullForward(c, w.net, m.cache, y, step);
      StepDoneWorks(w, c, cache, y, step, sampled);
    }
    if |Line(m1.sys)| < |Line(m.sys)| {
      ShorterLowers(w, c, m.cache, m1.cache, m.sys, m1.sys);
    } else if AnyLive(m.sys) {
      var p: nat :| WorksAt(m.sys, y, step.slices, p);
      WorksSlices(m.sys, y, step.slices, p);
      var q := WorkSpells(c, m.sys, y, step.slices, m1.sys, p);
      EarlierLowers(w, c, m.cache, m1.cache, m.sys, m1.sys, q);
    } else {
      IdleEmpty(w, c, m.cache, m.sys);
      if AnyLive(y) { AnyLiveRuns(y); }
      var q := FlagSpells(c, m.sys, m1.sys);
      EarlierLowers(w, c, m.cache, m1.cache, m.sys, m1.sys, q);
    }
  }

  lemma WorksSlices(y: Sys, y1: Sys, slices: seq<Slice>, p: nat)
    requires WorksAt(y, y1, slices, p)
    ensures slices != [] && y1.running != []
  {
  }

  lemma FlagSpells(c: Config, y: Sys, y1: Sys) returns (q: nat)
    requires !AnyLive(y) && |Line(y1)| == |Line(y)| && (AnyLive(y1) || (y.batchOpen && !y1.batchOpen))
    ensures LexLess(Spelled(c, y1), Spelled(c, y), q)
  {
    q := if AnyLive(y1) then 0 else 1;
  }

  ghost function FullForward(c: Config, net: Net, cache: seq<seq<KV>>, y: Sys, step: Step): (seq<seq<KV>>, seq<Token>)
    requires ValidConfig(c.kv) && CanRun(net, cache, Works(y.seqs, step.slices))
  {
    Forward(c.kv, net, cache, Works(y.seqs, step.slices))
  }

  // ---- many turns ----

  /** `n` turns of the loop; `late(k)` is who is late at turn `k`. */
  ghost function Turns(c: Config, net: Net, m: Machine, late: nat -> set<Id>, n: nat): Machine
    requires ValidConfig(c.kv)
  {
    if n == 0 then m else TickOnce(c, net, Turns(c, net, m, late, n - 1), late(n - 1))
  }

  /** Somebody is live, or nobody is resident. */
  ghost predicate Healthy(y: Sys) {
    AnyLive(y) || y.running == []
  }

  lemma HealthyTick(w: World, c: Config, m: Machine, late: set<Id>, brief: Brief)
    requires ValidConfig(c.kv) && MachineInv(w, c, m, brief) && AllFit(c, brief)
    requires Healthy(m.sys) || AnyLive(Schedule(c, m.sys, late).0)
    ensures Healthy(TickOnce(c, w.net, m, late).sys)
  {
    hide SysInv, Books, Schedule, Forward, OnStepDone, Applying, Samples, Distinct, Works, CanRun, WorksAt, StepWorked, Capacity, Line, AllFit, Cap, AnyLive, TickOnce, NothingDone;
    TickPieces(w, c, m, late, brief);
    var (y, step) := Schedule(c, m.sys, late);
    if AnyLive(m.sys) {
      ScheduleLive(w, c, m.cache, m.sys, late);
    } else {
      IdleRound(w, c, m.cache, m.sys, late);
    }
    if step.slices != [] {
      var (cache, sampled) := FullForward(c, w.net, m.cache, y, step);
      StepDoneWorks(w, c, cache, y, step, sampled);
    }
  }

  lemma {:induction false} TurnsLower(w: World, c: Config, m: Machine, late: nat -> set<Id>, n: nat, brief: Brief)
    requires ValidConfig(c.kv) && MachineInv(w, c, m, brief) && AllFit(c, brief) && Healthy(m.sys)
    ensures MachineInv(w, c, Turns(c, w.net, m, late, n), brief) && Healthy(Turns(c, w.net, m, late, n).sys)
    ensures (forall k :: 0 <= k < n ==> HasWork(Turns(c, w.net, m, late, k))) ==> Measure(c, Turns(c, w.net, m, late, n).sys) + n <= Measure(c, m.sys)
  {
    hide MachineInv, AllFit, Measure, TickOnce, AnyLive;
    if n > 0 {
      TurnsLower(w, c, m, late, n - 1, brief);
      var m0 := Turns(c, w.net, m, late, n - 1);
      TickKeeps(w, c, m0, late(n - 1), brief);
      HealthyTick(w, c, m0, late(n - 1), brief);
      if HasWork(m0) {
        TickLowers(w, c, m0, late(n - 1), brief);
      }
    }
  }

  /**
   The engine drains: with no further arrivals there is a turn, bounded by the measure of the state
   it starts from, after which nothing is waiting and nothing is running. In continuous mode every
   state is healthy.
   */
  lemma EngineDrains(w: World, c: Config, m: Machine, late: nat -> set<Id>, brief: Brief)
    requires ValidConfig(c.kv) && MachineInv(w, c, m, brief) && AllFit(c, brief) && (c.continuous || Healthy(m.sys))
    ensures exists n: nat :: n <= Measure(c, m.sys) && !HasWork(Turns(c, w.net, m, late, n))
  {
    hide SysInv, Books, AllFit, Measure, Turns, HasWork, AnyLive;
    IdleEmpty(w, c, m.cache, m.sys);
    hide MachineInv;
    var n := Measure(c, m.sys) + 1;
    if forall k :: 0 <= k < n ==> HasWork(Turns(c, w.net, m, late, k)) {
      TurnsLower(w, c, m, late, n, brief);
      assert false;
    }
  }

  // ---- the states that never drain ----

  /** Nobody is late at any turn. */
  function Never(k: nat): set<Id> {
    {}
  }

  lemma {:induction false} NobodyLate(y: Sys, ids: seq<Id>)
    ensures |Punctual(y, ids, {})| == |ids|
  {
    if ids != [] {
      NobodyLate(y, ids[..|ids| - 1]);
    }
  }

  function Ticked(y: Sys): Sys {
    y.(stats := y.stats.(steps := y.stats.steps + 1))
  }

  /** A wedged batch: the round is empty and changes nothing but its own count. */
  lemma WedgedRound(c: Config, y: Sys)
    requires ValidConfig(c.kv) && Wedged(c, y)
    ensures Schedule(c, y, {}) == (Ticked(y), EmptyStep)
  {
    hide Schedule, ExpireQueue, AnyLive, Punctual;
    ScheduleIdle(c, y, {});
    var y1 := Started(c, y);
    NobodyLate(y1, y1.waiting);
    ExpireNothing(c, y1, {});
  }

  /** A wedged batch stays wedged, turn after turn, and whoever waits is never served. */
  lemma WedgedTick(c: Config, net: Net, m: Machine)
    requires ValidConfig(c.kv) && Wedged(c, m.sys)
    ensures TickOnce(c, net, m, {}) == m.(sys := Ticked(m.sys)) && Wedged(c, TickOnce(c, net, m, {}).sys)
  {
    hide Schedule, Forward, AnyLive;
    WedgedRound(c, m.sys);
    SameLive(m.sys, Ticked(m.sys));
  }

  lemma {:induction false} WedgedForever(c: Config, net: Net, m: Machine, n: nat)
    requires ValidConfig(c.kv) && Wedged(c, m.sys)
    ensures var m1 := Turns(c, net, m, Never, n);
            && Wedged(c, m1.sys) && HasWork(m1) && m1.cache == m.cache
            && m1.sys == m.sys.(stats := m.sys.stats.(steps := m.sys.stats.steps + n))
  {
    hide TickOnce, AnyLive;
    if n > 0 {
      WedgedForever(c, net, m, n - 1);
      WedgedTick(c, net, Turns(c, net, m, Never, n - 1));
    }
  }

  /** Static mode: everybody resident is finished, and the next round admits nobody. */
  ghost predicate Stuck(c: Config, y: Sys)
    requires ValidConfig(c.kv)
  {
    && !c.continuous && y.running != [] && !AnyLive(y)
    && (!y.batchOpen || !Admits(c, Started(c, y), EmptyStep, c.maxBatchedTokens))
  }

  /** The scan of the queue finds somebody. */
  ghost predicate AnyFit(c: Config, y: Sys)
    requires ValidConfig(c.kv)
  {
    exists k: nat :: FirstInWindow(c, y, k)
  }

  /** When the next round of an idle state admits somebody: a place is free and the scan finds a fit. */
  lemma AdmitsExactly(w: World, c: Config, cache: seq<seq<KV>>, y: Sys)
    requires ValidConfig(c.kv) && SysInv(w, c, cache, y, [])
    ensures var y0 := BumpWaits(Started(c, y), 0);
            Admits(c, Started(c, y), EmptyStep, c.maxBatchedTokens) <==>
            |y.running| < c.maxNumSeqs && AnyFit(c, y0)
  {
    hide SysInv, Building, FirstInWindow, BumpWaits, AdmitScan, AdmittedAt, AdmissionAt;
    PolicyOk(w, c, cache, y);
    var y1 := Started(c, y);
    StatsOnly(w, c, cache, y, y1, []);
    EmptyBuilding(c, y1);
    BumpKeeps(w, c, cache, y1, 0);
    BumpPool(y1, 0);
    var y0 := BumpWaits(y1, 0);
    BuildingFrame(c, y1, y0, EmptyStep);
    if y0.waiting != [] && |y0.running| < c.maxNumSeqs {
      AdmitOneExact(w, c, cache, y0, EmptyStep, c.maxBatchedTokens);
    } else if y0.waiting == [] {
      NoFit(c, y0);
    }
  }

  lemma NoFit(c: Config, y: Sys)
    requires ValidConfig(c.kv) && y.waiting == []
    ensures forall k: nat :: !FirstInWindow(c, y, k)
  {
  }

  /** What the first round of an all-finished open batch does. */
  lemma IdleOutcome(w: World, c: Config, cache: seq<seq<KV>>, y: Sys)
    requires ValidConfig(c.kv) && Inv(w, c, cache, y) && !c.continuous && y.running != [] && !AnyLive(y) && y.batchOpen
    ensures var admits := Admits(c, Started(c, y), EmptyStep, c.maxBatchedTokens); var (y3, step) := Schedule(c, y, {});
            if admits then AnyLive(y3) else step.slices == [] && Wedged(c, y3)
  {
    hide SysInv, Building, SameResidents, AnyLive, ExpireQueue, Admissions, Admits, Schedule, Onwards, HeadGone, Punctual, IsSub;
    PolicyOk(w, c, cache, y);
    ScheduleIdle(c, y, {});
    var y1 := Started(c, y);
    StatsOnly(w, c, cache, y, y1, []);
    EmptyBuilding(c, y1);
    NobodyLate(y1, y1.waiting);
    ExpireNothing(c, y1, {});
    AdmissionsOnward(w, c, cache, y1, [], EmptyStep, c.maxBatchedTokens);
    var (y3, step3) := Admissions(c, y1, [], EmptyStep, c.maxBatchedTokens);
    var admits := Admits(c, y1, EmptyStep, c.maxBatchedTokens);
    OnwardsAll(c, y1, y3, admits, EmptyStep, step3, c.maxBatchedTokens);
    NoIds([]);
    if !admits {
      LineNoDup(w, c, cache, y1);
      OnwardsStay(c, y1, y3, EmptyStep, step3, c.maxBatchedTokens);
      SameLive(y, y1);
    }
  }

  lemma OnwardsStay(c: Config, y: Sys, y1: Sys, step: Step, step1: Step, budget: int)
    requires Onwards(c, y, y1, false, step, step1, budget) && forall x :: x in y.running ==> x in y.seqs
    ensures (AnyLive(y1) <==> AnyLive(y)) && (y.waiting == [] ==> y1.waiting == [])
  {
    if i :| 0 <= i < |y1.running| && !IsFinished(Lookup(y1, y1.running[i])) {
      assert y.running[i] in y.running;
      assert !IsFinished(Lookup(y, y.running[i]));
    }
    if i :| 0 <= i < |y.running| && !IsFinished(Lookup(y, y.running[i])) {
      assert y.running[i] in y.running;
      assert !IsFinished(Lookup(y1, y1.running[i]));
    }
  }

  /** A stuck engine is wedged after one turn; any other is healthy after one turn. */
  lemma OneTurn(w: World, c: Config, m: Machine, brief: Brief)
    requires ValidConfig(c.kv) && MachineInv(w, c, m, brief) && AllFit(c, brief)
    ensures var m1 := TickOnce(c, w.net, m, {}); if Stuck(c, m.sys) then Wedged(c, m1.sys) else Healthy(m1.sys)
  {
    hide SysInv, Books, Schedule, AllFit, AnyLive, TickOnce, Admits;
    IdleEmpty(w, c, m.cache, m.sys);
    if !Healthy(m.sys) && m.sys.batchOpen {
      IdleOutcome(w, c, m.cache, m.sys);
      TickEmpty(c, w.net, m);
    }
    if !Stuck(c, m.sys) {
      HealthyTick(w, c, m, {}, brief);
    } else if !m.sys.batchOpen {
      WedgedTick(c, w.net, m);
    }
  }

  lemma TickEmpty(c: Config, net: Net, m: Machine)
    requires ValidConfig(c.kv)
    ensures Schedule(c, m.sys, {}).1.slices == [] ==> TickOnce(c, net, m, {}).sys == Schedule(c, m.sys, {}).0
  {
    hide Schedule, Forward, OnStepDone;
  }

  lemma {:induction false} TurnsShift(c: Config, net: Net, m: Machine, n: nat)
    requires ValidConfig(c.kv)
    ensures Turns(c, net, m, Never, n + 1) == Turns(c, net, TickOnce(c, net, m, {}), Never, n)
  {
    hide TickOnce;
    if n > 0 {
      TurnsShift(c, net, m, n - 1);
    } else {
      assert Turns(c, net, m, Never, 0) == m;
    }
  }

  /** While it is not stuck, a turn with work pending lowers the measure and does not get stuck. */
  lemma FreeTurn(w: World, c: Config, m: Machine, brief: Brief)
    requires ValidConfig(c.kv) && MachineInv(w, c, m, brief) && AllFit(c, brief) && !Stuck(c, m.sys) && HasWork(m)
    ensures var m1 := TickOnce(c, w.net, m, {}); !Stuck(c, m1.sys) && Measure(c, m1.sys) < Measure(c, m.sys)
  {
    hide MachineInv, AllFit, Measure, TickOnce, HasWork, AnyLive, Admits;
    OneTurn(w, c, m, brief);
    WedgedIsStuck(c, m.sys);
    TickLowers(w, c, m, {}, brief);
  }

  lemma WedgedIsStuck(c: Config, y: Sys)
    requires ValidConfig(c.kv)
    ensures Wedged(c, y) ==> Stuck(c, y)
  {
    hide AnyLive, BumpWaits, AdmitScan;
    BumpPool(Started(c, y), 0);
  }

  /** With nobody late and nothing arriving, the engine drains if and only if it is not stuck. */
  lemma DrainsIff(w: World, c: Config, m: Machine, brief: Brief)
    requires ValidConfig(c.kv) && MachineInv(w, c, m, brief) && AllFit(c, brief)
    ensures (exists n: nat :: !HasWork(Turns(c, w.net, m, Never, n))) <==> !Stuck(c, m.sys)
  {
    hide MachineInv, AllFit, Measure, TickOnce, HasWork, Stuck, Wedged, Healthy;
    OneTurn(w, c, m, brief);
    var m1 := TickOnce(c, w.net, m, {});
    if Stuck(c, m.sys) {
      forall n: nat ensures HasWork(Turns(c, w.net, m, Never, n)) {
        StuckWorks(c, m);
        if n > 0 {
          WedgedForever(c, w.net, m1, n - 1);
          TurnsShift(c, w.net, m, n - 1);
        }
      }
    } else {
      TickKeeps(w, c, m, {}, brief);
      EngineDrains(w, c, m1, Never, brief);
      var n: nat :| n <= Measure(c, m1.sys) && !HasWork(Turns(c, w.net, m1, Never, n));
      TurnsShift(c, w.net, m, n);
    }
  }

  lemma StuckWorks(c: Config, m: Machine)
    requires ValidConfig(c.kv) && Stuck(c, m.sys)
    ensures HasWork(m)
  {
  }
}
