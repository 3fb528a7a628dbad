/**
 Writing to shared blocks. A sequence writes to a published block exactly when its whole history was
 found in the prefix cache, so that its last token has to be computed again; such a write stores what is
 already there. Every other written block has one owner and is not published.
 */
module Rewrites {
  import opened Lists
  import opened Paging
  import opened BlockPool
  import opened Requests
  import opened PrefixCache
  import opened PrefixTree
  import opened CacheOps
  import opened Network
  import opened Contents
  import opened Reference
  import opened Scheduling
  import opened Roles
  import opened Safety
  import opened Steps
  import opened Progressing
  import opened Ledger
  import opened Engine
  import opened Theorems
  import opened Drain
  import Fcfs

  /** Everything that publication was attempted for is computed. */
  predicate CaughtUp(c: Config, s: Sequence) {
    Span(c.kv.blockSize, s.table.committed) <= s.computed
  }

  /** The whole history was adopted from the prefix cache, and only the last token is to be computed again. */
  predicate WhollyCached(c: Config, s: Sequence) {
    && Span(c.kv.blockSize, s.table.committed) == |s.tokens| == s.computed + 1
    && 0 < s.table.committed <= |s.table.hashes| && s.table.hashes[s.table.committed - 1] != 0
  }

  ghost predicate AllCaught(c: Config, y: Sys) {
    forall x :: CaughtUp(c, Lookup(y, x))
  }

  /** All but sequences that this step computes the last token of. */
  ghost predicate CaughtBut(c: Config, y: Sys, slices: seq<Slice>) {
    forall x :: CaughtUp(c, Lookup(y, x)) || (WhollyCached(c, Lookup(y, x)) && Sliced(slices, x))
  }

  // ---- what keeps it ----

  lemma NoSpan(bs: nat)
    ensures Span(bs, 0) == 0
  {
  }

  /** The sequences of `y1` are those of `y`, some with an empty table or fewer promises. */
  ghost predicate NoMoreCommitted(y: Sys, y1: Sys) {
    forall x :: Lookup(y1, x).table.committed == 0 ||
      (Lookup(y1, x).table.committed == Lookup(y, x).table.committed && Lookup(y1, x).computed == Lookup(y, x).computed)
  }

  lemma CaughtFrame(c: Config, y: Sys, y1: Sys)
    requires AllCaught(c, y) && NoMoreCommitted(y, y1)
    ensures AllCaught(c, y1)
  {
    NoSpan(c.kv.blockSize);
  }

  lemma NoMoreTrans(y: Sys, y1: Sys, y2: Sys)
    requires NoMoreCommitted(y, y1) && NoMoreCommitted(y1, y2)
    ensures NoMoreCommitted(y, y2)
  {
    hide Lookup;
  }

  lemma RetireCommits(c: Config, y: Sys, id: Id, r: Finish)
    ensures NoMoreCommitted(y, Retire(c, y, id, r))
  {
    hide Free;
  }

  lemma EvictCommits(c: Config, y: Sys)
    ensures NoMoreCommitted(y, Evict(c, y))
  {
    hide Free;
  }

  lemma GrowCommits(c: Config, y: Sys, id: Id)
    requires ValidConfig(c.kv)
    ensures NoMoreCommitted(y, GrowFor(c, y, id).0)
  {
  }

  lemma {:induction false} PlaceCommits(c: Config, y: Sys, mid: seq<Id>, dec: seq<Id>, i: nat)
    requires ValidConfig(c.kv)
    ensures NoMoreCommitted(y, PlaceDecodes(c, y, mid, dec, i).0)
    decreases |y.running|, |dec| - i
  {
    hide Without, Evict, GrowFor, NoMoreCommitted;
    if i < |dec| {
      GrowCommits(c, y, dec[i]);
      var (y1, ok) := GrowFor(c, y, dec[i]);
      Fcfs.GrowResidents(c, y, dec[i]);
      if ok {
        PlaceCommits(c, y1, mid, dec, i + 1);
        NoMoreTrans(y, y1, PlaceDecodes(c, y1, mid, dec, i + 1).0);
      } else if Victim(y1).Some? {
        var v := Victim(y1).value;
        EvictCommits(c, y1);
        PlaceCommits(c, Evict(c, y1), Without(mid, v), Without(dec, v), i);
        NoMoreTrans(y, y1, Evict(c, y1));
        NoMoreTrans(y, Evict(c, y1), PlaceDecodes(c, Evict(c, y1), Without(mid, v), Without(dec, v), i).0);
      } else {
        PlaceCommits(c, y1, mid, RemoveAt(dec, i), i);
        NoMoreTrans(y, y1, PlaceDecodes(c, y1, mid, RemoveAt(dec, i), i).0);
      }
    } else {
      SameCommits(y, y);
    }
  }

  lemma SameCommits(y: Sys, y1: Sys)
    requires y1.seqs == y.seqs
    ensures NoMoreCommitted(y, y1)
  {
  }

  lemma {:induction false} RetireLateCommits(c: Config, y: Sys, ids: seq<Id>, j: nat)
    ensures NoMoreCommitted(y, RetireLate(c, y, ids, j))
    decreases |ids| - j
  {
    hide Retire, NoMoreCommitted;
    if j < |ids| {
      var y0 := y.(stats := y.stats.(timedOut := y.stats.timedOut + 1));
      var y1 := Retire(c, y0, ids[j], Timeout);
      SameCommits(y, y0);
      RetireCommits(c, y0, ids[j], Timeout);
      NoMoreTrans(y, y0, y1);
      RetireLateCommits(c, y1, ids, j + 1);
      NoMoreTrans(y, y1, RetireLate(c, y1, ids, j + 1));
    } else {
      SameCommits(y, y);
    }
  }

  lemma ExpireCommits(c: Config, y: Sys, late: set<Id>)
    ensures NoMoreCommitted(y, ExpireQueue(c, y, late))
  {
    hide RetireLate, Expired, Punctual, NoMoreCommitted;
    var y0 := y.(waiting := Punctual(y, y.waiting, late));
    SameCommits(y, y0);
    RetireLateCommits(c, y0, Expired(y, y.waiting, late), 0);
    NoMoreTrans(y, y0, ExpireQueue(c, y, late));
  }

  lemma {:induction false} BumpCommits(y: Sys, j: nat)
    ensures NoMoreCommitted(y, BumpWaits(y, j))
    decreases |y.waiting| - j
  {
    hide NoMoreCommitted;
    if j < |y.waiting| {
      var s := Lookup(y, y.waiting[j]);
      var y1 := SetSeq(y, y.waiting[j], s.(waitSteps := s.waitSteps + 1));
      BumpOneCommits(y, y.waiting[j]);
      BumpCommits(y1, j + 1);
      NoMoreTrans(y, y1, BumpWaits(y1, j + 1));
    } else {
      SameCommits(y, y);
    }
  }

  lemma BumpOneCommits(y: Sys, id: Id)
    ensures NoMoreCommitted(y, SetSeq(y, id, Lookup(y, id).(waitSteps := Lookup(y, id).waitSteps + 1)))
  {
  }

  // ---- admission ----

  /** After adoption a sequence is caught up, or its whole history was cached. */
  lemma AdoptCaught(w: World, c: Config, cache: seq<seq<KV>>, y: Sys, id: Id)
    requires ValidConfig(c.kv) && id in y.waiting && SysInv(w, c, cache, y, []) && Adopt(c, y, id).Some?
    ensures var s := Lookup(Adopt(c, y, id).value, id); CaughtUp(c, s) || WhollyCached(c, s)
  {
    hide *;
    InQueues(w, c, cache, y, [], id);
    InvParts(w, c, cache, y, []);
    var s := y.seqs[id];
    WaitingFacts(w, c, s, id in y.running, id in []);
    AdoptIs(c, y, id);
    var (p, t, r) := AllocatePrompt(c.kv, y.pool, s.tokens);
    var cached := CachedBlocks(c.kv, y.pool, s.tokens);
    OpenKv(w, cache, y.pool, y.seqs, y.order);
    AllocatePromptKeeps(w.c, w.universe, y.pool, y.seqs, y.order, id);
    AllocatedParts(w.c, w.universe, y.pool, y.seqs, y.order, id, p, t, cached);
    CachedSpan(c.kv, y.pool, s.tokens);
    LookupIs(Adopt(c, y, id).value, id);
    CaughtOrWhole(c, s, t, cached);
  }

  lemma {:induction false} WalkBound(c: KvConfig, p: Pool, toks: seq<Token>, i: nat)
    requires ValidConfig(c) && i <= Quot(c.blockSize, |toks|)
    ensures i + Walk(c, p, toks, i) <= Quot(c.blockSize, |toks|)
    decreases Quot(c.blockSize, |toks|) - i
  {
    hide Chain, Quot;
    if i < Quot(c.blockSize, |toks|) {
      WalkBound(c, p, toks, i + 1);
    }
  }

  lemma CachedSpan(c: KvConfig, p: Pool, toks: seq<Token>)
    requires ValidConfig(c)
    ensures Span(c.blockSize, CachedBlocks(c, p, toks)) <= |toks|
  {
    hide Walk, Quot, Span;
    NoSpan(c.blockSize);
    WalkBound(c, p, toks, 0);
    FullBlocks(c.blockSize, |toks|, CachedBlocks(c, p, toks));
  }

  lemma CaughtOrWhole(c: Config, s: Sequence, t: Table, cached: nat)
    requires s.tokens != [] && t.committed == cached <= |t.hashes| && Span(c.kv.blockSize, cached) <= |s.tokens|
    requires forall i :: 0 <= i < |t.hashes| ==> (t.hashes[i] != 0 <==> i < cached)
    ensures var s1 := s.(table := t, computed := Min(Span(c.kv.blockSize, cached), |s.tokens| - 1)); CaughtUp(c, s1) || WhollyCached(c, s1)
  {
    NoSpan(c.kv.blockSize);
  }

  lemma StartCaught(w: World, c: Config, cache: seq<seq<KV>>, y: Sys, step: Step, budget: int, i: nat)
    requires ValidConfig(c.kv) && i < |y.waiting| && budget > 0 && SysInv(w, c, cache, y, []) && Building(c, y, step)
    requires Adopt(c, y, y.waiting[i]).Some? && CaughtBut(c, y, step.slices)
    ensures i < |Adopt(c, y, y.waiting[i]).value.waiting|
    ensures var r := Start(c, Adopt(c, y, y.waiting[i]).value, step, budget, i); CaughtBut(c, r.sys, r.step.slices)
  {
    hide SysInv, Building, Adopt, KvOk, RoleOk, Span, CaughtUp, WhollyCached, SameResidents;
    var id := y.waiting[i];
    AdmitAtKeeps(w, c, cache, y, step, budget, i);
    AdoptFacts(w, c, cache, y, id);
    AdoptCaught(w, c, cache, y, id);
    var y1 := Adopt(c, y, id).value;
    var r := Start(c, y1, step, budget, i);
    assert r.step.slices[|step.slices|].id == id;
    forall x ensures CaughtUp(c, Lookup(r.sys, x)) || (WhollyCached(c, Lookup(r.sys, x)) && Sliced(r.step.slices, x)) {
      if x == id {
        StatusCaught(c, Lookup(y1, id));
      } else {
        assert Lookup(r.sys, x) == Lookup(y, x);
        SlicedOn(step.slices, r.step.slices, x);
      }
    }
  }

  lemma StatusCaught(c: Config, s: Sequence)
    ensures CaughtUp(c, s.(status := Running)) <==> CaughtUp(c, s)
    ensures WhollyCached(c, s.(status := Running)) <==> WhollyCached(c, s)
  {
  }

  lemma SlicedOn(a: seq<Slice>, b: seq<Slice>, x: Id)
    requires a <= b
    ensures Sliced(a, x) ==> Sliced(b, x)
  {
    if Sliced(a, x) {
      var k :| 0 <= k < |a| && a[k].id == x;
      assert b[k].id == x;
    }
  }

  lemma MoreSlices(c: Config, y: Sys, a: seq<Slice>, b: seq<Slice>)
    requires CaughtBut(c, y, a) && a <= b
    ensures CaughtBut(c, y, b)
  {
    hide CaughtUp, WhollyCached, Sliced;
    forall x ensures CaughtUp(c, Lookup(y, x)) || (WhollyCached(c, Lookup(y, x)) && Sliced(b, x)) {
      SlicedOn(a, b, x);
    }
  }

  lemma {:induction false} ScanCaught(w: World, c: Config, cache: seq<seq<KV>>, y: Sys, step: Step, budget: int, i: nat, limit: nat)
    requires ValidConfig(c.kv) && budget > 0 && SysInv(w, c, cache, y, []) && Building(c, y, step) && CaughtBut(c, y, step.slices)
    ensures var r := AdmitScan(c, y, step, budget, i, limit); CaughtBut(c, r.sys, r.step.slices)
    decreases limit - i
  {
    hide SysInv, Building, Adopt, AdmissionFits, Start, CaughtBut;
    if i < limit && i < |y.waiting| {
      var id := y.waiting[i];
      WaitingEmpty(w, c, cache, y, id);
      if AdmissionFits(c, y, Lookup(y, id)) && Adopt(c, y, id).Some? {
        StartCaught(w, c, cache, y, step, budget, i);
      } else {
        ScanCaught(w, c, cache, y, step, budget, i + 1, limit);
      }
    }
  }

  lemma {:induction false} AdmitAllCaught(w: World, c: Config, cache: seq<seq<KV>>, y: Sys, step: Step, budget: int)
    requires ValidConfig(c.kv) && 0 <= budget && SysInv(w, c, cache, y, []) && Building(c, y, step) && CaughtBut(c, y, step.slices)
    ensures var (y1, step1, _) := AdmitAll(c, y, step, budget); CaughtBut(c, y1, step1.slices)
    decreases |y.waiting|
  {
    hide SysInv, Building, AdmitScan, CaughtBut;
    var r := AdmitOne(c, y, step, budget);
    if y.waiting != [] && budget > 0 && |y.running| < c.maxNumSeqs {
      ScanKeeps(w, c, cache, y, step, budget, 0, AdmitLimit(c, y));
      ScanCaught(w, c, cache, y, step, budget, 0, AdmitLimit(c, y));
    }
    if r.admitted {
      AdmitAllCaught(w, c, cache, r.sys, r.step, r.budget);
    }
  }

  lemma AllIsBut(c: Config, y: Sys, slices: seq<Slice>)
    requires AllCaught(c, y)
    ensures CaughtBut(c, y, slices)
  {
  }

  lemma ButFrame(c: Config, y: Sys, y1: Sys, slices: seq<Slice>)
    requires CaughtBut(c, y, slices) && forall x :: Lookup(y1, x).table == EmptyTable || SameTable(Lookup(y, x), Lookup(y1, x))
    ensures CaughtBut(c, y1, slices)
  {
    hide Sliced, Lookup;
    NoSpan(c.kv.blockSize);
  }

  predicate SameTable(s: Sequence, s1: Sequence) {
    s1.table == s.table && s1.tokens == s.tokens && s1.computed == s.computed
  }

  lemma RejectCaught(c: Config, y: Sys, dec: seq<Id>, slices: seq<Slice>)
    requires CaughtBut(c, y, slices)
    ensures CaughtBut(c, RejectHead(c, y, dec), slices)
  {
    hide Free, CaughtBut;
    ButFrame(c, y, RejectHead(c, y, dec), slices);
  }

  /** A round leaves everybody caught up but the wholly cached ones, each of which it has given a slice. */
  lemma ScheduleCaught(w: World, c: Config, cache: seq<seq<KV>>, y: Sys, late: set<Id>)
    requires ValidConfig(c.kv) && Inv(w, c, cache, y) && AllCaught(c, y)
    ensures var (y3, step) := Schedule(c, y, late); CaughtBut(c, y3, step.slices)
  {
    hide SysInv, Candidates, Building, SameResidents, NewSlices, IdsIn, StepSuffix, AllCaught, CaughtBut, NoMoreCommitted,
      PlaceDecodes, MidPrefill, Decoding, PrefillSlices, ExpireQueue, DecodeSlices, Schedule, AdmitAll, BumpWaits, RejectHead;
    ScheduleIs(c, y, late);
    SettleKeeps(w, c, cache, y);
    SettleShrinks(c, y);
    var y0 := Started(c, y);
    SameCommits(y, y0);
    PlaceCommits(c, y0, MidPrefill(y0, y0.running), Decoding(y0, y0.running), 0);
    var (y1, mid, dec0) := Settle(c, y);
    NoMoreTrans(y, y0, y1);
    EmptyBuilding(c, y1);
    NoIds(mid);
    PrefillSlicesOk(w, c, cache, y1, mid, dec0, 0, EmptyStep, c.maxBatchedTokens);
    var (step1, budget1) := PrefillSlices(c, y1, mid, 0, EmptyStep, c.maxBatchedTokens);
    var dec := Truncated(dec0, budget1);
    var y2 := ExpireQueue(c, y1, late);
    ExpireKeeps(w, c, cache, y1, late);
    ExpireCommits(c, y1, late);
    NoMoreTrans(y, y1, y2);
    BuildingFrame(c, y1, y2, step1);
    CaughtFrame(c, y, y2);
    AllIsBut(c, y2, step1.slices);
    var y3, step3 := y2, step1;
    if c.continuous || y.batchOpen || y.running == [] {
      AdmissionsCaught(w, c, cache, y2, dec, step1, budget1 - |dec|);
      y3, step3 := Admissions(c, y2, dec, step1, budget1 - |dec|).0, Admissions(c, y2, dec, step1, budget1 - |dec|).1;
    }
    assert dec[0..] == dec;
    DecodeSuffix(y3, dec, 0, step3);
    SuffixFront(step3.slices, dec, DecodeSlices(y3, dec, 0, step3).slices);
    MoreSlices(c, y3, step3.slices, DecodeSlices(y3, dec, 0, step3).slices);
  }

  lemma SuffixFront(front: seq<Slice>, dec: seq<Id>, slices: seq<Slice>)
    requires StepSuffix(front, dec, slices)
    ensures front <= slices
  {
  }

  lemma AdmissionsCaught(w: World, c: Config, cache: seq<seq<KV>>, y: Sys, dec: seq<Id>, step: Step, budget: int)
    requires ValidConfig(c.kv) && 0 <= budget && SysInv(w, c, cache, y, []) && Building(c, y, step) && AllCaught(c, y)
    ensures var (y1, step1) := Admissions(c, y, dec, step, budget); CaughtBut(c, y1, step1.slices)
  {
    hide SysInv, Building, SameResidents, AllCaught, CaughtBut, NoMoreCommitted, AdmitAll, BumpWaits, RejectHead;
    var y0 := BumpWaits(y, 0);
    BumpKeeps(w, c, cache, y, 0);
    BumpCommits(y, 0);
    CaughtFrame(c, y, y0);
    BuildingFrame(c, y, y0, step);
    AllIsBut(c, y0, step.slices);
    AdmitAllCaught(w, c, cache, y0, step, budget);
    var (y1, step1, budget1) := AdmitAll(c, y0, step, budget);
    var y2 := CloseBatch(c, y1, budget1);
    ButFrame(c, y1, y2, step1.slices);
    RejectCaught(c, y2, dec, step1.slices);
  }

  // ---- applying a step ----

  /** Publication never runs ahead of computation. */
  lemma {:induction false} CommitCaught(c: KvConfig, p: Pool, t: Table, toks: seq<Token>, computed: nat)
    requires Span(c.blockSize, t.committed) <= computed
    ensures Span(c.blockSize, CommitComputed(c, p, t, toks, computed).1.committed) <= computed
    decreases |t.blocks| - t.committed
  {
    hide Publish, HashBlock, Piece;
    if c.caching && t.committed < |t.blocks| && Span(c.blockSize, t.committed + 1) <= computed {
      var (p1, t1) := HashFullBlock(c, p, t, t.committed, toks);
      CommitCaught(c, p1, t1.(committed := t.committed + 1), toks, computed);
    }
  }

  lemma SliceCatchesUp(c: Config, g: Progress, sl: Slice, sampled: seq<Token>)
    requires sl.len > 0 && (CaughtUp(c, Lookup(g.sys, sl.id)) || WhollyCached(c, Lookup(g.sys, sl.id)))
    ensures var g1 := SliceDone(c, g, sl, sampled); CaughtUp(c, Lookup(g1.sys, sl.id)) && forall x :: x != sl.id ==> Lookup(g1.sys, x) == Lookup(g.sys, x)
  {
    hide CommitComputed, Without;
    var s := Lookup(g.sys, sl.id);
    CommitCaught(c.kv, g.sys.pool, s.table, s.tokens, s.computed + sl.len);
  }

  lemma {:induction false} SlicesCatchUp(c: Config, g: Progress, slices: seq<Slice>, j: nat, sampled: seq<Token>)
    requires j <= |slices| && CaughtBut(c, g.sys, slices[j..]) && forall k :: 0 <= k < |slices| ==> slices[k].len > 0
    ensures AllCaught(c, SlicesDone(c, g, slices, j, sampled).sys)
    decreases |slices| - j
  {
    hide SliceDone, CaughtUp, WhollyCached, Lookup;
    if j < |slices| {
      var sl := slices[j];
      SliceCatchesUp(c, g, sl, sampled);
      var g1 := SliceDone(c, g, sl, sampled);
      forall x ensures CaughtUp(c, Lookup(g1.sys, x)) || (WhollyCached(c, Lookup(g1.sys, x)) && Sliced(slices[j + 1..], x)) {
        if x != sl.id && Sliced(slices[j..], x) {
          var k :| 0 <= k < |slices[j..]| && slices[j..][k].id == x;
          assert slices[j + 1..][k - 1] == slices[j..][k];
        }
      }
      SlicesCatchUp(c, g1, slices, j + 1, sampled);
    } else {
      assert slices[j..] == [];
    }
  }

  lemma {:induction false} RetireDoneCommits(c: Config, y: Sys, done: seq<Id>, j: nat)
    ensures NoMoreCommitted(y, RetireDone(c, y, done, j))
    decreases |done| - j
  {
    hide Retire, NoMoreCommitted;
    if j < |done| {
      var y1 := Retire(c, y, done[j], Lookup(y, done[j]).finish);
      RetireCommits(c, y, done[j], Lookup(y, done[j]).finish);
      RetireDoneCommits(c, y1, done, j + 1);
      NoMoreTrans(y, y1, RetireDone(c, y1, done, j + 1));
    } else {
      SameCommits(y, y);
    }
  }

  lemma {:induction false} DrainCommits(c: Config, y: Sys, j: nat)
    ensures NoMoreCommitted(y, DrainBatch(c, y, j))
    decreases |y.running| - j
  {
    hide NoMoreCommitted, Drop;
    if j < |y.running| {
      var y1 := Drop(c, y, y.running[j]);
      var y2 := y1.(stats := y1.stats.(finished := y1.stats.finished + 1));
      DropCommits(c, y, y.running[j]);
      SameCommits(y1, y2);
      NoMoreTrans(y, y1, y2);
      DropRuns(c, y, y.running[j]);
      DrainCommits(c, y2, j + 1);
      NoMoreTrans(y, y2, DrainBatch(c, y2, j + 1));
    } else {
      SameCommits(y, y.(running := [], batchOpen := true));
    }
  }

  lemma DropCommits(c: Config, y: Sys, id: Id)
    ensures NoMoreCommitted(y, Drop(c, y, id))
  {
    hide Free;
  }

  lemma DropRuns(c: Config, y: Sys, id: Id)
    ensures Drop(c, y, id).running == y.running
  {
    hide Free;
  }

  lemma StepDoneCaught(c: Config, y: Sys, step: Step, sampled: seq<Token>)
    requires CaughtBut(c, y, step.slices) && forall k :: 0 <= k < |step.slices| ==> step.slices[k].len > 0
    ensures AllCaught(c, OnStepDone(c, y, step, sampled))
  {
    hide SlicesDone, RetireDone, DrainBatch, CaughtBut, AllCaught, NoMoreCommitted;
    assert step.slices[0..] == step.slices;
    SlicesCatchUp(c, Progress(y, 0, []), step.slices, 0, sampled);
    var g := SlicesDone(c, Progress(y, 0, []), step.slices, 0, sampled);
    RetireDoneCommits(c, g.sys, g.done, 0);
    var y1 := RetireDone(c, g.sys, g.done, 0);
    CaughtFrame(c, g.sys, y1);
    DrainCommits(c, y1, 0);
    CaughtFrame(c, y1, DrainBatch(c, y1, 0));
  }

  // ---- over runs ----

  lemma NobodyWhole(c: Config, y: Sys)
    requires CaughtBut(c, y, [])
    ensures AllCaught(c, y)
  {
  }

  lemma TickCaught(w: World, c: Config, m: Machine, late: set<Id>)
    requires ValidConfig(c.kv) && Inv(w, c, m.cache, m.sys) && AllCaught(c, m.sys)
    ensures AllCaught(c, TickOnce(c, w.net, m, late).sys)
  {
    hide SysInv, Schedule, OnStepDone, Forward, Works, CanRun, AllCaught, CaughtBut;
    ScheduleCaught(w, c, m.cache, m.sys, late);
    ScheduleKeeps(w, c, m.cache, m.sys, late);
    var (y, step) := Schedule(c, m.sys, late);
    if step.slices == [] {
      NobodyWhole(c, y);
    } else {
      SlicesPositive(c, y, step);
      ForwardReady(w, c, m.cache, y, step);
      var (cache, sampled) := FullForward(c, w.net, m.cache, y, step);
      StepDoneCaught(c, y, step, sampled);
    }
  }

  lemma SlicesPositive(c: Config, y: Sys, step: Step)
    requires StepValid(c, y, step)
    ensures forall k :: 0 <= k < |step.slices| ==> step.slices[k].len > 0
  {
    hide TotalLen, NumLogits;
    forall k | 0 <= k < |step.slices| ensures step.slices[k].len > 0 {
      assert GoodSlice(c, y, step.slices[k]);
    }
  }

  lemma AddCaught(c: Config, y: Sys, id: Id, prompt: seq<Token>, params: SamplingParams)
    requires AllCaught(c, y)
    ensures AllCaught(c, Add(y, id, prompt, params))
  {
    NoSpan(c.kv.blockSize);
    var y1 := Add(y, id, prompt, params);
    forall x ensures CaughtUp(c, Lookup(y1, x)) {
      if x != id { assert Lookup(y1, x) == Lookup(y, x); }
    }
  }

  lemma ApplyCaught(w: World, c: Config, m: Machine, input: Input)
    requires ValidConfig(c.kv) && Inv(w, c, m.cache, m.sys) && AllCaught(c, m.sys)
    ensures AllCaught(c, Apply(c, w.net, m, input).sys)
  {
    hide SysInv, TickOnce, Retire, NoMoreCommitted;
    match input
    case Arrive(id, prompt, params) =>
      AddCaught(c, m.sys, id, prompt, params);
    case Tick(late) =>
      TickCaught(w, c, m, late);
    case Cancel(id) =>
      var y1 := m.sys.(waiting := Without(m.sys.waiting, id));
      var y2 := m.sys.(running := Without(m.sys.running, id));
      SameCommits(m.sys, y1);
      SameCommits(m.sys, y2);
      RetireCommits(c, y1, id, Abort);
      RetireCommits(c, y2, id, Abort);
      NoMoreTrans(m.sys, y1, Retire(c, y1, id, Abort));
      NoMoreTrans(m.sys, y2, Retire(c, y2, id, Abort));
      CaughtFrame(c, m.sys, Retire(c, y1, id, Abort));
      CaughtFrame(c, m.sys, Retire(c, y2, id, Abort));
  }

  /** Between turns publication never runs ahead of computation, in every reachable state. */
  lemma {:induction false} RunCaught(w: World, c: Config, cache: seq<seq<KV>>, inputs: seq<Input>, m: Machine)
    requires Reached(w, c, cache, inputs, m)
    ensures AllCaught(c, m.sys)
    decreases |inputs|
  {
    hide Apply, NoCollision, SysInv, Books;
    if inputs == [] {
      NoSpan(c.kv.blockSize);
    } else {
      var n := |inputs| - 1;
      var m0 := Run(c, w.net, Boot(c, cache), inputs[..n]);
      RunCaught(w, c, cache, inputs[..n], m0);
      ReachedInv(w, c, cache, inputs[..n], m0);
      ApplyCaught(w, c, m0, inputs[n]);
    }
  }

  // ---- which blocks a step writes to ----

  /** The slice writes to a slot of a published block. */
  ghost predicate WritesPublished(c: Config, y: Sys, sl: Slice)
    requires ValidConfig(c.kv)
  {
    exists pos: nat :: sl.start <= pos < sl.start + sl.len && Get(Lookup(y, sl.id).table.blocks, Quot(c.kv.blockSize, pos)) in y.pool.labels
  }

  /** A table entry that is not hashed has one owner and is not published; a hashed one is published. */
  lemma EntryKinds(w: World, c: Config, cache: seq<seq<KV>>, y: Sys, id: Id, i: nat)
    requires id in y.seqs && i < |y.seqs[id].table.blocks| && SysInv(w, c, cache, y, [])
    ensures i < |y.seqs[id].table.hashes|
    ensures var s := y.seqs[id]; var b := s.table.blocks[i];
            && (s.table.hashes[i] != 0 ==> b in y.pool.labels)
            && (s.table.hashes[i] == 0 ==> b !in y.pool.labels && Get(y.pool.refs, b) == 1)
            && (i >= s.table.committed ==> s.table.hashes[i] == 0)
  {
    hide SysInv, TreeInv, NoCollision, Shape, LabelContents, SeqContents, ListsInv;
    InvParts(w, c, cache, y, []);
    OpenKv(w, cache, y.pool, y.seqs, y.order);
    OpenCache(w.c, w.universe, y.pool, y.seqs, y.order);
    var s := y.seqs[id];
    assert TableInv(w.c, y.pool, s.table, s.tokens);
    OwnedSplit(y.seqs, y.order, id);
    assert s.table.blocks[i] in multiset(s.table.blocks);
    assert s.table.hashes[i] != 0 ==> HashedEntry(w.c, s.table, i, s.tokens);
  }

  lemma PositionInTable(c: Config, s: Sequence, pos: nat)
    requires ValidConfig(c.kv) && pos < Span(c.kv.blockSize, |s.table.blocks|)
    ensures Quot(c.kv.blockSize, pos) < |s.table.blocks|
    ensures Span(c.kv.blockSize, s.table.committed) <= pos ==> s.table.committed <= Quot(c.kv.blockSize, pos)
  {
    FullBlocks(c.kv.blockSize, pos, |s.table.blocks|);
    FullBlocks(c.kv.blockSize, pos, s.table.committed);
  }

  /** Written blocks of a caught-up sequence have one owner and are not published. */
  lemma CaughtWrites(w: World, c: Config, cache: seq<seq<KV>>, y: Sys, sl: Slice, pos: nat)
    requires ValidConfig(c.kv) && GoodSlice(c, y, sl) && CaughtUp(c, Lookup(y, sl.id)) && sl.start <= pos < sl.start + sl.len && SysInv(w, c, cache, y, [])
    ensures var b := Get(Lookup(y, sl.id).table.blocks, Quot(c.kv.blockSize, pos)); b !in y.pool.labels && Get(y.pool.refs, b) == 1
  {
    hide SysInv, Span, Quot;
    PositionInTable(c, Lookup(y, sl.id), pos);
    EntryKinds(w, c, cache, y, sl.id, Quot(c.kv.blockSize, pos));
  }

  /** A wholly cached sequence writes to the last block it adopted. */
  lemma WholeWrites(w: World, c: Config, cache: seq<seq<KV>>, y: Sys, sl: Slice)
    requires ValidConfig(c.kv) && GoodSlice(c, y, sl) && WhollyCached(c, Lookup(y, sl.id)) && SysInv(w, c, cache, y, [])
    ensures WritesPublished(c, y, sl) && sl.start + 1 == |Lookup(y, sl.id).tokens|
  {
    hide SysInv, Quot;
    var s := Lookup(y, sl.id);
    var k := s.table.committed - 1;
    assert Span(c.kv.blockSize, k + 1) == Span(c.kv.blockSize, k) + c.kv.blockSize;
    QuotUnique(c.kv.blockSize, sl.start, k, c.kv.blockSize - 1);
    PositionInTable(c, s, sl.start);
    EntryKinds(w, c, cache, y, sl.id, k);
    assert Get(s.table.blocks, Quot(c.kv.blockSize, sl.start)) in y.pool.labels;
  }

  lemma SliceWrites(w: World, c: Config, cache: seq<seq<KV>>, y: Sys, sl: Slice)
    requires ValidConfig(c.kv) && GoodSlice(c, y, sl) && (CaughtUp(c, Lookup(y, sl.id)) || WhollyCached(c, Lookup(y, sl.id))) && SysInv(w, c, cache, y, [])
    ensures var s := Lookup(y, sl.id);
            && (WritesPublished(c, y, sl) <==> sl.start < Span(c.kv.blockSize, s.table.committed))
            && (WritesPublished(c, y, sl) <==> Span(c.kv.blockSize, s.table.committed) == |s.tokens| == sl.start + 1)
            && (!WritesPublished(c, y, sl) ==> forall pos: nat :: sl.start <= pos < sl.start + sl.len ==>
                  Get(y.pool.refs, Get(s.table.blocks, Quot(c.kv.blockSize, pos))) == 1)
  {
    hide SysInv, Span, Quot;
    if CaughtUp(c, Lookup(y, sl.id)) {
      forall pos: nat | sl.start <= pos < sl.start + sl.len
        ensures var b := Get(Lookup(y, sl.id).table.blocks, Quot(c.kv.blockSize, pos)); b !in y.pool.labels && Get(y.pool.refs, b) == 1
      {
        CaughtWrites(w, c, cache, y, sl, pos);
      }
    } else {
      WholeWrites(w, c, cache, y, sl);
    }
  }

  /**
   In every reachable state and for every slice of the step it emits: the slice writes to a published block if
   and only if it starts inside the blocks already tried for publication, which happens exactly when the
   sequence's whole history was cached and the slice computes its last token again; otherwise every block
   it writes to has one owner.
   */
  lemma SharedWritesExactly(w: World, c: Config, cache: seq<seq<KV>>, inputs: seq<Input>, m: Machine, late: set<Id>, k: nat)
    requires Reached(w, c, cache, inputs, m) && ValidConfig(c.kv) && k < |Schedule(c, m.sys, late).1.slices|
    ensures var (y, step) := Schedule(c, m.sys, late); var sl := step.slices[k]; var s := Lookup(y, sl.id);
            && (WritesPublished(c, y, sl) <==> sl.start < Span(c.kv.blockSize, s.table.committed))
            && (WritesPublished(c, y, sl) <==> Span(c.kv.blockSize, s.table.committed) == |s.tokens| == sl.start + 1)
            && (!WritesPublished(c, y, sl) ==> forall pos: nat :: sl.start <= pos < sl.start + sl.len ==>
                  Get(y.pool.refs, Get(s.table.blocks, Quot(c.kv.blockSize, pos))) == 1)
  {
    hide Reached, SysInv, Books, Schedule, AllCaught, GoodSlice, WritesPublished, Span, Quot, TotalLen, NumLogits, CaughtUp, WhollyCached, Sliced;
    RunCaught(w, c, cache, inputs, m);
    ReachedInv(w, c, cache, inputs, m);
    ScheduleCaught(w, c, m.cache, m.sys, late);
    ScheduleKeeps(w, c, m.cache, m.sys, late);
    var (y, step) := Schedule(c, m.sys, late);
    assert GoodSlice(c, y, step.slices[k]);
    assert CaughtUp(c, Lookup(y, step.slices[k].id)) || WhollyCached(c, Lookup(y, step.slices[k].id));
    SliceWrites(w, c, m.cache, y, step.slices[k]);
  }

  lemma LabelLong(c: KvConfig, universe: set<seq<Token>>, p: Pool, b: Block)
    requires LabelsInv(c, universe, p) && b in p.labels && ValidConfig(c)
    ensures c.blockSize <= |p.labels[b]|
  {
    assert LabelOk(c, universe, p.labels[b], Get(p.blockHash, b));
    var k: nat :| LabelAt(c, p.labels[b], Get(p.blockHash, b), k);
    SpanMono(c.blockSize, 1, k);
  }

  /** A step leaves every slot of every published block as it was, in every layer, whether it writes there or not. */
  lemma PublishedUnchanged(w: World, c: Config, cache: seq<seq<KV>>, inputs: seq<Input>, m: Machine, late: set<Id>, b: Block, o: nat, l: nat)
    requires Reached(w, c, cache, inputs, m) && ValidConfig(c.kv) && b in Schedule(c, m.sys, late).0.pool.labels && o < c.kv.blockSize && l < |m.cache|
    ensures var (y, step) := Schedule(c, m.sys, late);
            && CanRun(w.net, m.cache, Works(y.seqs, step.slices))
            && (var cache1 := Forward(c.kv, w.net, m.cache, Works(y.seqs, step.slices)).0;
                At(cache1[l], Span(c.kv.blockSize, b) + o) == At(m.cache[l], Span(c.kv.blockSize, b) + o))
  {
    hide *;
    ReachedInv(w, c, cache, inputs, m);
    InvIs(w, c, m.cache, m.sys);
    ScheduleKeeps(w, c, m.cache, m.sys, late);
    var (y, step) := Schedule(c, m.sys, late);
    InvIs(w, c, m.cache, y);
    ForwardReady(w, c, m.cache, y, step);
    CanRunIs(w.net, m.cache, Works(y.seqs, step.slices));
    var (cache1, sampled) := Forward(c.kv, w.net, m.cache, Works(y.seqs, step.slices));
    ApplyingInv(w, c, cache1, y, step.slices);
    InvParts(w, c, m.cache, y, []);
    InvParts(w, c, cache1, y, []);
    OpenKv(w, m.cache, y.pool, y.seqs, y.order);
    OpenKv(w, cache1, y.pool, y.seqs, y.order);
    OpenCache(w.c, w.universe, y.pool, y.seqs, y.order);
    LabelsOf(w, y.pool);
    LabelLong(w.c, w.universe, y.pool, b);
    StoredSame(w, m.cache, cache1, y.pool, b, o, l);
  }

  lemma CanRunIs(net: Net, cache: seq<seq<KV>>, works: seq<Work>)
    ensures CanRun(net, cache, works) <==> |cache| == net.layers && forall i :: 0 <= i < |works| ==> WorkOk(works[i])
  {
    hide WorkOk;
  }

  lemma InvIs(w: World, c: Config, cache: seq<seq<KV>>, y: Sys)
    ensures Inv(w, c, cache, y) <==> SysInv(w, c, cache, y, []) && |y.running| <= c.maxNumSeqs
  {
    hide SysInv;
  }

  lemma ApplyingInv(w: World, c: Config, cache: seq<seq<KV>>, y: Sys, slices: seq<Slice>)
    requires Applying(w, c, cache, y, slices, 0, Progress(y, 0, []))
    ensures SysInv(w, c, cache, y, [])
  {
    hide SysInv, Waits;
  }

  lemma StoredSame(w: World, cache: seq<seq<KV>>, cache1: seq<seq<KV>>, p: Pool, b: Block, o: nat, l: nat)
    requires LabelContents(w, cache, p) && LabelContents(w, cache1, p) && b in p.labels && o < w.c.blockSize <= |p.labels[b]|
    requires l < |cache| == |cache1|
    ensures At(cache1[l], Span(w.c.blockSize, b) + o) == At(cache[l], Span(w.c.blockSize, b) + o)
  {
    hide RefKV, Span, At;
    assert BlockContent(w, cache, b, p.labels[b]) && BlockContent(w, cache1, b, p.labels[b]);
    assert OffsetHolds(w, cache, b, p.labels[b], o) && OffsetHolds(w, cache1, b, p.labels[b], o);
  }

  lemma LabelsOf(w: World, p: Pool)
    requires PublishedInv(w.c, w.universe, p)
    ensures LabelsInv(w.c, w.universe, p)
  {
  }
}
