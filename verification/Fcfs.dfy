/**
 First come, first served. In continuous mode with strict admission order, `running` followed by
 `waiting` is one line in arrival order; preemption and admission only move the boundary in it.
 */
module Fcfs {
  import opened Lists
  import opened Paging
  import opened BlockPool
  import opened Requests
  import opened PrefixCache
  import opened PrefixTree
  import opened CacheOps
  import opened Network
  import opened Contents
  import opened Reference
  import opened Scheduling
  import opened Roles
  import opened Safety
  import opened Steps
  import opened Progressing

  predicate Strict(c: Config) {
    c.continuous && c.lookahead <= 1
  }

  function Line(y: Sys): seq<Id> {
    y.running + y.waiting
  }

  /** The same tokens, the same computed length. */
  predicate SameWork(s: Sequence, s1: Sequence) {
    s1.tokens == s.tokens && s1.computed == s.computed && s1.params == s.params && s1.promptLen == s.promptLen
  }

  /** Every sequence fits in the pool together with everything it may generate. */
  ghost predicate Capacity(c: Config, y: Sys) {
    forall id :: id in y.seqs ==> y.seqs[id].promptLen + y.seqs[id].params.maxTokens <= Span(c.kv.blockSize, c.kv.numBlocks)
  }

  // ---- a lone resident always finds a slot ----

  /** If one resident is alone and nothing is available, it owns the whole pool. */
  lemma LoneOwnsAll(w: World, c: Config, cache: seq<seq<KV>>, y: Sys, id: Id)
    requires y.running == [id] && id in y.seqs && Available(y.pool) == 0 && SysInv(w, c, cache, y, [])
    ensures c.kv.numBlocks <= |y.seqs[id].table.blocks|
  {
    hide SysInv, InPlay, HashIndexInv, TreeInv, TablesInv, NoCollision, Shape, LabelContents, SeqContents, Owned;
    InvParts(w, c, cache, y, []);
    var t := y.seqs[id].table;
    forall b: nat | b < c.kv.numBlocks ensures b in t.blocks {
      assert b in Owned(y.seqs, y.order);
      OwnedEntry(y.seqs, y.order, b);
      var x :| x in y.order && x in y.seqs && b in y.seqs[x].table.blocks;
      Resident(w, c, cache, y, x);
    }
    CoverRange(t.blocks, c.kv.numBlocks);
  }

  lemma Resident(w: World, c: Config, cache: seq<seq<KV>>, y: Sys, id: Id)
    requires id in y.seqs && y.seqs[id].table.blocks != [] && SysInv(w, c, cache, y, [])
    ensures id in y.running
  {
    hide KvOk, InPlay, Live, RefOf;
    RoleOf(w, c, y.seqs, QueuesOf(y, []), id);
  }

  /** With nobody resident, nothing is owned and the whole pool is available. */
  lemma NobodyResident(w: World, c: Config, cache: seq<seq<KV>>, y: Sys)
    requires y.running == [] && SysInv(w, c, cache, y, [])
    ensures Available(y.pool) == c.kv.numBlocks && forall b: nat :: Get(y.pool.refs, b) == 0
  {
    hide InPlay, HashIndexInv, TreeInv, TablesInv, NoCollision, Shape, LabelContents, SeqContents, RoleOk, Owned, RolesInv;
    forall b ensures b !in Owned(y.seqs, y.order) {
      if b in Owned(y.seqs, y.order) {
        OwnedEntry(y.seqs, y.order, b);
        var id :| id in y.order && id in y.seqs && b in y.seqs[id].table.blocks;
        Resident(w, c, cache, y, id);
      }
    }
    Partition(c.kv, y.pool, Owned(y.seqs, y.order), []);
  }

  lemma LoneGrows(w: World, c: Config, cache: seq<seq<KV>>, y: Sys, id: Id)
    requires ValidConfig(c.kv) && y.running == [id] && SysInv(w, c, cache, y, []) && Capacity(c, y) && !IsFinished(Lookup(y, id))
    ensures GrowFor(c, y, id).1
  {
    hide SysInv, GrowFor, Available, Span, Capacity;
    RunningKnown(w, c, cache, y, id);
    GrowForKeeps(w, c, cache, y, id);
    if !GrowFor(c, y, id).1 {
      LoneOwnsAll(w, c, cache, y, id);
      TokensFit(w, c, cache, y, id);
      SpanMono(c.kv.blockSize, c.kv.numBlocks, |y.seqs[id].table.blocks|);
      assert false;
    }
  }

  lemma TokensFit(w: World, c: Config, cache: seq<seq<KV>>, y: Sys, id: Id)
    requires id in y.seqs && (id in y.running || id in y.waiting) && SysInv(w, c, cache, y, []) && Capacity(c, y) && !IsFinished(y.seqs[id])
    ensures |y.seqs[id].tokens| < y.seqs[id].promptLen + y.seqs[id].params.maxTokens <= Span(c.kv.blockSize, c.kv.numBlocks)
  {
    hide KvOk, InPlay, Span;
    InQueues(w, c, cache, y, [], id);
    LivePrefix(w.net, y.seqs[id]);
  }

  lemma NobodyFinished(w: World, c: Config, cache: seq<seq<KV>>, y: Sys, id: Id)
    requires c.continuous && id in y.running && SysInv(w, c, cache, y, [])
    ensures id in y.seqs && !IsFinished(y.seqs[id])
  {
    hide KvOk, InPlay, Live, RefOf, Span;
    InQueues(w, c, cache, y, [], id);
  }

  // ---- settling the residents ----

  /** Survivors are the oldest residents, untouched; the line is the same line. */
  ghost predicate Settled(y: Sys, y1: Sys) {
    && Line(y1) == Line(y) && y1.running <= y.running
    && y1.seqs.Keys == y.seqs.Keys
    && (forall x :: x in y1.running && x in y.seqs ==> SameWork(y.seqs[x], y1.seqs[x]))
    && (forall x :: x in y.waiting && x in y.seqs ==> SameWork(y.seqs[x], y1.seqs[x]))
    && (forall x :: x in y.seqs ==> y1.seqs[x].promptLen == y.seqs[x].promptLen && y1.seqs[x].params == y.seqs[x].params)
    && (forall x :: x in y.seqs ==> y1.seqs[x].finish == y.seqs[x].finish && y1.seqs[x].waitSteps == y.seqs[x].waitSteps)
  }

  lemma SettledTrans(y: Sys, y1: Sys, y2: Sys)
    requires Settled(y, y1) && Settled(y1, y2) && NoDup(Line(y))
    requires forall x :: x in y.running || x in y.waiting ==> x in y.seqs
    ensures Settled(y, y2)
  {
    forall x | x in y.waiting && x in y.seqs ensures SameWork(y.seqs[x], y2.seqs[x]) {
      assert x in y1.waiting by {
        var i :| 0 <= i < |y.waiting| && y.waiting[i] == x;
        assert Line(y)[|y.running| + i] == x && Line(y1)[|y.running| + i] == x;
        assert y1.waiting[|y.running| + i - |y1.running|] == x;
      }
    }
  }

  /** Making room preempts the last in the running order, which stays first among the waiting. */
  lemma PreemptSettled(w: World, c: Config, cache: seq<seq<KV>>, y: Sys)
    requires y.running != [] && LastFinished(y, |y.running|).None? && SysInv(w, c, cache, y, [])
    ensures Victim(y).Some? && Victim(y).value == y.running[|y.running| - 1]
    ensures Settled(y, Evict(c, y))
  {
    hide *;
    VictimIsLast(y);
    EvictShape(w, c, cache, y);
    var v := Victim(y).value;
    RunningKnown(w, c, cache, y, v);
    RunningNoDup(w, c, cache, y);
    LastPreempted(y, Evict(c, y), v);
  }

  lemma LastPreempted(y: Sys, y1: Sys, v: Id)
    requires v in y.seqs && v in y1.seqs && PreemptedLast(y, y1, v) && v !in y.waiting && v !in y1.running
    requires (forall x :: x in y1.seqs <==> x in y.seqs) && (forall x :: x in y.seqs && x != v ==> y1.seqs[x] == y.seqs[x])
    ensures Settled(y, y1)
  {
    var n := |y.running| - 1;
    assert y.running == y.running[..n] + [v];
    assert Line(y1) == Line(y);
  }

  lemma VictimIsLast(y: Sys)
    requires y.running != [] && LastFinished(y, |y.running|).None?
    ensures Victim(y) == Some(y.running[|y.running| - 1]) && !IsFinished(Lookup(y, y.running[|y.running| - 1]))
  {
  }

  /** In continuous mode no resident is finished. */
  lemma NoneFinished(w: World, c: Config, cache: seq<seq<KV>>, y: Sys)
    requires c.continuous && SysInv(w, c, cache, y, [])
    ensures LastFinished(y, |y.running|).None?
  {
    hide SysInv;
    forall k | 0 <= k < |y.running| ensures !IsFinished(Lookup(y, y.running[k])) {
      NobodyFinished(w, c, cache, y, y.running[k]);
    }
  }

  lemma LineNoDup(w: World, c: Config, cache: seq<seq<KV>>, y: Sys)
    requires SysInv(w, c, cache, y, [])
    ensures NoDup(Line(y)) && forall x :: x in y.running || x in y.waiting ==> x in y.seqs
  {
    hide SysInv;
    RunningNoDup(w, c, cache, y);
    forall x | x in y.running ensures x !in y.waiting && x in y.seqs {
      NotWaiting(w, c, cache, y, x);
      RunningKnown(w, c, cache, y, x);
    }
    forall x | x in y.waiting ensures x in y.seqs {
      WaitingEmpty(w, c, cache, y, x);
    }
    NoDupConcat(y.running, y.waiting);
  }

  lemma GrowSettled(c: Config, y: Sys, y1: Sys, id: Id)
    requires id in y.seqs && id in y1.seqs && y1 == y.(pool := y1.pool, seqs := y.seqs[id := y.seqs[id].(table := y1.seqs[id].table)])
    ensures Settled(y, y1)
  {
  }

  lemma CapacityKept(c: Config, y: Sys, y1: Sys)
    requires Capacity(c, y) && Settled(y, y1)
    ensures Capacity(c, y1)
  {
    hide Line, Span;
  }

  lemma {:induction false} PlaceSettled(w: World, c: Config, cache: seq<seq<KV>>, y: Sys, mid: seq<Id>, dec: seq<Id>, i: nat)
    requires ValidConfig(c.kv) && c.continuous && SysInv(w, c, cache, y, []) && Candidates(c, y, mid, dec, i)
    ensures Settled(y, PlaceDecodes(c, y, mid, dec, i).0)
    ensures Capacity(c, y) && y.running != [] ==> PlaceDecodes(c, y, mid, dec, i).0.running != []
    decreases |y.running|, |dec| - i
  {
    hide SysInv, Candidates, GrowFor, Victim, Evict, Settled, Capacity, NoDup, Line;
    if i < |dec| {
      CandidateHere(c, y, mid, dec, i);
      GrowForKeeps(w, c, cache, y, dec[i]);
      LineNoDup(w, c, cache, y);
      var (y1, ok) := GrowFor(c, y, dec[i]);
      if ok {
        GrowCandidates(c, y, y1, mid, dec, i);
        GrowSettled(c, y, y1, dec[i]);
        if Capacity(c, y) { CapacityKept(c, y, y1); }
        PlaceSettled(w, c, cache, y1, mid, dec, i + 1);
        SettledTrans(y, y1, PlaceDecodes(c, y1, mid, dec, i + 1).0);
      } else {
        NoneFinished(w, c, cache, y);
        PreemptSettled(w, c, cache, y);
        EvictCandidates(w, c, cache, y, mid, dec, i);
        EvictKeeps(w, c, cache, y);
        var v := Victim(y).value;
        if Capacity(c, y) {
          if |y.running| == 1 { LoneGrows(w, c, cache, y, dec[i]); }
          CapacityKept(c, y, Evict(c, y));
        }
        PlaceSettled(w, c, cache, Evict(c, y), Without(mid, v), Without(dec, v), i);
        SettledTrans(y, Evict(c, y), PlaceDecodes(c, Evict(c, y), Without(mid, v), Without(dec, v), i).0);
      }
    } else {
      SettledSame(y);
    }
  }

  lemma SettledSame(y: Sys)
    ensures Settled(y, y)
  {
  }

  lemma SettleSettled(w: World, c: Config, cache: seq<seq<KV>>, y: Sys)
    requires ValidConfig(c.kv) && c.continuous && SysInv(w, c, cache, y, [])
    ensures Settled(y, Settle(c, y).0)
    ensures Capacity(c, y) && y.running != [] ==> Settle(c, y).0.running != []
  {
    hide SysInv, Candidates, PlaceDecodes, MidPrefill, Decoding;
    var y0 := Started(c, y);
    StatsOnly(w, c, cache, y, y0, []);
    StartCandidates(w, c, cache, y0);
    PlaceSettled(w, c, cache, y0, MidPrefill(y0, y0.running), Decoding(y0, y0.running), 0);
  }

  /** Memory pressure never evicts a sequence older than the one it makes room for. */
  lemma VictimNotOlder(w: World, c: Config, cache: seq<seq<KV>>, y: Sys, i: nat)
    requires c.continuous && i < |y.running| && SysInv(w, c, cache, y, [])
    ensures Victim(y).Some?
    ensures forall k :: 0 <= k < |y.running| && y.running[k] == Victim(y).value ==> i <= k
  {
    hide SysInv, Evict;
    RunningNoDup(w, c, cache, y);
    forall k | 0 <= k < |y.running| ensures !IsFinished(Lookup(y, y.running[k])) {
      NobodyFinished(w, c, cache, y, y.running[k]);
    }
  }

  // ---- admission moves the boundary ----

  /** Admission keeps the line, the residents, and every queued sequence it does not admit. */
  ghost predicate Advanced(y: Sys, y1: Sys) {
    && Line(y1) == Line(y) && SameResidents(y, y1) && y1.seqs.Keys == y.seqs.Keys
    && (forall x :: x in y.seqs ==> y1.seqs[x].promptLen == y.seqs[x].promptLen && y1.seqs[x].params == y.seqs[x].params && y1.seqs[x].tokens == y.seqs[x].tokens)
    && (forall x :: x in y.seqs ==> y1.seqs[x].computed >= y.seqs[x].computed)
    && (forall x :: x in y.seqs ==> y1.seqs[x].finish == y.seqs[x].finish)
  }

  lemma AdvancedTrans(y: Sys, y1: Sys, y2: Sys)
    requires Advanced(y, y1) && Advanced(y1, y2)
    ensures Advanced(y, y2)
  {
    hide Line;
    SameResidentsTrans(y, y1, y2);
  }

  lemma AdmitHeadAdvanced(w: World, c: Config, cache: seq<seq<KV>>, y: Sys, step: Step, budget: int)
    requires ValidConfig(c.kv) && y.waiting != [] && budget > 0 && SysInv(w, c, cache, y, []) && Building(c, y, step)
    requires Adopt(c, y, y.waiting[0]).Some?
    ensures 0 < |Adopt(c, y, y.waiting[0]).value.waiting|
    ensures Advanced(y, Start(c, Adopt(c, y, y.waiting[0]).value, step, budget, 0).sys)
  {
    hide SysInv, Building, Adopt, KvOk, RoleOk, Span;
    var id := y.waiting[0];
    AdmitAtKeeps(w, c, cache, y, step, budget, 0);
    AdoptFacts(w, c, cache, y, id);
    WaitingComputed(w, c, cache, y, id);
    var r := Start(c, Adopt(c, y, id).value, step, budget, 0);
    assert y.waiting == [id] + y.waiting[1..];
    assert Line(r.sys) == Line(y);
    assert r.sys.seqs == y.seqs[id := r.sys.seqs[id]];
  }

  lemma WaitingComputed(w: World, c: Config, cache: seq<seq<KV>>, y: Sys, id: Id)
    requires id in y.waiting && SysInv(w, c, cache, y, [])
    ensures id in y.seqs && y.seqs[id].computed == 0
  {
    hide KvOk, Live, InPlay;
    InQueues(w, c, cache, y, [], id);
  }

  /** With strict order the scan looks at the head only. */
  lemma StrictScan(w: World, c: Config, cache: seq<seq<KV>>, y: Sys, step: Step, budget: int)
    requires ValidConfig(c.kv) && y.waiting != [] && budget > 0 && SysInv(w, c, cache, y, []) && Building(c, y, step)
    ensures var r := AdmitScan(c, y, step, budget, 0, 1);
            && Advanced(y, r.sys)
            && (r.admitted <==> AdmissionFits(c, y, Lookup(y, y.waiting[0])) && Adopt(c, y, y.waiting[0]).Some?)
  {
    hide SysInv, Building, Adopt, AdmissionFits, Start;
    var id := y.waiting[0];
    WaitingEmpty(w, c, cache, y, id);
    if AdmissionFits(c, y, Lookup(y, id)) && Adopt(c, y, id).Some? {
      AdmitHeadAdvanced(w, c, cache, y, step, budget);
      AdmitAtKeeps(w, c, cache, y, step, budget, 0);
    }
  }

  lemma {:induction false} AdmitAllAdvanced(w: World, c: Config, cache: seq<seq<KV>>, y: Sys, step: Step, budget: int)
    requires ValidConfig(c.kv) && Strict(c) && 0 <= budget && SysInv(w, c, cache, y, []) && Building(c, y, step)
    ensures Advanced(y, AdmitAll(c, y, step, budget).0)
    decreases |y.waiting|
  {
    hide SysInv, Building, AdmitScan, Advanced;
    var r := AdmitOne(c, y, step, budget);
    AdvancedSame(y);
    if y.waiting != [] && budget > 0 && |y.running| < c.maxNumSeqs {
      ScanKeeps(w, c, cache, y, step, budget, 0, 1);
      StrictScan(w, c, cache, y, step, budget);
    }
    if r.admitted {
      AdmitAllAdvanced(w, c, cache, r.sys, r.step, r.budget);
      AdvancedTrans(y, r.sys, AdmitAll(c, r.sys, r.step, r.budget).0);
    }
  }

  lemma AdvancedSame(y: Sys)
    ensures Advanced(y, y)
  {
  }

  lemma {:induction false} BumpAdvanced(w: World, c: Config, cache: seq<seq<KV>>, y: Sys, j: nat)
    requires SysInv(w, c, cache, y, [])
    ensures Advanced(y, BumpWaits(y, j))
    decreases |y.waiting| - j
  {
    hide SysInv, Advanced;
    if j < |y.waiting| {
      var id := y.waiting[j];
      BumpOneKeeps(w, c, cache, y, id);
      var y1 := SetSeq(y, id, Lookup(y, id).(waitSteps := Lookup(y, id).waitSteps + 1));
      BumpAdvanced(w, c, cache, y1, j + 1);
      BumpOneAdvanced(y, id);
      AdvancedTrans(y, y1, BumpWaits(y1, j + 1));
    } else {
      AdvancedSame(y);
    }
  }

  lemma {:induction false} BumpPool(y: Sys, j: nat)
    ensures BumpWaits(y, j).pool == y.pool && BumpWaits(y, j).waiting == y.waiting && BumpWaits(y, j).running == y.running
    decreases |y.waiting| - j
  {
    if j < |y.waiting| {
      var s := Lookup(y, y.waiting[j]);
      BumpPool(SetSeq(y, y.waiting[j], s.(waitSteps := s.waitSteps + 1)), j + 1);
    }
  }

  lemma GrowResidents(c: Config, y: Sys, id: Id)
    requires ValidConfig(c.kv)
    ensures GrowFor(c, y, id).0.running == y.running
  {
  }

  lemma BumpOneAdvanced(y: Sys, id: Id)
    requires id in y.seqs && id !in y.running
    ensures Advanced(y, SetSeq(y, id, Lookup(y, id).(waitSteps := Lookup(y, id).waitSteps + 1)))
  {
  }

  // ---- the line through a whole turn of the loop ----

  lemma ExpireLine(w: World, c: Config, cache: seq<seq<KV>>, y: Sys, late: set<Id>)
    requires SysInv(w, c, cache, y, [])
    ensures IsSub(Line(ExpireQueue(c, y, late)), Line(y))
  {
    hide SysInv, IsSub, ExpireQueue;
    ExpireKeeps(w, c, cache, y, late);
    PunctualIsSub(y, y.waiting, late);
    SubConcatLeft(y.running, Punctual(y, y.waiting, late), y.waiting);
  }

  lemma RejectLine(c: Config, y: Sys, dec: seq<Id>)
    requires y.waiting != [] ==> y.waiting[0] in y.seqs
    ensures IsSub(Line(RejectHead(c, y, dec)), Line(y))
  {
    hide IsSub, Retire;
    SubRefl(Line(y));
    if y.waiting != [] && y.running == [] && dec == [] {
      RetireFrame(c, y.(waiting := y.waiting[1..]), y.waiting[0], Abort);
      assert Line(y) == y.waiting && Without(y.waiting, y.waiting[0]) == y.waiting[1..];
      SubWithout(y.waiting, y.waiting[0]);
      assert [] + y.waiting[1..] == y.waiting[1..];
    }
  }

  lemma AdmissionsLine(w: World, c: Config, cache: seq<seq<KV>>, y: Sys, dec: seq<Id>, step: Step, budget: int)
    requires ValidConfig(c.kv) && Strict(c) && 0 <= budget && |y.running| <= c.maxNumSeqs && SysInv(w, c, cache, y, []) && Building(c, y, step)
    ensures IsSub(Line(Admissions(c, y, dec, step, budget).0), Line(y))
  {
    hide SysInv, Building, AdmitAll, BumpWaits, RejectHead, SameResidents, IsSub;
    var y0 := BumpWaits(y, 0);
    BumpKeeps(w, c, cache, y, 0);
    BumpAdvanced(w, c, cache, y, 0);
    BuildingFrame(c, y, y0, step);
    AdmitAllKeeps(w, c, cache, y0, step, budget);
    AdmitAllAdvanced(w, c, cache, y0, step, budget);
    var (y1, step1, budget1) := AdmitAll(c, y0, step, budget);
    var y2 := CloseBatch(c, y1, budget1);
    if y2.waiting != [] { WaitingEmpty(w, c, cache, y1, y2.waiting[0]); }
    RejectLine(c, y2, dec);
  }

  /** `schedule` reorders nothing: what is left of the line is a subsequence of what it was. */
  lemma ScheduleLine(w: World, c: Config, cache: seq<seq<KV>>, y: Sys, late: set<Id>)
    requires ValidConfig(c.kv) && Strict(c) && Inv(w, c, cache, y)
    ensures IsSub(Line(Schedule(c, y, late).0), Line(y))
  {
    hide SysInv, Candidates, Building, SameResidents, NewSlices, IdsIn, Line, Settled, IsSub,
      Settle, PrefillSlices, ExpireQueue, Admissions, DecodeSlices, Schedule;
    ScheduleIs(c, y, late);
    SettleKeeps(w, c, cache, y);
    SettleShrinks(c, y);
    SettleSettled(w, c, cache, y);
    var (y1, mid, dec0) := Settle(c, y);
    SettledLine(y, y1);
    EmptyBuilding(c, y1);
    NoIds(mid);
    PrefillSlicesOk(w, c, cache, y1, mid, dec0, 0, EmptyStep, c.maxBatchedTokens);
    var (step1, budget1) := PrefillSlices(c, y1, mid, 0, EmptyStep, c.maxBatchedTokens);
    var dec := Truncated(dec0, budget1);
    var y2 := ExpireQueue(c, y1, late);
    ExpireKeeps(w, c, cache, y1, late);
    ExpireLine(w, c, cache, y1, late);
    BuildingFrame(c, y1, y2, step1);
    AdmissionsLine(w, c, cache, y2, dec, step1, budget1 - |dec|);
    SubTrans(Line(Schedule(c, y, late).0), Line(y2), Line(y));
  }

  lemma SettledLine(y: Sys, y1: Sys)
    requires Settled(y, y1)
    ensures Line(y1) == Line(y)
  {
  }

  lemma {:induction false} SlicesLine(c: Config, g: Progress, slices: seq<Slice>, j: nat, sampled: seq<Token>)
    ensures var g1 := SlicesDone(c, g, slices, j, sampled); IsSub(g1.sys.running, g.sys.running) && g1.sys.waiting == g.sys.waiting && g1.sys.order == g.sys.order
    decreases |slices| - j
  {
    hide CommitComputed, IsSub;
    SubRefl(g.sys.running);
    if j < |slices| {
      SubWithout(g.sys.running, slices[j].id);
      var g1 := SliceDone(c, g, slices[j], sampled);
      SlicesLine(c, g1, slices, j + 1, sampled);
      SubTrans(SlicesDone(c, g, slices, j, sampled).sys.running, g1.sys.running, g.sys.running);
    }
  }

  lemma {:induction false} RetireDoneOrder(c: Config, y: Sys, done: seq<Id>, j: nat)
    ensures var y1 := RetireDone(c, y, done, j); y1.running == y.running && y1.waiting == y.waiting && y1.order == y.order
    decreases |done| - j
  {
    hide Free;
    if j < |done| {
      RetireDoneOrder(c, Retire(c, y, done[j], Lookup(y, done[j]).finish), done, j + 1);
    }
  }

  lemma StepDoneLine(c: Config, y: Sys, step: Step, sampled: seq<Token>)
    requires c.continuous
    ensures IsSub(Line(OnStepDone(c, y, step, sampled)), Line(y)) && OnStepDone(c, y, step, sampled).order == y.order
  {
    hide IsSub, SlicesDone, RetireDone;
    SlicesLine(c, Progress(y, 0, []), step.slices, 0, sampled);
    var g := SlicesDone(c, Progress(y, 0, []), step.slices, 0, sampled);
    RetireDoneOrder(c, g.sys, g.done, 0);
    SubConcatRight(g.sys.running, y.running, y.waiting);
  }
}
