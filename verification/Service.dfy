/**
 Who is served, under every lookahead and in both modes. The head of the queue is turned away exactly
 when nobody is resident and nobody in the scan window fits the empty pool above the configured
 watermark; with no explicit watermark, every accepted request that is neither cancelled nor late ends
 with its complete reference output, unless the engine is stuck.
 */
module Service {
  import opened Lists
  import opened Paging
  import opened BlockPool
  import opened Requests
  import opened PrefixCache
  import opened PrefixTree
  import opened CacheOps
  import opened Network
  import opened Contents
  import opened Reference
  import opened Scheduling
  import opened Roles
  import opened Safety
  import opened Steps
  import opened Progressing
  import opened Ledger
  import opened Engine
  import opened Theorems
  import opened Fcfs
  import opened Admitting
  import opened Drain

  // ---- when does the head fit an empty pool? ----

  /** More blocks than there are, or too few left above an explicit watermark. */
  predicate TooBig(c: Config, p: Pool, toks: seq<Token>)
    requires ValidConfig(c.kv)
  {
    var needed := BlocksNeeded(c.kv, |toks|);
    needed > c.kv.numBlocks || (c.watermark > 0 && c.kv.numBlocks - (needed - CachedBlocks(c.kv, p, toks)) < c.watermark)
  }

  lemma {:induction false} AllHitsIdle(c: KvConfig, p: Pool, toks: seq<Token>, k: nat)
    requires forall b: nat :: Get(p.refs, b) == 0
    ensures LruHits(c, p, toks, k) == k
  {
    if k > 0 {
      AllHitsIdle(c, p, toks, k - 1);
    }
  }

  /** With nobody resident a queued request fits exactly if it is not too big. */
  lemma FitsAlone(w: World, c: Config, cache: seq<seq<KV>>, y: Sys, i: nat)
    requires ValidConfig(c.kv) && y.running == [] && i < |y.waiting| && SysInv(w, c, cache, y, [])
    ensures y.waiting[i] in y.seqs
    ensures Fits(c, y, i) <==> !TooBig(c, y.pool, y.seqs[y.waiting[i]].tokens)
  {
    hide SysInv, CachedBlocks, BlocksNeeded, LruHits, AdoptHits, TakeFresh, Span;
    var id := y.waiting[i];
    WaitingEmpty(w, c, cache, y, id);
    WaitingTokens(w, c, cache, y, id);
    NobodyResident(w, c, cache, y);
    var toks := y.seqs[id].tokens;
    AllHitsIdle(c.kv, y.pool, toks, CachedBlocks(c.kv, y.pool, toks));
  }

  lemma WaitingTokens(w: World, c: Config, cache: seq<seq<KV>>, y: Sys, id: Id)
    requires id in y.waiting && SysInv(w, c, cache, y, [])
    ensures id in y.seqs && y.seqs[id].tokens != []
  {
    hide KvOk, Live, InPlay;
    InQueues(w, c, cache, y, [], id);
  }

  // ---- rejection ----

  /** Position `k` is in the scan window, is not too big, and everyone before it is too big and will not starve this round. */
  ghost predicate WindowFit(c: Config, y: Sys, k: nat)
    requires ValidConfig(c.kv)
  {
    && (k == 0 || k < c.lookahead) && k < |y.waiting| && !TooBig(c, y.pool, Lookup(y, y.waiting[k]).tokens)
    && forall j :: 0 <= j < k ==> TooBig(c, y.pool, Lookup(y, y.waiting[j]).tokens) && Lookup(y, y.waiting[j]).waitSteps + 1 < c.starvationSteps
  }

  lemma FirstFitIsWindowFit(w: World, c: Config, cache: seq<seq<KV>>, y: Sys, k: nat)
    requires ValidConfig(c.kv) && y.running == [] && SysInv(w, c, cache, y, [])
    ensures var y0 := BumpWaits(y, 0); FirstInWindow(c, y0, k) <==> WindowFit(c, y, k)
  {
    hide SysInv, TooBig, Fits, BumpWaits, Starving, NoDup;
    RunningNoDup(w, c, cache, y);
    BumpKeeps(w, c, cache, y, 0);
    BumpPool(y, 0);
    var y0 := BumpWaits(y, 0);
    forall j | 0 <= j < |y.waiting|
      ensures (Fits(c, y0, j) <==> !TooBig(c, y.pool, Lookup(y, y.waiting[j]).tokens)) && (Starving(c, y0, j) <==> Lookup(y, y.waiting[j]).waitSteps + 1 >= c.starvationSteps)
    {
      FitsAlone(w, c, cache, y0, j);
      BumpExact(y, 0, j);
      StarvingIs(c, y0, j);
    }
  }

  lemma StarvingIs(c: Config, y: Sys, i: nat)
    requires i < |y.waiting|
    ensures Starving(c, y, i) <==> Lookup(y, y.waiting[i]).waitSteps >= c.starvationSteps
  {
  }

  /** With nobody resident, the round admits exactly if somebody in the window fits. */
  lemma AdmitsAlone(w: World, c: Config, cache: seq<seq<KV>>, y: Sys)
    requires ValidConfig(c.kv) && y.running == [] && SysInv(w, c, cache, y, [])
    ensures Admits(c, Started(c, y), EmptyStep, c.maxBatchedTokens) <==> exists k: nat :: WindowFit(c, y, k)
  {
    hide *;
    PolicyOk(w, c, cache, y);
    PolicyParts(c);
    AdmitsExactly(w, c, cache, y);
    var y1 := Started(c, y);
    StartedKeeps(w, c, cache, y);
    var y0 := BumpWaits(y1, 0);
    forall k: nat ensures FirstInWindow(c, y0, k) <==> WindowFit(c, y, k) {
      FirstFitIsWindowFit(w, c, cache, y1, k);
      WindowFitStarted(c, y, k);
    }
    AnyFitIs(c, y, y0);
  }

  lemma AnyFitIs(c: Config, y: Sys, y0: Sys)
    requires ValidConfig(c.kv) && forall k: nat :: FirstInWindow(c, y0, k) <==> WindowFit(c, y, k)
    ensures AnyFit(c, y0) <==> exists k: nat :: WindowFit(c, y, k)
  {
    hide FirstInWindow, WindowFit;
    if k: nat :| FirstInWindow(c, y0, k) {
      assert WindowFit(c, y, k);
    }
    if k: nat :| WindowFit(c, y, k) {
      assert FirstInWindow(c, y0, k);
    }
  }

  lemma PolicyParts(c: Config)
    requires ValidPolicy(c)
    ensures c.maxNumSeqs >= 1
  {
  }

  lemma StartedKeeps(w: World, c: Config, cache: seq<seq<KV>>, y: Sys)
    requires SysInv(w, c, cache, y, [])
    ensures Started(c, y).running == y.running && SysInv(w, c, cache, Started(c, y), [])
  {
    hide SysInv;
    StatsOnly(w, c, cache, y, Started(c, y), []);
  }

  lemma WindowFitStarted(c: Config, y: Sys, k: nat)
    requires ValidConfig(c.kv)
    ensures WindowFit(c, Started(c, y), k) <==> WindowFit(c, y, k)
  {
    hide TooBig;
  }

  /** With nobody resident and nobody late, the head is turned away exactly if nobody in the window fits. */
  lemma ScheduleAlone(w: World, c: Config, cache: seq<seq<KV>>, y: Sys)
    requires ValidConfig(c.kv) && Inv(w, c, cache, y) && y.running == [] && y.waiting != []
    ensures var y3 := Schedule(c, y, {}).0;
            if exists k: nat :: WindowFit(c, y, k) then SameRequests(y, y3) && SameMembers(y, y3) else HeadGone(y, y3)
  {
    hide SysInv, Building, AnyLive, ExpireQueue, Admissions, Admits, Schedule, Onwards, HeadGone, Punctual, IsSub, WindowFit, SameRequests, SameMembers;
    PolicyOk(w, c, cache, y);
    NobodyLive(y);
    ScheduleIdle(c, y, {});
    AdmitsAlone(w, c, cache, y);
    var y1 := Started(c, y);
    StatsOnly(w, c, cache, y, y1, []);
    EmptyBuilding(c, y1);
    NobodyLate(y1, y1.waiting);
    ExpireNothing(c, y1, {});
    AdmissionsOnward(w, c, cache, y1, [], EmptyStep, c.maxBatchedTokens);
    var (y3, step3) := Admissions(c, y1, [], EmptyStep, c.maxBatchedTokens);
    if Admits(c, y1, EmptyStep, c.maxBatchedTokens) {
      OnwardsKeep(c, y1, y3, EmptyStep, step3, c.maxBatchedTokens);
    }
    StartedSame(c, y, y3);
  }

  lemma NobodyLive(y: Sys)
    requires y.running == []
    ensures !AnyLive(y)
  {
  }

  lemma OnwardsKeep(c: Config, y: Sys, y1: Sys, step: Step, step1: Step, budget: int)
    requires Onwards(c, y, y1, true, step, step1, budget)
    ensures SameRequests(y, y1) && SameMembers(y, y1)
  {
  }

  lemma StartedSame(c: Config, y: Sys, y1: Sys)
    ensures SameRequests(Started(c, y), y1) <==> SameRequests(y, y1)
    ensures SameMembers(Started(c, y), y1) <==> SameMembers(y, y1)
    ensures HeadGone(Started(c, y), y1) <==> HeadGone(y, y1)
  {
  }

  /** In every reachable state with nobody resident: the head is turned away if and only if nobody in the window fits. */
  lemma TurnedAwayExactly(w: World, c: Config, cache: seq<seq<KV>>, inputs: seq<Input>, m: Machine)
    requires Reached(w, c, cache, inputs, m) && m.sys.running == [] && m.sys.waiting != []
    ensures ValidConfig(c.kv)
    ensures HeadGone(m.sys, Schedule(c, m.sys, {}).0) <==> forall k: nat :: !WindowFit(c, m.sys, k)
    ensures c.lookahead <= 1 ==>
              (HeadGone(m.sys, Schedule(c, m.sys, {}).0) <==> TooBig(c, m.sys.pool, Lookup(m.sys, m.sys.waiting[0]).tokens))
  {
    hide Reached, SysInv, Books, Schedule, TooBig;
    ReachedInv(w, c, cache, inputs, m);
    ConfigOf(w, c, m.cache, m.sys, []);
    ScheduleAlone(w, c, m.cache, m.sys);
    KeptIsNotGone(m.sys, Schedule(c, m.sys, {}).0);
    if !TooBig(c, m.sys.pool, Lookup(m.sys, m.sys.waiting[0]).tokens) && c.lookahead <= 1 {
      assert WindowFit(c, m.sys, 0);
    }
  }

  lemma KeptIsNotGone(y: Sys, y1: Sys)
    ensures !(SameMembers(y, y1) && HeadGone(y, y1))
  {
    if SameMembers(y, y1) && HeadGone(y, y1) {
      assert false;
    }
  }

  /** An explicit watermark as large as the pool turns away every request, however small its prompt. */
  lemma WatermarkTurnsAwaySmall(w: World, c: Config, cache: seq<seq<KV>>, inputs: seq<Input>, m: Machine)
    requires Reached(w, c, cache, inputs, m) && m.sys.running == [] && m.sys.waiting != []
    requires !c.kv.caching && c.watermark >= c.kv.numBlocks
    ensures ValidConfig(c.kv) && HeadGone(m.sys, Schedule(c, m.sys, {}).0)
  {
    hide Reached, SysInv, Books, Schedule, HeadGone;
    ReachedInv(w, c, cache, inputs, m);
    ConfigOf(w, c, m.cache, m.sys, []);
    TurnedAwayExactly(w, c, cache, inputs, m);
    forall k: nat ensures !WindowFit(c, m.sys, k) {
      if k < |m.sys.waiting| {
        WaitingTokens(w, c, m.cache, m.sys, m.sys.waiting[k]);
        BlocksForFits(c.kv.blockSize, |Lookup(m.sys, m.sys.waiting[k]).tokens|, 0);
      }
    }
  }

  // ---- nobody leaves unserved ----

  predicate Served(s: Sequence) {
    s.finish == Stop || s.finish == Length
  }

  /** Everyone in line in `y` is, in `y1`, still in line or served; served stays served. */
  ghost predicate Served1(y: Sys, y1: Sys) {
    && y.seqs.Keys <= y1.seqs.Keys
    && (forall x :: x in y.seqs && Served(y.seqs[x]) ==> Served(y1.seqs[x]))
    && (forall x :: x in Line(y) && x in y.seqs ==> x in Line(y1) || Served(y1.seqs[x]))
  }

  lemma ServedTrans(y: Sys, y1: Sys, y2: Sys)
    requires Served1(y, y1) && Served1(y1, y2)
    ensures Served1(y, y2)
  {
    hide Line;
  }

  lemma KeptSelf(y: Sys)
    ensures Served1(y, y)
  {
  }

  lemma MembersServed(y: Sys, y1: Sys)
    requires SameRequests(y, y1) && SameMembers(y, y1)
    ensures Served1(y, y1)
  {
    hide Line;
  }

  /** A finished resident was served. */
  lemma FinishedServed(w: World, c: Config, cache: seq<seq<KV>>, y: Sys, x: Id)
    requires x in Line(y) && x in y.seqs && IsFinished(y.seqs[x]) && SysInv(w, c, cache, y, [])
    ensures Served(y.seqs[x])
  {
    hide KvOk, InPlay, RefOf, Span;
    assert x in y.running || x in y.waiting;
    InQueues(w, c, cache, y, [], x);
  }

  lemma PlacingServes(w: World, c: Config, cache: seq<seq<KV>>, y: Sys, y1: Sys)
    requires Placing(y, y1) && SysInv(w, c, cache, y, [])
    ensures Served1(y, y1)
  {
    hide SysInv, Line, Settled;
    forall x | x in Line(y) && x in y.seqs ensures x in Line(y1) || Served(y1.seqs[x]) {
      if x !in Line(y1) { FinishedServed(w, c, cache, y, x); }
    }
  }

  lemma FitIsNotTooBig(w: World, c: Config, cache: seq<seq<KV>>, y: Sys, id: Id)
    requires ValidConfig(c.kv) && c.watermark <= 0 && id in y.waiting && id in y.seqs && SysInv(w, c, cache, y, []) && Capacity(c, y)
    ensures !TooBig(c, y.pool, y.seqs[id].tokens)
  {
    hide SysInv, Capacity, Span, CachedBlocks;
    WaitingUnfinished(w, c, cache, y, id);
    TokensFit(w, c, cache, y, id);
    BlocksForFits(c.kv.blockSize, |y.seqs[id].tokens|, c.kv.numBlocks);
  }

  /** Scheduling with a live resident ends nobody unserved. */
  lemma ScheduleServes(w: World, c: Config, cache: seq<seq<KV>>, y: Sys)
    requires ValidConfig(c.kv) && Inv(w, c, cache, y) && Capacity(c, y) && (AnyLive(y) || y.running != [] || y.waiting == [])
    ensures Served1(y, Schedule(c, y, {}).0)
  {
    hide SysInv, Candidates, Building, SameResidents, NewSlices, Placing, Capacity, IdsIn, Punctual, IsSub, NoDup, AnyLive, Served1,
      Settle, PrefillSlices, ExpireQueue, Admissions, Admits, DecodeSlices, Schedule, Onwards, HeadGone, SameRequests, SameMembers;
    ScheduleIs(c, y, {});
    SettleKeeps(w, c, cache, y);
    SettleShrinks(c, y);
    SettleLive(w, c, cache, y);
    var y0 := Started(c, y);
    StatsOnly(w, c, cache, y, y0, []);
    var (y1, mid, dec0) := Settle(c, y);
    PlacingServes(w, c, cache, y0, y1);
    EmptyBuilding(c, y1);
    NoIds(mid);
    PrefillSlicesOk(w, c, cache, y1, mid, dec0, 0, EmptyStep, c.maxBatchedTokens);
    var (step1, budget1) := PrefillSlices(c, y1, mid, 0, EmptyStep, c.maxBatchedTokens);
    var dec := Truncated(dec0, budget1);
    NobodyLate(y1, y1.waiting);
    ExpireNothing(c, y1, {});
    if AnyLive(y) {
      AnyLiveRuns(y1);
    } else {
      SettleIdle(c, y);
    }
    if c.continuous || y.batchOpen || y.running == [] {
      AdmissionsOnward(w, c, cache, y1, dec, step1, budget1 - |dec|);
      var (y3, step3) := Admissions(c, y1, dec, step1, budget1 - |dec|);
      OnwardsServe(c, y1, y3, Admits(c, y1, step1, budget1 - |dec|), step1, step3, budget1 - |dec|);
      ServedTrans(y0, y1, y3);
    }
    StartedServes(c, y, Schedule(c, y, {}).0);
  }

  lemma OnwardsServe(c: Config, y: Sys, y1: Sys, admits: bool, step: Step, step1: Step, budget: int)
    requires Onwards(c, y, y1, admits, step, step1, budget)
    ensures Served1(y, y1)
  {
    MembersServed(y, y1);
  }

  lemma StartedServes(c: Config, y: Sys, y1: Sys)
    ensures Served1(Started(c, y), y1) <==> Served1(y, y1)
  {
  }

  // ---- applying a step ----

  lemma OneSliceServes(c: Config, g: Progress, sl: Slice, sampled: seq<Token>)
    requires NoDup(g.sys.running) && sl.id in g.sys.seqs
    ensures Served1(g.sys, SliceDone(c, g, sl, sampled).sys)
  {
    hide CommitComputed, NoDup, Without, Append1;
    WithoutNoDup(g.sys.running, sl.id);
    var y := Advance(c, g.sys, sl);
    assert y.running == g.sys.running && y.waiting == g.sys.waiting;
    if sl.needsLogits && !IsFinished(Lookup(y, sl.id)) {
      AppendIs(c, y, g.used + 1, g.done, sl.id, if g.used < |sampled| then sampled[g.used] else 0);
    }
    var y1 := SliceDone(c, g, sl, sampled).sys;
    forall x | x in Line(g.sys) && x in g.sys.seqs ensures x in Line(y1) || Served(y1.seqs[x]) {
      assert x in g.sys.running || x in g.sys.waiting;
    }
  }

  lemma {:induction false} SlicesServe(w: World, c: Config, cache: seq<seq<KV>>, y0: Sys, slices: seq<Slice>, j: nat, g: Progress, sampled: seq<Token>)
    requires Applying(w, c, cache, y0, slices, j, g) && Distinct(slices) && Samples(w, y0, slices, sampled)
    ensures Served1(g.sys, SlicesDone(c, g, slices, j, sampled).sys)
    decreases |slices| - j
  {
    hide SysInv, SliceDone, Samples, Distinct, Pending, Served1;
    if j < |slices| {
      ApplyOne(w, c, cache, y0, slices, j, g, sampled);
      assert Waits(w, c, cache, y0, slices[j], g.sys);
      PendingFacts(w, c, cache, g.sys, g.done, slices[j]);
      OneSliceServes(c, g, slices[j], sampled);
      var g1 := SliceDone(c, g, slices[j], sampled);
      SlicesServe(w, c, cache, y0, slices, j + 1, g1, sampled);
      ServedTrans(g.sys, g1.sys, SlicesDone(c, g1, slices, j + 1, sampled).sys);
    } else {
      KeptSelf(g.sys);
    }
  }

  lemma {:induction false} RetireDoneServes(c: Config, y: Sys, done: seq<Id>, j: nat)
    requires forall x :: x in done ==> x in y.seqs
    ensures Served1(y, RetireDone(c, y, done, j))
    decreases |done| - j
  {
    hide Retire, Line, Served1;
    if j < |done| {
      var y1 := Retire(c, y, done[j], Lookup(y, done[j]).finish);
      RetireFrame(c, y, done[j], Lookup(y, done[j]).finish);
      SameFinishServes(y, y1);
      RetireDoneServes(c, y1, done, j + 1);
      ServedTrans(y, y1, RetireDone(c, y1, done, j + 1));
    } else {
      KeptSelf(y);
    }
  }

  lemma SameFinishServes(y: Sys, y1: Sys)
    requires y1.running == y.running && y1.waiting == y.waiting && y1.seqs.Keys == y.seqs.Keys && forall x :: x in y.seqs ==> y1.seqs[x].finish == y.seqs[x].finish
    ensures Served1(y, y1)
  {
  }

  /** Releasing a batch forgets nobody's outcome. */
  lemma {:induction false} DrainFinish(c: Config, y: Sys, j: nat)
    requires forall x :: x in y.running ==> x in y.seqs
    ensures var y1 := DrainBatch(c, y, j); y1.seqs.Keys == y.seqs.Keys && forall x :: x in y.seqs ==> y1.seqs[x].finish == y.seqs[x].finish
    decreases |y.running| - j
  {
    hide Free;
    if j < |y.running| {
      assert y.running[j] in y.running;
      var y1 := Drop(c, y, y.running[j]);
      DrainFinish(c, y1.(stats := y1.stats.(finished := y1.stats.finished + 1)), j + 1);
    }
  }

  lemma DrainServes(w: World, c: Config, cache: seq<seq<KV>>, y: Sys)
    requires AllFinished(y) && SysInv(w, c, cache, y, [])
    ensures Served1(y, DrainBatch(c, y, 0))
  {
    hide SysInv, DrainBatch;
    LineNoDup(w, c, cache, y);
    DrainFinish(c, y, 0);
    DrainedLine(c, y, 0);
    var y1 := DrainBatch(c, y, 0);
    forall x | x in Line(y) && x in y.seqs ensures x in Line(y1) || Served(y1.seqs[x]) {
      if x in y.running {
        assert IsFinished(Lookup(y, x));
        FinishedServed(w, c, cache, y, x);
      } else {
        assert x in y.waiting;
      }
    }
  }

  lemma StepDoneServes(w: World, c: Config, cache: seq<seq<KV>>, y: Sys, step: Step, sampled: seq<Token>)
    requires Applying(w, c, cache, y, step.slices, 0, Progress(y, 0, [])) && Distinct(step.slices) && Samples(w, y, step.slices, sampled)
    ensures Served1(y, OnStepDone(c, y, step, sampled))
  {
    hide SysInv, SlicesDone, RetireDone, DrainBatch, Samples, Distinct, Waits, Served1, AllFinished;
    SlicesServe(w, c, cache, y, step.slices, 0, Progress(y, 0, []), sampled);
    SlicesDoneKeeps(w, c, cache, y, step.slices, 0, Progress(y, 0, []), sampled);
    var g := SlicesDone(c, Progress(y, 0, []), step.slices, 0, sampled);
    RetireDoneServes(c, g.sys, g.done, 0);
    assert g.done[0..] == g.done;
    RetireDoneKeeps(w, c, cache, g.sys, g.done, 0);
    var y1 := RetireDone(c, g.sys, g.done, 0);
    ServedTrans(y, g.sys, y1);
    if !c.continuous && y1.running != [] && AllFinished(y1) {
      DrainServes(w, c, cache, y1);
      ServedTrans(y, y1, DrainBatch(c, y1, 0));
    }
  }

  // ---- the service guarantee ----

  lemma TickServes(w: World, c: Config, m: Machine, brief: Brief)
    requires ValidConfig(c.kv) && c.watermark <= 0 && MachineInv(w, c, m, brief) && AllFit(c, brief)
    ensures Served1(m.sys, TickOnce(c, w.net, m, {}).sys)
  {
    hide SysInv, Books, Schedule, Forward, OnStepDone, Applying, Samples, Distinct, Works, CanRun, AllFit, Capacity, TooBig, Served1, TickOnce, AnyLive, Cap, Base;
    TickPieces(w, c, m, {}, brief);
    if m.sys.running == [] && m.sys.waiting != [] {
      WaitingTokens(w, c, m.cache, m.sys, m.sys.waiting[0]);
      FitIsNotTooBig(w, c, m.cache, m.sys, m.sys.waiting[0]);
      HeadInWindow(c, m.sys);
      ScheduleAlone(w, c, m.cache, m.sys);
      MembersServed(m.sys, Schedule(c, m.sys, {}).0);
    } else {
      ScheduleServes(w, c, m.cache, m.sys);
    }
    var (y, step) := Schedule(c, m.sys, {});
    if step.slices != [] {
      var (cache, sampled) := FullForward(c, w.net, m.cache, y, step);
      StepDoneServes(w, c, cache, y, step, sampled);
      ServedTrans(m.sys, y, OnStepDone(c, y, step, sampled));
    }
  }

  lemma HeadInWindow(c: Config, y: Sys)
    requires ValidConfig(c.kv) && y.waiting != [] && !TooBig(c, y.pool, Lookup(y, y.waiting[0]).tokens)
    ensures WindowFit(c, y, 0)
  {
    hide TooBig;
  }

  lemma {:induction false} TurnsServe(w: World, c: Config, m: Machine, n: nat, brief: Brief)
    requires ValidConfig(c.kv) && c.watermark <= 0 && MachineInv(w, c, m, brief) && AllFit(c, brief)
    ensures MachineInv(w, c, Turns(c, w.net, m, Never, n), brief) && Served1(m.sys, Turns(c, w.net, m, Never, n).sys)
  {
    hide MachineInv, AllFit, TickOnce, Served1;
    if n > 0 {
      TurnsServe(w, c, m, n - 1, brief);
      var m0 := Turns(c, w.net, m, Never, n - 1);
      TickKeeps(w, c, m0, {}, brief);
      TickServes(w, c, m0, brief);
      ServedTrans(m.sys, m0.sys, TickOnce(c, w.net, m0, {}).sys);
    } else {
      KeptSelf(m.sys);
    }
  }

  /** The complete output of a request. */
  ghost predicate CompleteOutput(net: Net, brief: Brief, y: Sys, id: Id) {
    && id in brief.requests && brief.requests[id].prompt != [] && id in y.seqs
    && y.seqs[id].tokens == RefOutput(net, brief.requests[id].params, brief.requests[id].prompt)
  }

  lemma ServedIsComplete(w: World, c: Config, m: Machine, brief: Brief, id: Id)
    requires id in m.sys.seqs && Served(m.sys.seqs[id]) && MachineInv(w, c, m, brief)
    ensures CompleteOutput(w.net, brief, m.sys, id)
  {
    hide KvOk, InPlay, NoDup, SumComputed, Terminals, Continue, Span;
    var s := m.sys.seqs[id];
    assert Serves(s, brief.requests[id]);
    RoleOf(w, c, m.sys.seqs, QueuesOf(m.sys, []), id);
    OutputOfRole(w, c, s, id in m.sys.waiting, id in m.sys.running);
  }

  /**
   From every reachable state: with nobody late and nothing arriving, the engine drains if and only if it
   is not stuck, which it never is in continuous mode.
   */
  lemma DrainsExactly(w: World, c: Config, cache: seq<seq<KV>>, inputs: seq<Input>, m: Machine)
    requires Reached(w, c, cache, inputs, m) && AllFit(c, BriefOf(w, c, Boot(c, cache), inputs))
    ensures ValidConfig(c.kv)
    ensures (exists n: nat :: !HasWork(Turns(c, w.net, m, Never, n))) <==> !Stuck(c, m.sys)
    ensures c.continuous ==> !Stuck(c, m.sys)
  {
    hide Reached, AllFit, Turns, HasWork, SysInv, Books, Admits, AnyLive;
    ReachedInv(w, c, cache, inputs, m);
    ConfigOf(w, c, m.cache, m.sys, []);
    DrainsIff(w, c, m, BriefOf(w, c, Boot(c, cache), inputs));
  }

  /**
   From every reachable state that is not stuck, if nothing else arrives, is cancelled or expires, there is
   a turn after which every request that was queued or resident has its complete reference output.
   */
  lemma EveryoneIsServed(w: World, c: Config, cache: seq<seq<KV>>, inputs: seq<Input>, m: Machine) returns (n: nat)
    requires Reached(w, c, cache, inputs, m) && c.watermark <= 0 && AllFit(c, BriefOf(w, c, Boot(c, cache), inputs))
    requires c.continuous || (ValidConfig(c.kv) && !Stuck(c, m.sys))
    ensures ValidConfig(c.kv) && !HasWork(Turns(c, w.net, m, Never, n))
    ensures forall id :: id in m.sys.running || id in m.sys.waiting ==>
              CompleteOutput(w.net, BriefOf(w, c, Boot(c, cache), inputs), Turns(c, w.net, m, Never, n).sys, id)
  {
    hide Reached, AllFit, Turns, CompleteOutput, Served, SysInv, Books, Stuck;
    ReachedInv(w, c, cache, inputs, m);
    ConfigOf(w, c, m.cache, m.sys, []);
    var brief := BriefOf(w, c, Boot(c, cache), inputs);
    DrainsExactly(w, c, cache, inputs, m);
    n :| !HasWork(Turns(c, w.net, m, Never, n));
    TurnsServe(w, c, m, n, brief);
    LineNoDup(w, c, m.cache, m.sys);
    var m1 := Turns(c, w.net, m, Never, n);
    forall id | id in m.sys.running || id in m.sys.waiting ensures CompleteOutput(w.net, brief, m1.sys, id) {
      assert id in Line(m.sys);
      ServedIsComplete(w, c, m1, brief, id);
    }
  }
}
