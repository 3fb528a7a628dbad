/** How many blocks a sequence holds: in every reachable state as many as its tokens need, and no more. */
module Holdings {
  import opened Lists
  import opened Paging
  import opened BlockPool
  import opened Requests
  import opened PrefixCache
  import opened PrefixTree
  import opened CacheOps
  import opened Network
  import opened Contents
  import opened Reference
  import opened Scheduling
  import opened Roles
  import opened Safety
  import opened Steps
  import opened Progressing
  import opened Ledger
  import opened Engine
  import opened Fcfs
  import opened Theorems

  ghost predicate Tight(c: Config, s: Sequence)
    requires ValidConfig(c.kv)
  {
    |s.table.blocks| <= BlocksNeeded(c.kv, |s.tokens|)
  }

  ghost predicate AllTight(c: Config, y: Sys)
    requires ValidConfig(c.kv)
  {
    forall x :: Tight(c, Lookup(y, x))
  }

  /** Nobody's table grew and nobody lost tokens, except that a table may be gone. */
  ghost predicate Slimmer(y: Sys, y1: Sys) {
    forall x :: SlimmerSeq(Lookup(y, x), Lookup(y1, x))
  }

  predicate SlimmerSeq(s: Sequence, s1: Sequence) {
    s1.table.blocks == [] || (|s1.table.blocks| <= |s.table.blocks| && |s1.tokens| >= |s.tokens|)
  }

  lemma NeedMono(c: KvConfig, m: nat, n: nat)
    requires ValidConfig(c) && m <= n
    ensures BlocksNeeded(c, m) <= BlocksNeeded(c, n)
  {
    BlocksForFits(c.blockSize, n, BlocksNeeded(c, n));
    BlocksForFits(c.blockSize, m, BlocksNeeded(c, n));
  }

  lemma TightFrame(c: Config, y: Sys, y1: Sys)
    requires ValidConfig(c.kv) && AllTight(c, y) && Slimmer(y, y1)
    ensures AllTight(c, y1)
  {
    hide BlocksNeeded;
    forall x ensures Tight(c, Lookup(y1, x)) {
      var s, s1 := Lookup(y, x), Lookup(y1, x);
      assert Tight(c, s) && SlimmerSeq(s, s1);
      if |s1.tokens| >= |s.tokens| { NeedMono(c.kv, |s.tokens|, |s1.tokens|); }
    }
  }

  lemma SlimTrans(y: Sys, y1: Sys, y2: Sys)
    requires Slimmer(y, y1) && Slimmer(y1, y2)
    ensures Slimmer(y, y2)
  {
    forall x ensures SlimmerSeq(Lookup(y, x), Lookup(y2, x)) {
      assert SlimmerSeq(Lookup(y, x), Lookup(y1, x)) && SlimmerSeq(Lookup(y1, x), Lookup(y2, x));
    }
  }

  lemma SlimSame(y: Sys, y1: Sys)
    requires y1.seqs == y.seqs
    ensures Slimmer(y, y1)
  {
  }

  /** Only `id` changed. */
  lemma SlimOne(y: Sys, y1: Sys, id: Id)
    requires y1.seqs == y.seqs[id := Lookup(y1, id)] && SlimmerSeq(Lookup(y, id), Lookup(y1, id))
    ensures Slimmer(y, y1)
  {
  }

  lemma RetireSlim(c: Config, y: Sys, id: Id, r: Finish)
    ensures Slimmer(y, Retire(c, y, id, r))
  {
    hide Free;
    SlimOne(y, Retire(c, y, id, r), id);
  }

  lemma EvictSlim(c: Config, y: Sys)
    ensures Slimmer(y, Evict(c, y))
  {
    hide Free;
    match LastFinished(y, |y.running|)
    case Some(i) => SlimOne(y, Evict(c, y), y.running[i]);
    case None => if y.running != [] { SlimOne(y, Evict(c, y), y.running[|y.running| - 1]); }
  }

  // ---- the two places where tables grow ----

  lemma GrowTight(c: Config, y: Sys, id: Id)
    requires ValidConfig(c.kv) && AllTight(c, y)
    ensures AllTight(c, GrowFor(c, y, id).0)
  {
    hide BlocksNeeded, TakeBlock;
    assert Tight(c, Lookup(y, id));
    forall x ensures Tight(c, Lookup(GrowFor(c, y, id).0, x)) {
      if x != id { assert Tight(c, Lookup(y, x)); }
    }
  }

  lemma {:induction false} AdoptHitsSize(c: KvConfig, p: Pool, toks: seq<Token>, k: nat)
    ensures |AdoptHits(c, p, toks, k).1.blocks| == k
  {
    hide Chain, HitBlock, Share;
    if k > 0 {
      AdoptHitsSize(c, p, toks, k - 1);
    }
  }

  lemma {:induction false} TakeFreshSize(p: Pool, t: Table, m: nat)
    ensures |TakeFresh(p, t, m).1.blocks| <= |t.blocks| + m
  {
    hide TakeBlock;
    if m > 0 {
      TakeFreshSize(p, t, m - 1);
    }
  }

  lemma {:induction false} WalkBound(c: KvConfig, p: Pool, toks: seq<Token>, i: nat)
    requires ValidConfig(c) && i <= Quot(c.blockSize, |toks|)
    ensures i + Walk(c, p, toks, i) <= Quot(c.blockSize, |toks|)
    decreases Quot(c.blockSize, |toks|) - i
  {
    hide Chain;
    if i < Quot(c.blockSize, |toks|) {
      WalkBound(c, p, toks, i + 1);
    }
  }

  lemma CachedFits(c: KvConfig, p: Pool, toks: seq<Token>)
    requires ValidConfig(c)
    ensures CachedBlocks(c, p, toks) <= BlocksNeeded(c, |toks|)
  {
    hide BlocksFor, Span;
    WalkBound(c, p, toks, 0);
    var q := Quot(c.blockSize, |toks|);
    FullBlocks(c.blockSize, |toks|, q);
    BlocksForFits(c.blockSize, |toks|, BlocksNeeded(c, |toks|));
    if BlocksNeeded(c, |toks|) < q {
      SpanMono(c.blockSize, BlocksNeeded(c, |toks|), q);
    }
  }

  lemma PromptSize(c: KvConfig, p: Pool, toks: seq<Token>)
    requires ValidConfig(c)
    ensures |AllocatePrompt(c, p, toks).1.blocks| <= BlocksNeeded(c, |toks|)
  {
    hide BlocksNeeded, CachedBlocks, AdoptHits, TakeFresh, LruHits;
    var needed, cached := BlocksNeeded(c, |toks|), CachedBlocks(c, p, toks);
    CachedFits(c, p, toks);
    AdoptHitsSize(c, p, toks, cached);
    var (p1, t1) := AdoptHits(c, p, toks, cached);
    TakeFreshSize(p1, t1, needed - cached);
  }

  lemma AdoptTight(c: Config, y: Sys, id: Id)
    requires ValidConfig(c.kv) && AllTight(c, y)
    ensures Adopt(c, y, id).Some? ==> AllTight(c, Adopt(c, y, id).value)
  {
    hide BlocksNeeded, AllocatePrompt;
    PromptSize(c.kv, y.pool, Lookup(y, id).tokens);
    if Adopt(c, y, id).Some? {
      forall x ensures Tight(c, Lookup(Adopt(c, y, id).value, x)) {
        if x != id { assert Tight(c, Lookup(y, x)); }
      }
    }
  }

  // ---- a round ----

  lemma {:induction false} PlaceTight(c: Config, y: Sys, mid: seq<Id>, dec: seq<Id>, i: nat)
    requires ValidConfig(c.kv) && AllTight(c, y)
    ensures AllTight(c, PlaceDecodes(c, y, mid, dec, i).0)
    decreases |y.running|, |dec| - i
  {
    hide EnsureSlot, Evict, Without, AllTight, Slimmer;
    if i < |dec| {
      GrowTight(c, y, dec[i]);
      var (y1, ok) := GrowFor(c, y, dec[i]);
      if ok {
        PlaceTight(c, y1, mid, dec, i + 1);
      } else {
        match Victim(y1)
        case Some(v) =>
          EvictSlim(c, y1);
          TightFrame(c, y1, Evict(c, y1));
          PlaceTight(c, Evict(c, y1), Without(mid, v), Without(dec, v), i);
        case None =>
          PlaceTight(c, y1, mid, RemoveAt(dec, i), i);
      }
    }
  }

  lemma {:induction false} RetireLateSlim(c: Config, y: Sys, ids: seq<Id>, j: nat)
    ensures Slimmer(y, RetireLate(c, y, ids, j))
    decreases |ids| - j
  {
    hide Retire, Slimmer;
    if j < |ids| {
      var y0 := y.(stats := y.stats.(timedOut := y.stats.timedOut + 1));
      SlimSame(y, y0);
      RetireSlim(c, y0, ids[j], Timeout);
      SlimTrans(y, y0, Retire(c, y0, ids[j], Timeout));
      RetireLateSlim(c, Retire(c, y0, ids[j], Timeout), ids, j + 1);
      SlimTrans(y, Retire(c, y0, ids[j], Timeout), RetireLate(c, y, ids, j));
    } else {
      SlimSame(y, y);
    }
  }

  lemma {:induction false} BumpSlim(y: Sys, j: nat)
    ensures Slimmer(y, BumpWaits(y, j))
    decreases |y.waiting| - j
  {
    hide Slimmer;
    if j < |y.waiting| {
      var id := y.waiting[j];
      var y1 := SetSeq(y, id, Lookup(y, id).(waitSteps := Lookup(y, id).waitSteps + 1));
      SlimOne(y, y1, id);
      BumpSlim(y1, j + 1);
      SlimTrans(y, y1, BumpWaits(y, j));
    } else {
      SlimSame(y, y);
    }
  }

  lemma StartSlim(c: Config, y: Sys, step: Step, budget: int, i: nat)
    requires i < |y.waiting|
    ensures Slimmer(y, Start(c, y, step, budget, i).sys)
  {
    hide AddPrefill;
    SlimOne(y, SetSeq(y, y.waiting[i], Lookup(y, y.waiting[i]).(status := Running)), y.waiting[i]);
  }

  lemma {:induction false} ScanTight(c: Config, y: Sys, step: Step, budget: int, i: nat, limit: nat)
    requires ValidConfig(c.kv) && AllTight(c, y)
    ensures AllTight(c, AdmitScan(c, y, step, budget, i, limit).sys)
    decreases limit - i
  {
    hide Adopt, AdmissionFits, Start, AllTight, Slimmer;
    if i < limit && i < |y.waiting| {
      var id := y.waiting[i];
      StartSlim(c, y, step, budget, i);
      TightFrame(c, y, Start(c, y, step, budget, i).sys);
      if AdmissionFits(c, y, Lookup(y, id)) && Adopt(c, y, id).Some? {
        var y1 := Adopt(c, y, id).value;
        AdoptTight(c, y, id);
        AdoptQueue(c, y, id);
        StartSlim(c, y1, step, budget, i);
        TightFrame(c, y1, Start(c, y1, step, budget, i).sys);
      } else {
        ScanTight(c, y, step, budget, i + 1, limit);
      }
    }
  }

  lemma AdoptQueue(c: Config, y: Sys, id: Id)
    requires ValidConfig(c.kv)
    ensures Adopt(c, y, id).Some? ==> Adopt(c, y, id).value.waiting == y.waiting
  {
    hide AllocatePrompt;
  }

  lemma {:induction false} AdmitAllTight(c: Config, y: Sys, step: Step, budget: int)
    requires ValidConfig(c.kv) && AllTight(c, y)
    ensures AllTight(c, AdmitAll(c, y, step, budget).0)
    decreases |y.waiting|
  {
    hide AdmitScan, AllTight;
    ScanTight(c, y, step, budget, 0, AdmitLimit(c, y));
    var r := AdmitOne(c, y, step, budget);
    if r.admitted {
      AdmitAllTight(c, r.sys, r.step, r.budget);
    }
  }

  lemma AdmissionsTight(c: Config, y: Sys, dec: seq<Id>, step: Step, budget: int)
    requires ValidConfig(c.kv) && AllTight(c, y)
    ensures AllTight(c, Admissions(c, y, dec, step, budget).0)
  {
    hide AdmitAll, BumpWaits, AllTight, Slimmer, Retire;
    BumpSlim(y, 0);
    TightFrame(c, y, BumpWaits(y, 0));
    AdmitAllTight(c, BumpWaits(y, 0), step, budget);
    var (y1, step1, budget1) := AdmitAll(c, BumpWaits(y, 0), step, budget);
    var y2 := CloseBatch(c, y1, budget1);
    SlimSame(y1, y2);
    TightFrame(c, y1, y2);
    if y2.waiting != [] && y2.running == [] && dec == [] {
      var y3 := y2.(waiting := y2.waiting[1..]);
      SlimSame(y2, y3);
      RetireSlim(c, y3, y2.waiting[0], Abort);
      TightFrame(c, y2, y3);
      TightFrame(c, y3, Retire(c, y3, y2.waiting[0], Abort));
    }
  }

  lemma ScheduleTight(c: Config, y: Sys, late: set<Id>)
    requires ValidConfig(c.kv) && AllTight(c, y)
    ensures AllTight(c, Schedule(c, y, late).0)
  {
    hide Schedule, PlaceDecodes, PrefillSlices, RetireLate, Admissions, DecodeSlices, AllTight, Slimmer, Expired, Punctual, MidPrefill, Decoding;
    ScheduleIs(c, y, late);
    var y0 := Started(c, y);
    SlimSame(y, y0);
    TightFrame(c, y, y0);
    PlaceTight(c, y0, MidPrefill(y0, y0.running), Decoding(y0, y0.running), 0);
    var (y1, mid, dec0) := Settle(c, y);
    var (step1, budget1) := PrefillSlices(c, y1, mid, 0, EmptyStep, c.maxBatchedTokens);
    var q := y1.(waiting := Punctual(y1, y1.waiting, late));
    SlimSame(y1, q);
    TightFrame(c, y1, q);
    RetireLateSlim(c, q, Expired(y1, y1.waiting, late), 0);
    var y2 := ExpireQueue(c, y1, late);
    TightFrame(c, q, y2);
    AdmissionsTight(c, y2, Truncated(dec0, budget1), step1, budget1 - |Truncated(dec0, budget1)|);
  }

  // ---- applying a step ----

  lemma {:induction false} CommitBlocks(c: KvConfig, p: Pool, t: Table, toks: seq<Token>, computed: nat)
    ensures CommitComputed(c, p, t, toks, computed).1.blocks == t.blocks
    decreases |t.blocks| - t.committed
  {
    hide Span, HashBlock;
    if c.caching && t.committed < |t.blocks| && Span(c.blockSize, t.committed + 1) <= computed {
      var (p1, t1) := HashFullBlock(c, p, t, t.committed, toks);
      CommitBlocks(c, p1, t1.(committed := t.committed + 1), toks, computed);
    }
  }

  lemma SliceSlim(c: Config, g: Progress, sl: Slice, sampled: seq<Token>)
    ensures Slimmer(g.sys, SliceDone(c, g, sl, sampled).sys)
  {
    hide CommitComputed, Without;
    var s := Lookup(g.sys, sl.id);
    CommitBlocks(c.kv, g.sys.pool, s.table, s.tokens, s.computed + sl.len);
    SlimOne(g.sys, SliceDone(c, g, sl, sampled).sys, sl.id);
  }

  lemma {:induction false} SlicesSlim(c: Config, g: Progress, slices: seq<Slice>, j: nat, sampled: seq<Token>)
    ensures Slimmer(g.sys, SlicesDone(c, g, slices, j, sampled).sys)
    decreases |slices| - j
  {
    hide SliceDone, Slimmer;
    if j < |slices| {
      var g1 := SliceDone(c, g, slices[j], sampled);
      SliceSlim(c, g, slices[j], sampled);
      SlicesSlim(c, g1, slices, j + 1, sampled);
      SlimTrans(g.sys, g1.sys, SlicesDone(c, g1, slices, j + 1, sampled).sys);
    } else {
      SlimSame(g.sys, g.sys);
    }
  }

  lemma {:induction false} RetireDoneSlim(c: Config, y: Sys, done: seq<Id>, j: nat)
    ensures Slimmer(y, RetireDone(c, y, done, j))
    decreases |done| - j
  {
    hide Retire, Slimmer;
    if j < |done| {
      var y1 := Retire(c, y, done[j], Lookup(y, done[j]).finish);
      RetireSlim(c, y, done[j], Lookup(y, done[j]).finish);
      RetireDoneSlim(c, y1, done, j + 1);
      SlimTrans(y, y1, RetireDone(c, y, done, j));
    } else {
      SlimSame(y, y);
    }
  }

  lemma {:induction false} DrainSlim(c: Config, y: Sys, j: nat)
    ensures Slimmer(y, DrainBatch(c, y, j))
    decreases |y.running| - j
  {
    hide Free, Slimmer;
    if j < |y.running| {
      var y2 := DrainOne(c, y, j);
      SlimOne(y, y2, y.running[j]);
      DrainSlim(c, y2, j + 1);
      SlimTrans(y, y2, DrainBatch(c, y, j));
    } else {
      SlimSame(y, DrainBatch(c, y, j));
    }
  }

  lemma StepDoneSlim(c: Config, y: Sys, step: Step, sampled: seq<Token>)
    ensures Slimmer(y, OnStepDone(c, y, step, sampled))
  {
    hide SlicesDone, RetireDone, DrainBatch, Slimmer;
    var g := SlicesDone(c, Progress(y, 0, []), step.slices, 0, sampled);
    SlicesSlim(c, Progress(y, 0, []), step.slices, 0, sampled);
    RetireDoneSlim(c, g.sys, g.done, 0);
    var y1 := RetireDone(c, g.sys, g.done, 0);
    SlimTrans(y, g.sys, y1);
    DrainSlim(c, y1, 0);
    SlimTrans(y, y1, DrainBatch(c, y1, 0));
  }

  // ---- over runs ----

  lemma TickTight(c: Config, net: Net, m: Machine, late: set<Id>)
    requires ValidConfig(c.kv) && AllTight(c, m.sys)
    ensures AllTight(c, TickOnce(c, net, m, late).sys)
  {
    hide Schedule, OnStepDone, Forward, Works, AllTight, Slimmer, WorkOk;
    ScheduleTight(c, m.sys, late);
    var (y, step) := Schedule(c, m.sys, late);
    if step.slices != [] && CanRun(net, m.cache, Works(y.seqs, step.slices)) {
      var (cache, sampled) := Forward(c.kv, net, m.cache, Works(y.seqs, step.slices));
      StepDoneSlim(c, y, step, sampled);
      TightFrame(c, y, OnStepDone(c, y, step, sampled));
    }
  }

  lemma ApplyTight(c: Config, net: Net, m: Machine, input: Input)
    requires ValidConfig(c.kv) && AllTight(c, m.sys)
    ensures AllTight(c, Apply(c, net, m, input).sys)
  {
    hide TickOnce, Retire, AllTight, Slimmer;
    match input
    case Arrive(id, prompt, params) =>
      SlimOne(m.sys, Add(m.sys, id, prompt, params), id);
      TightFrame(c, m.sys, Add(m.sys, id, prompt, params));
    case Tick(late) => TickTight(c, net, m, late);
    case Cancel(id) =>
      var y1 := m.sys.(waiting := Without(m.sys.waiting, id));
      var y2 := m.sys.(running := Without(m.sys.running, id));
      SlimSame(m.sys, y1);
      SlimSame(m.sys, y2);
      RetireSlim(c, y1, id, Abort);
      RetireSlim(c, y2, id, Abort);
      SlimTrans(m.sys, y1, Retire(c, y1, id, Abort));
      SlimTrans(m.sys, y2, Retire(c, y2, id, Abort));
      TightFrame(c, m.sys, Retire(c, y1, id, Abort));
      TightFrame(c, m.sys, Retire(c, y2, id, Abort));
  }

  lemma {:induction false} RunTight(c: Config, net: Net, m: Machine, inputs: seq<Input>)
    requires ValidConfig(c.kv) && AllTight(c, m.sys)
    ensures AllTight(c, Run(c, net, m, inputs).sys)
  {
    hide Apply, AllTight;
    if inputs != [] {
      RunTight(c, net, m, inputs[..|inputs| - 1]);
      ApplyTight(c, net, Run(c, net, m, inputs[..|inputs| - 1]), inputs[|inputs| - 1]);
    }
  }

  /**
   In every reachable state a resident holds as many blocks as its tokens need, or as many as they needed before
   the last one was sampled; anybody else holds none.
   */
  lemma HoldsWhatItNeeds(w: World, c: Config, cache: seq<seq<KV>>, inputs: seq<Input>, m: Machine, id: Id)
    requires Reached(w, c, cache, inputs, m) && id in m.sys.seqs
    ensures ValidConfig(c.kv)
    ensures var s := m.sys.seqs[id];
            if id in m.sys.running then s.tokens != [] && BlocksNeeded(c.kv, |s.tokens| - 1) <= |s.table.blocks| <= BlocksNeeded(c.kv, |s.tokens|)
            else s.table.blocks == []
  {
    hide SysInv, Books, BlocksNeeded, Run, ValidRun, NoCollision, Shape;
    ReachedInv(w, c, cache, inputs, m);
    hide Reached;
    ConfigOf(w, c, m.cache, m.sys, []);
    StartsTight(c, cache);
    RunTight(c, w.net, Boot(c, cache), inputs);
    assert Tight(c, Lookup(m.sys, id));
    HoldsEnough(w, c, m.cache, m.sys, id);
  }

  lemma StartsTight(c: Config, cache: seq<seq<KV>>)
    requires ValidConfig(c.kv)
    ensures AllTight(c, Boot(c, cache).sys)
  {
    hide BlocksNeeded, FreshPool;
  }

  lemma HoldsEnough(w: World, c: Config, cache: seq<seq<KV>>, y: Sys, id: Id)
    requires ValidConfig(c.kv) && SysInv(w, c, cache, y, []) && id in y.seqs
    ensures id in y.running ==> y.seqs[id].tokens != [] && BlocksNeeded(c.kv, |y.seqs[id].tokens| - 1) <= |y.seqs[id].table.blocks|
    ensures id !in y.running ==> y.seqs[id].table.blocks == []
  {
    hide KvOk, Live, InPlay, RefOf, Span, BlocksFor;
    RoleOf(w, c, y.seqs, QueuesOf(y, []), id);
    var s := y.seqs[id];
    if id in y.running {
      BlocksForFits(c.kv.blockSize, |s.tokens| - 1, |s.table.blocks|);
    }
  }
}
