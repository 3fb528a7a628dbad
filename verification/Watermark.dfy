/**
 What the admission watermark buys. An admission costs exactly its fresh blocks plus the idle cached
 blocks it revives; with prefix caching off this keeps the watermark available, and with the automatic
 watermark the step after an admission preempts at most the youngest resident.
 */
module Watermark {
  import opened Lists
  import opened Paging
  import opened BlockPool
  import opened Requests
  import opened PrefixCache
  import opened PrefixTree
  import opened CacheOps
  import opened Network
  import opened Contents
  import opened Reference
  import opened Scheduling
  import opened Roles
  import opened Safety
  import opened Steps
  import opened Progressing
  import opened Ledger
  import opened Engine
  import opened Fcfs
  import opened Theorems

  // ---- the cost of an admission ----

  /** Available after = available before - (needed - cached) - cached blocks that nobody owned. */
  lemma AdmissionCost(w: World, c: Config, cache: seq<seq<KV>>, y: Sys, id: Id)
    requires ValidConfig(c.kv) && id in y.waiting && SysInv(w, c, cache, y, []) && Adopt(c, y, id).Some?
    ensures id in y.seqs
    ensures var toks := y.seqs[id].tokens; var cached := CachedBlocks(c.kv, y.pool, toks);
            Available(Adopt(c, y, id).value.pool) ==
            Available(y.pool) - (BlocksNeeded(c.kv, |toks|) - cached) - LruHits(c.kv, y.pool, toks, cached)
  {
    hide *;
    InQueues(w, c, cache, y, [], id);
    InvParts(w, c, cache, y, []);
    var s := y.seqs[id];
    WaitingFacts(w, c, s, id in y.running, id in []);
    AdoptIs(c, y, id);
    OpenKv(w, cache, y.pool, y.seqs, y.order);
    AllocatePromptKeeps(w.c, w.universe, y.pool, y.seqs, y.order, id);
    var (p, t, r) := AllocatePrompt(c.kv, y.pool, s.tokens);
    AllocatedCost(w.c, w.universe, y.pool, y.seqs, y.order, id, p, t, CachedBlocks(c.kv, y.pool, s.tokens));
  }

  lemma AllocatedCost(c: KvConfig, universe: set<seq<Token>>, p: Pool, seqs: map<Id, Sequence>, order: seq<Id>, id: Id, p2: Pool, t2: Table, cached: nat)
    requires ValidConfig(c) && id in seqs && Allocated(c, universe, p, seqs, order, id, p2, t2, cached)
    ensures Available(p2) == Available(p) - (BlocksNeeded(c, |seqs[id].tokens|) - cached) - LruHits(c, p, seqs[id].tokens, cached)
  {
    hide CacheInv, BlocksNeeded, LruHits, Available;
  }

  /** The watermark is kept up to the idle cached blocks that the admission revives, which are charged to nobody. */
  lemma WatermarkKept(w: World, c: Config, cache: seq<seq<KV>>, y: Sys, id: Id)
    requires ValidConfig(c.kv) && id in y.waiting && SysInv(w, c, cache, y, []) && Adopt(c, y, id).Some?
    requires AdmissionFits(c, y, Lookup(y, id))
    ensures id in y.seqs
    ensures var toks := y.seqs[id].tokens;
            Available(Adopt(c, y, id).value.pool) >= Watermark(c, y) - LruHits(c.kv, y.pool, toks, CachedBlocks(c.kv, y.pool, toks))
    ensures !c.kv.caching ==> Available(Adopt(c, y, id).value.pool) >= Watermark(c, y)
  {
    hide SysInv, Adopt, BlocksNeeded, Walk;
    WaitingEmpty(w, c, cache, y, id);
    AdmissionCost(w, c, cache, y, id);
  }

  /** The watermark is kept if and only if the idle hits were affordable on top of the fresh blocks; the check leaves the idle hits out. */
  lemma WatermarkExact(w: World, c: Config, cache: seq<seq<KV>>, y: Sys, id: Id)
    requires ValidConfig(c.kv) && id in y.waiting && SysInv(w, c, cache, y, []) && Adopt(c, y, id).Some?
    ensures id in y.seqs
    ensures var toks := y.seqs[id].tokens; var cached := CachedBlocks(c.kv, y.pool, toks);
            Available(Adopt(c, y, id).value.pool) >= Watermark(c, y) <==>
            Available(y.pool) - (BlocksNeeded(c.kv, |toks|) - cached) - LruHits(c.kv, y.pool, toks, cached) >= Watermark(c, y)
    ensures AdmissionFits(c, y, Lookup(y, id)) && Watermark(c, y) > 0 ==>
              var toks := y.seqs[id].tokens; var cached := CachedBlocks(c.kv, y.pool, toks);
              var spare := Available(y.pool) - (BlocksNeeded(c.kv, |toks|) - cached) - Watermark(c, y);
              spare >= 0 && (Available(Adopt(c, y, id).value.pool) < Watermark(c, y) <==> spare < LruHits(c.kv, y.pool, toks, cached))
  {
    hide SysInv, Adopt, BlocksNeeded, CachedBlocks, LruHits;
    WaitingEmpty(w, c, cache, y, id);
    AdmissionCost(w, c, cache, y, id);
  }

  /** One available block per resident but one. */
  ghost predicate Room(y: Sys) {
    Available(y.pool) >= |y.running| - 1
  }

  ghost predicate AutoWatermark(c: Config) {
    c.continuous && !c.kv.caching && c.watermark < 0
  }

  lemma {:induction false} ScanRoom(w: World, c: Config, cache: seq<seq<KV>>, y: Sys, step: Step, budget: int, i: nat, limit: nat)
    requires ValidConfig(c.kv) && AutoWatermark(c) && budget > 0 && SysInv(w, c, cache, y, []) && Building(c, y, step)
    ensures var r := AdmitScan(c, y, step, budget, i, limit); r.admitted ==> Room(r.sys)
    decreases limit - i
  {
    hide SysInv, Building, Adopt, AdmissionFits;
    if i < limit && i < |y.waiting| {
      var id := y.waiting[i];
      WaitingEmpty(w, c, cache, y, id);
      if AdmissionFits(c, y, Lookup(y, id)) && Adopt(c, y, id).Some? {
        WatermarkKept(w, c, cache, y, id);
        AdoptFacts(w, c, cache, y, id);
      } else {
        ScanRoom(w, c, cache, y, step, budget, i + 1, limit);
      }
    }
  }

  lemma {:induction false} AdmitAllRoom(w: World, c: Config, cache: seq<seq<KV>>, y: Sys, step: Step, budget: int)
    requires ValidConfig(c.kv) && AutoWatermark(c) && 0 <= budget && SysInv(w, c, cache, y, []) && Building(c, y, step)
    ensures var y1 := AdmitAll(c, y, step, budget).0; y1 == y || (Room(y1) && y1.running != [])
    decreases |y.waiting|
  {
    hide SysInv, Building, AdmitScan, Room;
    var r := AdmitOne(c, y, step, budget);
    if y.waiting != [] && budget > 0 && |y.running| < c.maxNumSeqs {
      ScanKeeps(w, c, cache, y, step, budget, 0, AdmitLimit(c, y));
      ScanRoom(w, c, cache, y, step, budget, 0, AdmitLimit(c, y));
    }
    if r.admitted {
      AdmitAllRoom(w, c, cache, r.sys, r.step, r.budget);
    }
  }

  /** Somebody became resident in this round. */
  ghost predicate Admits(c: Config, y: Sys, late: set<Id>)
    requires ValidConfig(c.kv)
  {
    |Schedule(c, y, late).0.running| > |Settle(c, y).0.running|
  }

  lemma ScheduleRoom(w: World, c: Config, cache: seq<seq<KV>>, y: Sys, late: set<Id>)
    requires ValidConfig(c.kv) && AutoWatermark(c) && Inv(w, c, cache, y) && Admits(c, y, late)
    ensures Room(Schedule(c, y, late).0)
  {
    hide SysInv, Candidates, Building, SameResidents, NewSlices, IdsIn, Settle, PrefillSlices, ExpireQueue, AdmitAll, BumpWaits, DecodeSlices, Schedule, Retire, Room;
    ScheduleIs(c, y, late);
    SettleKeeps(w, c, cache, y);
    SettleShrinks(c, y);
    var (y1, mid, dec0) := Settle(c, y);
    EmptyBuilding(c, y1);
    NoIds(mid);
    PrefillSlicesOk(w, c, cache, y1, mid, dec0, 0, EmptyStep, c.maxBatchedTokens);
    var (step1, budget1) := PrefillSlices(c, y1, mid, 0, EmptyStep, c.maxBatchedTokens);
    var dec := Truncated(dec0, budget1);
    var y2 := ExpireQueue(c, y1, late);
    ExpireKeeps(w, c, cache, y1, late);
    BuildingFrame(c, y1, y2, step1);
    var y3 := BumpWaits(y2, 0);
    BumpKeeps(w, c, cache, y2, 0);
    BumpPool(y2, 0);
    BuildingFrame(c, y2, y3, step1);
    AdmitAllRoom(w, c, cache, y3, step1, budget1 - |dec|);
    var y4 := AdmitAll(c, y3, step1, budget1 - |dec|).0;
    if y4.running == [] && y4.waiting != [] {
      BumpKnows(w, c, cache, y4);
      RetireFrame(c, y4.(waiting := y4.waiting[1..]), y4.waiting[0], Abort);
    }
  }

  lemma BumpKnows(w: World, c: Config, cache: seq<seq<KV>>, y: Sys)
    requires y.waiting != [] && SysInv(w, c, cache, y, [])
    ensures y.waiting[0] in y.seqs
  {
    WaitingEmpty(w, c, cache, y, y.waiting[0]);
  }

  // ---- nothing between two steps takes room away ----

  lemma ReleaseGrows(c: KvConfig, p: Pool, b: Block, hash: Hash)
    ensures Available(ReleaseBlock(c, p, b, hash)) == Available(p) + if Get(p.refs, b) <= 1 then 1 else 0
  {
  }

  lemma {:induction false} FreeGrows(c: KvConfig, p: Pool, t: Table, i: nat)
    ensures Available(FreeFrom(c, p, t, i)) >= Available(p)
    ensures i > 0 && Get(p.refs, Get(t.blocks, i - 1)) <= 1 ==> Available(FreeFrom(c, p, t, i)) > Available(p)
    decreases i
  {
    hide ReleaseBlock, Available;
    if i > 0 {
      ReleaseGrows(c, p, Get(t.blocks, i - 1), Get(t.hashes, i - 1));
      FreeGrows(c, ReleaseBlock(c, p, Get(t.blocks, i - 1), Get(t.hashes, i - 1)), t, i - 1);
    }
  }

  ghost predicate Roomier(y: Sys, y1: Sys) {
    Available(y1.pool) >= Available(y.pool) && |y1.running| <= |y.running|
  }

  lemma RetireRoomier(c: Config, y: Sys, id: Id, r: Finish)
    ensures Roomier(y, Retire(c, y, id, r))
  {
    hide FreeFrom, Available;
    FreeGrows(c.kv, y.pool, Lookup(y, id).table, |Lookup(y, id).table.blocks|);
  }

  lemma {:induction false} SlicesRoomier(c: Config, g: Progress, slices: seq<Slice>, j: nat, sampled: seq<Token>)
    requires !c.kv.caching
    ensures Roomier(g.sys, SlicesDone(c, g, slices, j, sampled).sys)
    decreases |slices| - j
  {
    hide Available;
    if j < |slices| {
      WithoutShorter(g.sys.running, slices[j].id);
      SlicesRoomier(c, SliceDone(c, g, slices[j], sampled), slices, j + 1, sampled);
    }
  }

  lemma {:induction false} RetireDoneRoomier(c: Config, y: Sys, done: seq<Id>, j: nat)
    ensures Roomier(y, RetireDone(c, y, done, j))
    decreases |done| - j
  {
    hide Retire, Available;
    if j < |done| {
      RetireRoomier(c, y, done[j], Lookup(y, done[j]).finish);
      RetireDoneRoomier(c, Retire(c, y, done[j], Lookup(y, done[j]).finish), done, j + 1);
    }
  }

  lemma StepDoneRoomier(c: Config, y: Sys, step: Step, sampled: seq<Token>)
    requires AutoWatermark(c)
    ensures Roomier(y, OnStepDone(c, y, step, sampled))
  {
    hide SlicesDone, RetireDone, Available;
    SlicesRoomier(c, Progress(y, 0, []), step.slices, 0, sampled);
    var g := SlicesDone(c, Progress(y, 0, []), step.slices, 0, sampled);
    RetireDoneRoomier(c, g.sys, g.done, 0);
  }

  lemma TickRoom(w: World, c: Config, m: Machine, late: set<Id>)
    requires ValidConfig(c.kv) && AutoWatermark(c) && Inv(w, c, m.cache, m.sys) && Admits(c, m.sys, late)
    ensures Room(TickOnce(c, w.net, m, late).sys)
  {
    hide SysInv, Schedule, OnStepDone, Forward, Works, Admits;
    ScheduleRoom(w, c, m.cache, m.sys, late);
    var (y, step) := Schedule(c, m.sys, late);
    var works := Works(y.seqs, step.slices);
    if step.slices != [] && CanRun(w.net, m.cache, works) {
      var (cache, sampled) := Forward(c.kv, w.net, m.cache, works);
      StepDoneRoomier(c, y, step, sampled);
    }
  }

  lemma AbortRoom(c: Config, y: Sys, id: Id)
    requires Room(y)
    ensures Room(AbortRequest(c, y, id))
  {
    hide Retire, Available;
    RetireRoomier(c, y.(waiting := Without(y.waiting, id)), id, Abort);
    WithoutShorter(y.running, id);
    RetireRoomier(c, y.(running := Without(y.running, id)), id, Abort);
  }

  // ---- a step that starts with room preempts at most the youngest ----

  lemma GrowCost(c: Config, y: Sys, id: Id)
    requires ValidConfig(c.kv)
    ensures Available(GrowFor(c, y, id).0.pool) >= Available(y.pool) - 1
    ensures Available(y.pool) > 0 ==> GrowFor(c, y, id).1
  {
  }

  /** With caching off no block is shared, so evicting a resident that owns a block makes room. */
  lemma EvictGains(w: World, c: Config, cache: seq<seq<KV>>, y: Sys)
    requires c.continuous && !c.kv.caching && y.running != [] && SysInv(w, c, cache, y, [])
    ensures Available(Evict(c, y).pool) > Available(y.pool)
  {
    hide SysInv, Available, FreeFrom, InPlay, TreeInv, TablesInv, NoCollision, Shape, LabelContents, SeqContents;
    NoneFinished(w, c, cache, y);
    PreemptSettled(w, c, cache, y);
    var id := y.running[|y.running| - 1];
    NobodyFinished(w, c, cache, y, id);
    var t := y.seqs[id].table;
    ResidentOwns(w, c, cache, y, id);
    Unshared(w, c, cache, y, t.blocks[|t.blocks| - 1]);
    FreeGrows(c.kv, y.pool, t, |t.blocks|);
    forall k | 0 <= k < |y.running| ensures !IsFinished(Lookup(y, y.running[k])) {
      NobodyFinished(w, c, cache, y, y.running[k]);
    }
  }

  lemma ResidentOwns(w: World, c: Config, cache: seq<seq<KV>>, y: Sys, id: Id)
    requires c.continuous && id in y.running && id in y.seqs && SysInv(w, c, cache, y, [])
    ensures y.seqs[id].table.blocks != []
  {
    hide KvOk, InPlay, Live, RefOf;
    InQueues(w, c, cache, y, [], id);
  }

  lemma Unshared(w: World, c: Config, cache: seq<seq<KV>>, y: Sys, b: Block)
    requires !c.kv.caching && SysInv(w, c, cache, y, [])
    ensures Get(y.pool.refs, b) <= 1
  {
    hide SysInv, TreeInv, TablesInv, NoCollision, Shape, LabelContents, SeqContents, Owned;
    InvParts(w, c, cache, y, []);
    OpenKv(w, cache, y.pool, y.seqs, y.order);
    OpenCache(w.c, w.universe, y.pool, y.seqs, y.order);
  }

  /** The last resident can be in the decode list only as its last member. */
  lemma LastOfBoth(dec: seq<Id>, running: seq<Id>)
    requires running != [] && dec != [] && IsSub(dec, running) && NoDup(running)
    ensures var v := running[|running| - 1];
            if v in dec then v == dec[|dec| - 1] && Without(dec, v) == dec[..|dec| - 1] else Without(dec, v) == dec
  {
    SubDropLast(dec, running);
  }

  lemma {:induction false} PlaceOneVictim(w: World, c: Config, cache: seq<seq<KV>>, y: Sys, mid: seq<Id>, dec: seq<Id>, i: nat)
    requires ValidConfig(c.kv) && c.continuous && !c.kv.caching && SysInv(w, c, cache, y, []) && Candidates(c, y, mid, dec, i)
    requires Available(y.pool) >= |dec| - i - 1
    ensures |PlaceDecodes(c, y, mid, dec, i).0.running| >= |y.running| - 1
    decreases |dec| - i
  {
    hide SysInv, Candidates, GrowFor, Victim, Evict, Available, IsSub, NoDup;
    if i < |dec| {
      CandidateHere(c, y, mid, dec, i);
      GrowForKeeps(w, c, cache, y, dec[i]);
      GrowCost(c, y, dec[i]);
      var (y1, ok) := GrowFor(c, y, dec[i]);
      if ok {
        GrowCandidates(c, y, y1, mid, dec, i);
        PlaceOneVictim(w, c, cache, y1, mid, dec, i + 1);
      } else {
        NoneFinished(w, c, cache, y);
        PreemptSettled(w, c, cache, y);
        EvictGains(w, c, cache, y);
        RunningNoDup(w, c, cache, y);
        CandidateSub(c, y, mid, dec, i);
        LastOfBoth(dec, y.running);
        var v := Victim(y).value;
        var y2 := Evict(c, y);
        if v !in dec {
          GrowCost(c, y2, dec[i]);
          GrowResidents(c, y2, dec[i]);
          assert PlaceDecodes(c, y2, Without(mid, v), dec, i) == PlaceDecodes(c, GrowFor(c, y2, dec[i]).0, Without(mid, v), dec, i + 1);
        } else {
          assert PlaceDecodes(c, y2, Without(mid, v), Without(dec, v), i).0 == y2;
        }
      }
    }
  }

  lemma CandidateSub(c: Config, y: Sys, mid: seq<Id>, dec: seq<Id>, i: nat)
    requires Candidates(c, y, mid, dec, i)
    ensures IsSub(dec, y.running)
  {
  }

  lemma SettleOneVictim(w: World, c: Config, cache: seq<seq<KV>>, y: Sys)
    requires ValidConfig(c.kv) && c.continuous && !c.kv.caching && SysInv(w, c, cache, y, []) && Room(y)
    ensures var y1 := Settle(c, y).0; y1.running == y.running || (y.running != [] && y1.running == y.running[..|y.running| - 1])
  {
    hide SysInv, PlaceDecodes, MidPrefill, Decoding, Settled;
    var y0 := Started(c, y);
    StatsOnly(w, c, cache, y, y0, []);
    StartCandidates(w, c, cache, y0);
    var mid, dec := MidPrefill(y0, y0.running), Decoding(y0, y0.running);
    SubMembers(dec, y0.running);
    PlaceOneVictim(w, c, cache, y0, mid, dec, 0);
    SettleSettled(w, c, cache, y);
    SettledFront(y, Settle(c, y).0);
  }

  lemma SettledFront(y: Sys, y1: Sys)
    requires Settled(y, y1)
    ensures y1.running <= y.running
  {
  }

  // ---- over runs ----

  lemma {:induction false} RoomAfter(w: World, c: Config, cache: seq<seq<KV>>, inputs: seq<Input>, late: set<Id>, between: seq<Input>, m: Machine)
    requires AutoWatermark(c) && Reached(w, c, cache, inputs + [Tick(late)] + between, m)
    requires ValidConfig(c.kv) && Admits(c, Run(c, w.net, Boot(c, cache), inputs).sys, late)
    requires forall k :: 0 <= k < |between| ==> !between[k].Tick?
    ensures Room(m.sys)
    decreases |between|
  {
    hide NoCollision, TickOnce, Shape, AbortRequest, SysInv, Books, Admits, Available;
    var all := inputs + [Tick(late)] + between;
    var n := |all| - 1;
    var m0 := Run(c, w.net, Boot(c, cache), all[..n]);
    hide Boot;
    ReachedInv(w, c, cache, all[..n], m0);
    if between == [] {
      assert all[..n] == inputs;
      TickRoom(w, c, m0, late);
    } else {
      var front := between[..|between| - 1];
      assert all[..n] == inputs + [Tick(late)] + front;
      RoomAfter(w, c, cache, inputs, late, front, m0);
      assert all[n] == between[|between| - 1];
      match all[n]
      case Arrive(x, prompt, params) =>
      case Cancel(x) => AbortRoom(c, m0.sys, x);
    }
  }

  /**
   Prefix caching off, automatic watermark, continuous mode: if a round admitted somebody, then
   whatever arrives or is cancelled before the next round, that round preempts nobody or only the
   youngest resident.
   */
  lemma OnlyTheYoungest(w: World, c: Config, cache: seq<seq<KV>>, inputs: seq<Input>, late: set<Id>, between: seq<Input>, m: Machine)
    requires AutoWatermark(c) && Reached(w, c, cache, inputs + [Tick(late)] + between, m)
    requires ValidConfig(c.kv) && Admits(c, Run(c, w.net, Boot(c, cache), inputs).sys, late)
    requires forall k :: 0 <= k < |between| ==> !between[k].Tick?
    ensures var y1 := Settle(c, m.sys).0;
            y1.running == m.sys.running || (m.sys.running != [] && y1.running == m.sys.running[..|m.sys.running| - 1])
  {
    hide Reached, SysInv, Books, Settle, Admits, Room;
    RoomAfter(w, c, cache, inputs, late, between, m);
    ReachedInv(w, c, cache, inputs + [Tick(late)] + between, m);
    SettleOneVictim(w, c, m.cache, m.sys);
  }
}
