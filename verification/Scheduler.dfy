/**
 The scheduler as the program writes it: an object that changes its queues, counters and sequences
 step by step and calls the cache manager. Every method is proved to compute the corresponding
 function of `Scheduling` on every state that satisfies the invariant, and every precondition of the
 cache manager is discharged. `w` and `cache` are ghost: the model and the K/V contents that the
 invariant speaks about.
 */
module Schedulers {
  import opened Lists
  import opened Paging
  import opened BlockPool
  import opened Requests
  import opened PrefixCache
  import opened PrefixTree
  import opened CacheOps
  import opened Network
  import opened Contents
  import opened Reference
  import opened Scheduling
  import opened Roles
  import opened Safety
  import opened Departures
  import opened Steps
  import opened Progressing
  import opened KVCacheManagers

  class Scheduler {
    const c: Config
    const kv: KVCacheManager
    var seqs: map<Id, Sequence>
    var waiting: seq<Id>
    var running: seq<Id>
    var batchOpen: bool
    var stats: Stats
    var log: seq<Event>
    ghost var order: seq<Id>
    ghost var executed: nat
    ghost var adopted: nat

    ghost function State(): Sys
      reads this, kv
    {
      Sys(kv.State(), seqs, waiting, running, batchOpen, stats, order, log, executed, adopted)
    }

    ghost predicate Valid(w: World, cache: seq<seq<KV>>, done: seq<Id>)
      reads this, kv
    {
      kv.c == c.kv && SysInv(w, c, cache, State(), done)
    }

    /** What is needed to hand a table to the cache manager. */
    ghost predicate KvReady(w: World, cache: seq<seq<KV>>)
      reads this, kv
    {
      kv.c == c.kv == w.c && KvOk(w, cache, kv.State(), seqs, order)
    }

    constructor (config: Config, manager: KVCacheManager)
      requires manager.c == config.kv && manager.State() == FreshPool(config.kv)
      ensures c == config && kv == manager
      ensures State() == Sys(FreshPool(c.kv), map[], [], [], true, Stats(0, 0, 0, 0, 0, 0, 0), [], [], 0, 0)
    {
      c, kv := config, manager;
      seqs, waiting, running, batchOpen := map[], [], [], true;
      stats, log := Stats(0, 0, 0, 0, 0, 0, 0), [];
      order, executed, adopted := [], 0, 0;
    }

    method Add(id: Id, prompt: seq<Token>, params: SamplingParams)
      requires id !in seqs
      modifies this
      ensures State() == Scheduling.Add(old(State()), id, prompt, params)
    {
      seqs := seqs[id := NewSequence(prompt, params)];
      waiting := waiting + [id];
      order := order + [id];
    }

    /** Give the sequence's blocks back. */
    method Drop(id: Id, ghost w: World, ghost cache: seq<seq<KV>>)
      requires id in seqs && KvReady(w, cache)
      modifies this, kv
      ensures State() == Scheduling.Drop(c, old(State()), id)
    {
      hide KvOk, PoolInv, BlockPool.Free;
      TableReady(w, cache, kv.State(), seqs, order, id);
      var s := seqs[id];
      var bt := kv.Free(s.table, Others(seqs, order, id));
      seqs := seqs[id := s.(table := bt)];
    }

    method Retire(id: Id, r: Finish, ghost w: World, ghost cache: seq<seq<KV>>)
      requires id in seqs && KvReady(w, cache)
      modifies this, kv
      ensures State() == Scheduling.Retire(c, old(State()), id, r)
    {
      hide KvOk, BlockPool.Free;
      Drop(id, w, cache);
      seqs := seqs[id := seqs[id].(status := Finished, finish := r)];
      stats := stats.(finished := stats.finished + 1);
      log := log + [Ended(id, r)];
    }

    method Abort(id: Id, ghost w: World, ghost cache: seq<seq<KV>>)
      requires Valid(w, cache, [])
      modifies this, kv
      ensures State() == AbortRequest(c, old(State()), id) && Valid(w, cache, [])
      ensures Cancelled(old(State()), State(), id)
    {
      hide SysInv, Scheduling.Retire, KvOk, Cancelled;
      AbortKeeps(w, c, cache, State(), id);
      AbortCancels(w, c, cache, State(), id);
      KvOfSys(w, c, cache, State(), []);
      QueuesKnown(w, c, cache, State());
      var found, rest := RemoveFrom(waiting, id);
      if found {
        waiting := rest;
        Retire(id, Finish.Abort, w, cache);
        return;
      }
      found, rest := RemoveFrom(running, id);
      if found {
        running := rest;
        Retire(id, Finish.Abort, w, cache);
      }
    }

    // ---- admission ----

    method AdmissionFits(id: Id) returns (fits: bool)
      requires id in seqs && kv.c == c.kv && ValidConfig(c.kv)
      ensures fits == Scheduling.AdmissionFits(c, State(), seqs[id])
    {
      hide CachedBlocks;
      var s := seqs[id];
      var watermark: int := if c.watermark >= 0 then c.watermark else |running|;
      if watermark == 0 {
        return true;
      }
      var bs := c.kv.blockSize;
      var needed: int := (|s.tokens| + bs - 1) / bs;
      BlocksForIsDiv(bs, |s.tokens|);
      var prefix := kv.LookupCachedPrefix(s.tokens);
      var reused := prefix / bs;
      QuotIsDiv(bs, prefix);
      QuotUnique(bs, prefix, CachedBlocks(c.kv, kv.State(), s.tokens), 0);
      var available: int := kv.NumAvailableBlocks();
      return available - (needed - reused) >= watermark;
    }

    /** Allocate blocks for a waiting sequence and count its cached prefix as computed. */
    method Adopt(id: Id, ghost w: World, ghost cache: seq<seq<KV>>) returns (ok: bool)
      requires id in waiting && Valid(w, cache, [])
      modifies this, kv
      ensures ValidConfig(c.kv)
      ensures var next := Scheduling.Adopt(c, old(State()), id);
              ok == next.Some? && State() == if ok then next.value else old(State())
    {
      hide SysInv, KvOk, PoolInv, BlockPool.AllocatePrompt;
      WaitingReady(w, c, cache, State(), id);
      PoolReady(w, cache, kv.State(), seqs, order);
      var s := seqs[id];
      var bt, cached := kv.AllocatePrompt(s.tokens, Owned(seqs, order));
      if cached.None? {
        return false;
      }
      var computed := if cached.value <= |s.tokens| - 1 then cached.value else |s.tokens| - 1;
      seqs := seqs[id := s.(table := bt, computed := computed)];
      adopted := adopted + computed;
      return true;
    }

    /** Allocate if the watermark allows it. */
    method TryAdopt(id: Id, ghost w: World, ghost cache: seq<seq<KV>>) returns (ok: bool)
      requires id in waiting && id in seqs && Valid(w, cache, [])
      modifies this, kv
      ensures ValidConfig(c.kv)
      ensures var y := old(State());
              var next := if Scheduling.AdmissionFits(c, y, Lookup(y, id)) then Scheduling.Adopt(c, y, id) else None;
              ok == next.Some? && State() == if ok then next.value else y
    {
      hide SysInv, Scheduling.Adopt, Scheduling.AdmissionFits;
      ConfigReady(w, c, cache, State(), []);
      ok := AdmissionFits(id);
      if ok {
        ok := Adopt(id, w, cache);
      }
    }

    /** The sequence at queue position `i` owns its blocks: give it a chunk and make it resident. */
    method Start(step: Step, budget: int, i: nat) returns (admitted: bool, step1: Step, budget1: int)
      requires i < |waiting| && waiting[i] in seqs
      modifies this
      ensures Admission(admitted, State(), step1, budget1) == Scheduling.Start(c, old(State()), step, budget, i)
    {
      var id := waiting[i];
      var s := seqs[id];
      var len := Min(Min(|s.tokens| - s.computed, budget), c.prefillChunk);
      if len <= 0 {
        return false, step, budget;
      }
      step1 := AddPrefill(step, id, s, len);
      budget1 := budget - len;
      waiting := waiting[..i] + waiting[i + 1..];
      running := running + [id];
      seqs := seqs[id := s.(status := Running)];
      stats := stats.(admitted := stats.admitted + 1, maxWait := Max(stats.maxWait, s.waitSteps));
      admitted := true;
    }

    /** Try to admit somebody from the front of the queue. */
    method AdmitOne(step: Step, budget: int, ghost w: World, ghost cache: seq<seq<KV>>) returns (admitted: bool, step1: Step, budget1: int)
      requires Valid(w, cache, [])
      modifies this, kv
      ensures ValidConfig(c.kv)
      ensures Admission(admitted, State(), step1, budget1) == Scheduling.AdmitOne(c, old(State()), step, budget)
    {
      hide SysInv, Scheduling.Adopt, Scheduling.Start, Scheduling.AdmissionFits;
      ConfigReady(w, c, cache, State(), []);
      admitted, step1, budget1 := false, step, budget;
      if waiting == [] || budget <= 0 || |running| >= c.maxNumSeqs {
        return;
      }
      var limit := if c.lookahead <= 1 then 1 else Min(|waiting|, c.lookahead);
      ghost var y := State();
      var i := 0;
      while i < limit
        invariant 0 <= i <= limit <= |waiting| && State() == y && Valid(w, cache, [])
        invariant AdmitScan(c, y, step, budget, i, limit) == AdmitScan(c, y, step, budget, 0, limit)
      {
        var id := waiting[i];
        WaitingReady(w, c, cache, State(), id);
        var s := seqs[id];
        if s.table.blocks == [] {
          var starving := s.waitSteps >= c.starvationSteps;
          var ok := TryAdopt(id, w, cache);
          if !ok {
            if starving {
              return;
            }
            i := i + 1;
            continue;
          }
          AdoptShape(c, y, id);
        }
        admitted, step1, budget1 := Start(step, budget, i);
        return;
      }
    }

    // ---- making room ----

    /** The last finished resident, searched from the back. */
    method FindFinished() returns (r: Option<nat>)
      requires forall x :: x in running ==> x in seqs
      ensures r == LastFinished(State(), |running|)
    {
      ghost var y := State();
      var i: nat := |running|;
      while i > 0
        invariant i <= |running| && LastFinished(y, i) == LastFinished(y, |running|)
      {
        i := i - 1;
        assert running[i] in running;
        if seqs[running[i]].status == Finished {
          return Some(i);
        }
      }
      return None;
    }

    method ReleaseFinished(i: nat, ghost w: World, ghost cache: seq<seq<KV>>)
      requires i < |running| && running[i] in seqs && KvReady(w, cache)
      modifies this, kv
      ensures State() == Scheduling.ReleaseFinished(c, old(State()), i)
    {
      hide KvOk, Scheduling.Drop;
      var id := running[i];
      running := running[..i] + running[i + 1..];
      Drop(id, w, cache);
      stats := stats.(finished := stats.finished + 1);
    }

    /** Back to the front of the queue; everything it computed is thrown away. */
    method PreemptYoungest(ghost w: World, ghost cache: seq<seq<KV>>)
      requires running != [] && running[|running| - 1] in seqs && KvReady(w, cache)
      modifies this, kv
      ensures State() == Scheduling.PreemptYoungest(c, old(State()))
    {
      hide KvOk, BlockPool.Free;
      var last := |running| - 1;
      var id := running[last];
      running := running[..last];
      Drop(id, w, cache);
      var s := seqs[id];
      stats := stats.(recomputed := stats.recomputed + s.computed, preemptions := stats.preemptions + 1);
      seqs := seqs[id := s.(computed := 0, preemptions := s.preemptions + 1, status := Waiting)];
      waiting := [id] + waiting;
    }

    /** Release a finished resident, else preempt the youngest; the victim leaves both candidate lists. */
    method EvictForMemory(mid: seq<Id>, dec: seq<Id>, ghost w: World, ghost cache: seq<seq<KV>>) returns (ok: bool, mid1: seq<Id>, dec1: seq<Id>)
      requires Valid(w, cache, [])
      modifies this, kv
      ensures ok == (old(running) != [])
      ensures !ok ==> State() == old(State()) && mid1 == mid && dec1 == dec
      ensures ok ==> State() == Evict(c, old(State())) && Victim(old(State())).Some?
      ensures ok ==> mid1 == Without(mid, Victim(old(State())).value) && dec1 == Without(dec, Victim(old(State())).value)
    {
      hide SysInv, KvOk, Scheduling.ReleaseFinished, Scheduling.PreemptYoungest, Without;
      KvOfSys(w, c, cache, State(), []);
      QueuesKnown(w, c, cache, State());
      if running == [] {
        return false, mid, dec;
      }
      var id := running[|running| - 1];
      assert id in running;
      var i := FindFinished();
      if i.Some? {
        id := running[i.value];
        assert id in running;
        ReleaseFinished(i.value, w, cache);
      } else {
        PreemptYoungest(w, cache);
      }
      var found;
      found, mid1 := RemoveFrom(mid, id);
      found, dec1 := RemoveFrom(dec, id);
      ok := true;
    }

    // ---- schedule ----

    /** Residents still in prefill and residents that decode, in running order. */
    method SplitResidents() returns (mid: seq<Id>, dec: seq<Id>)
      requires forall x :: x in running ==> x in seqs
      ensures mid == MidPrefill(State(), running) && dec == Decoding(State(), running)
    {
      mid, dec := [], [];
      for i := 0 to |running|
        invariant mid == MidPrefill(State(), running[..i]) && dec == Decoding(State(), running[..i])
      {
        assert running[..i + 1][..i] == running[..i];
        var s := seqs[running[i]];
        if s.status != Finished {
          if |s.tokens| - s.computed <= 1 {
            dec := dec + [running[i]];
          } else {
            mid := mid + [running[i]];
          }
        }
      }
      assert running[..|running|] == running;
    }

    method GrowFor(id: Id, ghost w: World, ghost cache: seq<seq<KV>>) returns (ok: bool)
      requires id in seqs && KvReady(w, cache)
      modifies this, kv
      ensures ValidConfig(c.kv) && (State(), ok) == Scheduling.GrowFor(c, old(State()), id)
    {
      hide KvOk, PoolInv, BlockPool.EnsureSlot;
      TableReady(w, cache, kv.State(), seqs, order, id);
      var s := seqs[id];
      var bt;
      bt, ok := kv.EnsureSlot(s.table, |s.tokens|, Others(seqs, order, id));
      seqs := seqs[id := s.(table := bt)];
    }

    /** Find a slot for every decoding sequence, evicting as needed; an eviction that is needed always succeeds. */
    method PlaceDecodes(mid0: seq<Id>, dec0: seq<Id>, ghost w: World, ghost cache: seq<seq<KV>>) returns (mid: seq<Id>, dec: seq<Id>)
      requires Valid(w, cache, []) && Candidates(c, State(), mid0, dec0, 0)
      modifies this, kv
      ensures ValidConfig(c.kv) && (State(), mid, dec) == Scheduling.PlaceDecodes(c, old(State()), mid0, dec0, 0)
      ensures Valid(w, cache, [])
    {
      hide SysInv, KvOk, Candidates, Scheduling.GrowFor, Evict, Victim, Without;
      ConfigReady(w, c, cache, State(), []);
      ghost var goal := Scheduling.PlaceDecodes(c, State(), mid0, dec0, 0);
      mid, dec := mid0, dec0;
      var i := 0;
      while i < |dec|
        invariant Valid(w, cache, []) && Candidates(c, State(), mid, dec, i)
        invariant Scheduling.PlaceDecodes(c, State(), mid, dec, i) == goal
        decreases |running|, |dec| - i
      {
        ghost var y := State();
        KvOfSys(w, c, cache, y, []);
        CandidateHere(c, y, mid, dec, i);
        GrowForKeeps(w, c, cache, y, dec[i]);
        var ok := GrowFor(dec[i], w, cache);
        if ok {
          GrowCandidates(c, y, State(), mid, dec, i);
          i := i + 1;
        } else {
          EvictCandidates(w, c, cache, y, mid, dec, i);
          EvictKeeps(w, c, cache, y);
          var evicted;
          evicted, mid, dec := EvictForMemory(mid, dec, w, cache);
        }
      }
      CandidateLen(c, State(), mid, dec, i);
    }

    method BuildPrefill(mid: seq<Id>, step0: Step, budget0: int) returns (step: Step, budget: int)
      requires forall x :: x in mid ==> x in seqs
      ensures (step, budget) == PrefillSlices(c, State(), mid, 0, step0, budget0)
    {
      step, budget := step0, budget0;
      for j := 0 to |mid|
        invariant PrefillSlices(c, State(), mid, j, step, budget) == PrefillSlices(c, State(), mid, 0, step0, budget0)
      {
        var s := seqs[mid[j]];
        var len := Min(Min(|s.tokens| - s.computed, budget), c.prefillChunk);
        if len > 0 {
          step, budget := AddPrefill(step, mid[j], s, len), budget - len;
        }
      }
    }

    /** Who is past the deadline, and who is not, in queue order. */
    method SplitQueue(late: set<Id>) returns (expired: seq<Id>, kept: seq<Id>)
      requires forall x :: x in waiting ==> x in seqs
      ensures expired == Expired(State(), waiting, late) && kept == Punctual(State(), waiting, late)
    {
      expired, kept := [], [];
      for i := 0 to |waiting|
        invariant expired == Expired(State(), waiting[..i], late) && kept == Punctual(State(), waiting[..i], late)
      {
        assert waiting[..i + 1][..i] == waiting[..i];
        if waiting[i] in late && seqs[waiting[i]].table.blocks == [] {
          expired := expired + [waiting[i]];
        } else {
          kept := kept + [waiting[i]];
        }
      }
      assert waiting[..|waiting|] == waiting;
    }

    /** Take everybody past the deadline out of the queue, then end them in queue order. */
    method ExpireQueue(late: set<Id>, ghost w: World, ghost cache: seq<seq<KV>>)
      requires Valid(w, cache, [])
      modifies this, kv
      ensures State() == Scheduling.ExpireQueue(c, old(State()), late) && Valid(w, cache, [])
      ensures ExpiredFrom(old(State()), State(), late)
    {
      hide SysInv, KvOk, Scheduling.Retire, RetireLate, Expired, Punctual, ExpiredFrom;
      ExpireExact(w, c, cache, State(), late);
      ghost var y := State();
      QueuesKnown(w, c, cache, y);
      ExpireKeeps(w, c, cache, y, late);
      var expired, kept := SplitQueue(late);
      waiting := kept;
      ExpiredLeaving(w, c, cache, y, late);
      for j := 0 to |expired|
        invariant Valid(w, cache, expired[j..])
        invariant RetireLate(c, State(), expired, j) == Scheduling.ExpireQueue(c, y, late)
      {
        ghost var y0 := State();
        var id := expired[j];
        RetireLateNext(c, y0, expired, j);
        assert expired[j..][0] == id && expired[j..][1..] == expired[j + 1..];
        KvOfSys(w, c, cache, y0, expired[j..]);
        stats := stats.(timedOut := stats.timedOut + 1);
        StatsOnly(w, c, cache, y0, State(), expired[j..]);
        RetireLeaving(w, c, cache, State(), expired[j..], Timeout);
        Retire(id, Timeout, w, cache);
      }
      assert expired[|expired|..] == [];
      RetireLateEnd(c, State(), expired);
    }

    /** Everybody still queued has waited one more round. */
    method BumpQueue()
      requires forall x :: x in waiting ==> x in seqs
      modifies this
      ensures State() == BumpWaits(old(State()), 0)
    {
      ghost var goal := BumpWaits(State(), 0);
      for j := 0 to |waiting|
        invariant waiting == old(waiting) && kv.State() == old(kv.State())
        invariant forall x :: x in waiting ==> x in seqs
        invariant BumpWaits(State(), j) == goal
      {
        var s := seqs[waiting[j]];
        seqs := seqs[waiting[j] := s.(waitSteps := s.waitSteps + 1)];
      }
    }

    /** Admit while possible, then decide whether a static batch is closed and whether the head must go. */
    method AdmitWaiting(dec: seq<Id>, step0: Step, budget0: int, ghost w: World, ghost cache: seq<seq<KV>>) returns (step: Step)
      requires Valid(w, cache, []) && 0 <= budget0 && |running| <= c.maxNumSeqs && Building(c, State(), step0)
      modifies this, kv
      ensures ValidConfig(c.kv) && (State(), step) == Admissions(c, old(State()), dec, step0, budget0)
    {
      hide SysInv, KvOk, Building, Scheduling.AdmitOne, Scheduling.Retire, SameResidents, BumpWaits;
      ConfigReady(w, c, cache, State(), []);
      QueuesKnown(w, c, cache, State());
      BumpKeeps(w, c, cache, State(), 0);
      BuildingFrame(c, State(), BumpWaits(State(), 0), step0);
      BumpQueue();
      step := step0;
      var budget := budget0;
      ghost var goal := AdmitAll(c, State(), step0, budget0);
      var more := true;
      while more
        invariant Valid(w, cache, []) && 0 <= budget && Building(c, State(), step)
        invariant if more then AdmitAll(c, State(), step, budget) == goal else (State(), step, budget) == goal
        decreases |waiting|, more
      {
        AdmitOneKeeps(w, c, cache, State(), step, budget);
        more, step, budget := AdmitOne(step, budget, w, cache);
      }
      if !c.continuous && waiting != [] {
        var seqLimit := |running| >= c.maxNumSeqs;
        var memoryBound := budget > 0 && running != [];
        if seqLimit || memoryBound {
          batchOpen := false;
        }
      }
      if waiting != [] && running == [] && dec == [] {
        ghost var y := State();
        StatsOnly(w, c, cache, goal.0, y, []);
        KvOfSys(w, c, cache, y, []);
        QueuesKnown(w, c, cache, y);
        var id := waiting[0];
        waiting := waiting[1..];
        Retire(id, Finish.Abort, w, cache);
      }
    }

    method AppendDecodes(dec: seq<Id>, step0: Step) returns (step: Step)
      requires forall x :: x in dec ==> x in seqs
      ensures step == DecodeSlices(State(), dec, 0, step0)
    {
      step := step0;
      for j := 0 to |dec|
        invariant DecodeSlices(State(), dec, j, step) == DecodeSlices(State(), dec, 0, step0)
      {
        step := step.(slices := step.slices + [Slice(dec[j], seqs[dec[j]].computed, 1, true, false)],
                      decodeTokens := step.decodeTokens + 1, logits := step.logits + 1);
      }
    }

    /** Settle which residents keep their place. */
    method Settle(ghost w: World, ghost cache: seq<seq<KV>>) returns (mid: seq<Id>, dec: seq<Id>)
      requires Valid(w, cache, [])
      modifies this, kv
      ensures ValidConfig(c.kv) && (State(), mid, dec) == Scheduling.Settle(c, old(State())) && Valid(w, cache, [])
    {
      hide SysInv, Candidates, Scheduling.PlaceDecodes, MidPrefill, Decoding;
      ghost var y := State();
      stats := stats.(steps := stats.steps + 1);
      if !c.continuous && running == [] {
        batchOpen := true;
      }
      StatsOnly(w, c, cache, y, State(), []);
      QueuesKnown(w, c, cache, State());
      StartCandidates(w, c, cache, State());
      mid, dec := SplitResidents();
      mid, dec := PlaceDecodes(mid, dec, w, cache);
    }

    /**
     One scheduling round. The step is valid and within the token budget, and the invariant holds
     again, whatever was evicted, expired or admitted on the way.
     */
    method Schedule(late: set<Id>, ghost w: World, ghost cache: seq<seq<KV>>) returns (step: Step)
      requires Valid(w, cache, []) && |running| <= c.maxNumSeqs
      modifies this, kv
      ensures ValidConfig(c.kv) && (State(), step) == Scheduling.Schedule(c, old(State()), late)
      ensures Valid(w, cache, []) && |running| <= c.maxNumSeqs && StepValid(c, State(), step)
      ensures step.prefillTokens + step.decodeTokens <= c.maxBatchedTokens
    {
      hide SysInv, KvOk, Candidates, Building, StepValid, SameResidents, IdsIn, NewSlices,
        Scheduling.Settle, PrefillSlices, Scheduling.ExpireQueue, Admissions, DecodeSlices, Scheduling.Schedule;
      ghost var y := State();
      ConfigReady(w, c, cache, y, []);
      ScheduleIs(c, y, late);
      ScheduleKeeps(w, c, cache, y, late);
      SettleKeeps(w, c, cache, y);
      SettleShrinks(c, y);
      var mayAdmit := c.continuous || batchOpen || running == [];
      var mid, dec := Settle(w, cache);
      ghost var y1 := State();
      ghost var dec0 := dec;
      CandidatesKnown(c, y1, mid, dec);
      var budget;
      step, budget := BuildPrefill(mid, EmptyStep, c.maxBatchedTokens);
      EmptyBuilding(c, y1);
      NoIds(mid);
      PrefillSlicesOk(w, c, cache, y1, mid, dec, 0, EmptyStep, c.maxBatchedTokens);
      if |dec| > budget {
        dec := dec[..budget];
      }
      budget := budget - |dec|;
      ExpireKeeps(w, c, cache, y1, late);
      BuildingFrame(c, y1, Scheduling.ExpireQueue(c, y1, late), step);
      ExpireQueue(late, w, cache);
      ghost var y2 := State();
      if mayAdmit {
        AdmissionsKeep(w, c, cache, y2, dec, step, budget);
        step := AdmitWaiting(dec, step, budget, w, cache);
        SameResidentsTrans(y1, y2, State());
      }
      ResidentsKnown(w, c, cache, y1, State(), mid, dec0, dec);
      step := AppendDecodes(dec, step);
    }

    // ---- on_step_done ----

    /** Count a slice as computed and publish the blocks it completed. */
    method Advance(sl: Slice, ghost w: World, ghost cache: seq<seq<KV>>)
      requires sl.id in seqs && KvReady(w, cache) && seqs[sl.id].computed + sl.len <= |seqs[sl.id].tokens|
      modifies this, kv
      ensures State() == Scheduling.Advance(c, old(State()), sl)
    {
      hide KvOk, PoolInv, BlockPool.CommitComputed, SysInv;
      var s := seqs[sl.id];
      CommitReady(w, cache, kv.State(), seqs, order, sl.id);
      PoolReady(w, cache, kv.State(), seqs, order);
      var bt := kv.CommitComputed(s.table, s.tokens, s.computed + sl.len, Owned(seqs, order));
      seqs := seqs[sl.id := s.(computed := s.computed + sl.len, table := bt)];
      executed := executed + sl.len;
    }

    /** Append a sampled token, report it, and take the sequence out of the batch when that ends it. */
    method AppendToken(id: Id, tok: Token, done0: seq<Id>, ghost used: nat) returns (done: seq<Id>)
      requires id in seqs
      modifies this
      ensures Progress(State(), used, done) == Append1(c, Progress(old(State()), used, done0), id, tok)
    {
      done := done0;
      var s := seqs[id].(tokens := seqs[id].tokens + [tok]);
      seqs := seqs[id := s];
      var stop := !s.params.ignoreEos && tok in s.params.stopIds;
      var r := if stop then Stop else if |s.tokens| - s.promptLen >= s.params.maxTokens then Length else NoFinish;
      if !stop {
        log := log + [Emitted(id, tok)];
      }
      if r == NoFinish {
        return;
      }
      if c.continuous {
        seqs := seqs[id := s.(finish := r)];
        done := done + [id];
        var found;
        found, running := RemoveFrom(running, id);
      } else {
        seqs := seqs[id := s.(finish := r, status := Finished)];
        log := log + [Ended(id, r)];
      }
    }

    method ApplySlices(slices: seq<Slice>, sampled: seq<Token>, ghost w: World, ghost cache: seq<seq<KV>>) returns (done: seq<Id>)
      requires kv.c == c.kv && Applying(w, c, cache, State(), slices, 0, Progress(State(), 0, [])) && Distinct(slices) && Samples(w, State(), slices, sampled)
      modifies this, kv
      ensures exists used :: Progress(State(), used, done) == SlicesDone(c, Progress(old(State()), 0, []), slices, 0, sampled)
      ensures Valid(w, cache, done) && forall x :: x in done ==> x in seqs && seqs[x].status == Running
    {
      hide SysInv, KvOk, Distinct, Samples, Scheduling.Advance, Append1, Applying;
      ghost var y0 := State();
      ghost var goal := SlicesDone(c, Progress(y0, 0, []), slices, 0, sampled);
      var k: nat := 0;
      done := [];
      for j := 0 to |slices|
        invariant kv.c == c.kv && Applying(w, c, cache, y0, slices, j, Progress(State(), k, done))
        invariant SlicesDone(c, Progress(State(), k, done), slices, j, sampled) == goal
      {
        var sl := slices[j];
        ghost var g := Progress(State(), k, done);
        SliceReady(w, c, cache, y0, slices, j, g, sampled);
        ApplyOne(w, c, cache, y0, slices, j, g, sampled);
        AdvanceKnown(c, State(), sl);
        Advance(sl, w, cache);
        if sl.needsLogits {
          var tok := sampled[k];
          k := k + 1;
          if seqs[sl.id].status != Finished {
            done := AppendToken(sl.id, tok, done, k);
          }
        }
      }
      ApplyingParts(w, c, cache, y0, slices, |slices|, Progress(State(), k, done));
    }

    /** Apply a step's samples: advance, append, retire what finished, and release a drained static batch. */
    method OnStepDone(step: Step, sampled: seq<Token>, ghost w: World, ghost cache: seq<seq<KV>>)
      requires kv.c == c.kv && Applying(w, c, cache, State(), step.slices, 0, Progress(State(), 0, []))
      requires Distinct(step.slices) && Samples(w, State(), step.slices, sampled)
      modifies this, kv
      ensures State() == Scheduling.OnStepDone(c, old(State()), step, sampled)
      ensures Valid(w, cache, [])
    {
      hide SysInv, KvOk, Distinct, Samples, Applying, SlicesDone, DrainBatch, RetireDone;
      ghost var y := State();
      OnStepDoneKeeps(w, c, cache, y, step, sampled);
      var done := ApplySlices(step.slices, sampled, w, cache);
      RetireFinished(done, w, cache);
      QueuesKnown(w, c, cache, State());
      if !c.continuous && running != [] {
        var all := AllDone();
        if all {
          ReleaseBatch(w, cache);
        }
      }
    }

    method RetireFinished(done: seq<Id>, ghost w: World, ghost cache: seq<seq<KV>>)
      requires Valid(w, cache, done) && forall x :: x in done ==> x in seqs && seqs[x].status == Running
      modifies this, kv
      ensures State() == RetireDone(c, old(State()), done, 0) && Valid(w, cache, [])
    {
      hide SysInv, KvOk, Scheduling.Retire, NoDup;
      ghost var goal := RetireDone(c, State(), done, 0);
      assert done[0..] == done;
      for j := 0 to |done|
        invariant Valid(w, cache, done[j..]) && forall x :: x in done[j..] ==> x in seqs && seqs[x].status == Running
        invariant RetireDone(c, State(), done, j) == goal
      {
        ghost var y := State();
        ghost var rest := done[j..];
        var id := done[j];
        assert rest[0] == id && id in rest && rest[1..] == done[j + 1..];
        LeavingNoDup(w, c, cache, y, rest);
        HeadOnce(rest);
        KvOfSys(w, c, cache, y, rest);
        RetireLeaving(w, c, cache, y, rest, seqs[id].finish);
        RetireFrame(c, y, id, seqs[id].finish);
        Retire(id, seqs[id].finish, w, cache);
      }
      assert done[|done|..] == [];
    }

    method AllDone() returns (all: bool)
      requires forall x :: x in running ==> x in seqs
      ensures all == AllFinished(State())
    {
      for i := 0 to |running|
        invariant forall k :: 0 <= k < i ==> IsFinished(Lookup(State(), running[k]))
      {
        if seqs[running[i]].status != Finished {
          return false;
        }
      }
      return true;
    }

    /** Static mode: every member finished, so all blocks go back and the batch reopens. */
    method ReleaseBatch(ghost w: World, ghost cache: seq<seq<KV>>)
      requires Valid(w, cache, []) && AllFinished(State())
      modifies this, kv
      ensures State() == DrainBatch(c, old(State()), 0)
    {
      hide SysInv, KvOk, Scheduling.Drop, DrainBatch, IsFinished;
      ghost var goal := DrainBatch(c, State(), 0);
      assert State().(running := running[0..]) == State();
      for j := 0 to |running|
        invariant running == old(running) && kv.c == c.kv
        invariant SysInv(w, c, cache, State().(running := running[j..]), [])
        invariant forall i :: j <= i < |running| ==> IsFinished(Lookup(State(), running[i]))
        invariant DrainBatch(c, State(), j) == goal
      {
        DrainHere(w, c, cache, State(), j);
        Drop(running[j], w, cache);
        stats := stats.(finished := stats.finished + 1);
      }
      DrainEnd(c, State());
      running := [];
      batchOpen := true;
    }
  }

  // ---- list helpers ----

  /** Find and erase the first `x`. */
  method RemoveFrom(l: seq<Id>, x: Id) returns (found: bool, r: seq<Id>)
    ensures found == (x in l) && r == Without(l, x)
  {
    var i := 0;
    while i < |l| && l[i] != x
      invariant i <= |l| && x !in l[..i]
    {
      i := i + 1;
    }
    found := i < |l|;
    if found {
      WithoutAt(l, x, i);
      r := l[..i] + l[i + 1..];
    } else {
      WithoutAbsent(l, x);
      r := l;
    }
  }

  // ---- what the invariant gives the cache manager ----

  lemma TableReady(w: World, cache: seq<seq<KV>>, p: Pool, seqs: map<Id, Sequence>, order: seq<Id>, id: Id)
    requires id in seqs && KvOk(w, cache, p, seqs, order)
    ensures ValidConfig(w.c) && |p.refs| == |p.blockHash| == w.c.numBlocks
    ensures PoolInv(w.c, p, Others(seqs, order, id) + multiset(seqs[id].table.blocks))
    ensures |seqs[id].table.hashes| == |seqs[id].table.blocks|
    ensures forall i :: 0 <= i < |seqs[id].table.blocks| ==> seqs[id].table.hashes[i] == Get(p.blockHash, seqs[id].table.blocks[i])
  {
    hide TreeInv, LabelContents, SeqContents, NoCollision, HashedEntry;
    OpenKv(w, cache, p, seqs, order);
    OpenCache(w.c, w.universe, p, seqs, order);
    SplitTable(w.c, p, seqs, order, id);
    assert TableInv(w.c, p, seqs[id].table, seqs[id].tokens);
  }

  lemma PoolReady(w: World, cache: seq<seq<KV>>, p: Pool, seqs: map<Id, Sequence>, order: seq<Id>)
    requires KvOk(w, cache, p, seqs, order)
    ensures ValidConfig(w.c) && |p.refs| == |p.blockHash| == w.c.numBlocks && PoolInv(w.c, p, Owned(seqs, order))
  {
    hide TreeInv, LabelContents, SeqContents, NoCollision, TablesInv;
    OpenKv(w, cache, p, seqs, order);
    OpenCache(w.c, w.universe, p, seqs, order);
  }

  lemma ConfigReady(w: World, c: Config, cache: seq<seq<KV>>, y: Sys, done: seq<Id>)
    requires SysInv(w, c, cache, y, done)
    ensures ValidConfig(c.kv)
  {
    hide KvOk, RolesInv;
  }

  lemma KvOfSys(w: World, c: Config, cache: seq<seq<KV>>, y: Sys, done: seq<Id>)
    requires SysInv(w, c, cache, y, done)
    ensures c.kv == w.c && KvOk(w, cache, y.pool, y.seqs, y.order)
  {
    hide KvOk, RolesInv;
  }

  lemma QueuesKnown(w: World, c: Config, cache: seq<seq<KV>>, y: Sys)
    requires SysInv(w, c, cache, y, [])
    ensures forall x :: x in y.waiting || x in y.running ==> x in y.seqs
  {
    hide KvOk, RoleOk;
  }

  lemma WaitingReady(w: World, c: Config, cache: seq<seq<KV>>, y: Sys, id: Id)
    requires id in y.waiting && SysInv(w, c, cache, y, [])
    ensures id in y.seqs && y.seqs[id].tokens != [] && c.kv == w.c && KvOk(w, cache, y.pool, y.seqs, y.order)
  {
    hide KvOk, Live, InPlay;
    InQueues(w, c, cache, y, [], id);
  }

  lemma AdoptShape(c: Config, y: Sys, id: Id)
    requires ValidConfig(c.kv) && id in y.seqs
    ensures Scheduling.Adopt(c, y, id).Some? ==>
              var y1 := Scheduling.Adopt(c, y, id).value; y1.waiting == y.waiting && y1.running == y.running && id in y1.seqs
  {
    hide AllocatePrompt;
  }

  lemma RetireLateNext(c: Config, y: Sys, ids: seq<Id>, j: nat)
    requires j < |ids|
    ensures RetireLate(c, y, ids, j) ==
            RetireLate(c, Scheduling.Retire(c, y.(stats := y.stats.(timedOut := y.stats.timedOut + 1)), ids[j], Timeout), ids, j + 1)
  {
    hide Scheduling.Retire;
  }

  lemma RetireLateEnd(c: Config, y: Sys, ids: seq<Id>)
    ensures RetireLate(c, y, ids, |ids|) == y
  {
  }

  lemma ExpiredLeaving(w: World, c: Config, cache: seq<seq<KV>>, y: Sys, late: set<Id>)
    requires SysInv(w, c, cache, y, [])
    ensures SysInv(w, c, cache, y.(waiting := Punctual(y, y.waiting, late)), Expired(y, y.waiting, late))
  {
    hide *;
    RunningNoDup(w, c, cache, y);
    ExpiredSplit(y, y.waiting, late);
    var ids := Expired(y, y.waiting, late);
    var y0 := y.(waiting := Punctual(y, y.waiting, late));
    InvParts(w, c, cache, y, []);
    QueuesIs(y, []);
    ToLeaving(w, c, y.seqs, y.waiting, y.running, y0.waiting, ids);
    QueuesIs(y0, ids);
    MakeInv(w, c, cache, y0, ids);
  }

  lemma AdmitOneKeeps(w: World, c: Config, cache: seq<seq<KV>>, y: Sys, step: Step, budget: int)
    requires ValidConfig(c.kv) && 0 <= budget && SysInv(w, c, cache, y, []) && Building(c, y, step)
    ensures var r := Scheduling.AdmitOne(c, y, step, budget); SysInv(w, c, cache, r.sys, []) && Building(c, r.sys, r.step) && 0 <= r.budget
    ensures var r := Scheduling.AdmitOne(c, y, step, budget); if r.admitted then |r.sys.waiting| < |y.waiting| else r.sys == y
  {
    hide SysInv, Building, AdmitScan;
    if y.waiting != [] && budget > 0 && |y.running| < c.maxNumSeqs {
      ScanKeeps(w, c, cache, y, step, budget, 0, AdmitLimit(c, y));
    }
  }

  lemma CandidatesKnown(c: Config, y: Sys, mid: seq<Id>, dec: seq<Id>)
    requires Candidates(c, y, mid, dec, |dec|)
    ensures forall x :: x in mid || x in dec ==> x in y.seqs
  {
  }

  lemma ResidentsKnown(w: World, c: Config, cache: seq<seq<KV>>, y: Sys, y1: Sys, mid: seq<Id>, dec0: seq<Id>, dec: seq<Id>)
    requires Candidates(c, y, mid, dec0, |dec0|) && SameResidents(y, y1) && dec <= dec0
    ensures forall x :: x in dec ==> x in y1.seqs
  {
    hide IsSub;
    SubMembers(dec0, y.running);
  }

  lemma CommitReady(w: World, cache: seq<seq<KV>>, p: Pool, seqs: map<Id, Sequence>, order: seq<Id>, id: Id)
    requires id in seqs && KvOk(w, cache, p, seqs, order)
    ensures var t := seqs[id].table; var k := if t.committed <= |t.blocks| then t.committed else |t.blocks|;
            && |t.hashes| == |t.blocks| && NoDup(t.blocks[k..])
            && (forall i :: t.committed <= i < |t.blocks| ==> Get(p.blockHash, t.blocks[i]) == 0)
            && (forall b :: b in t.blocks ==> b in Owned(seqs, order))
  {
    hide TreeInv, LabelContents, SeqContents, NoCollision, HashIndexInv, ListsInv;
    OpenKv(w, cache, p, seqs, order);
    OpenCache(w.c, w.universe, p, seqs, order);
    OwnedSplit(seqs, order, id);
    var t := seqs[id].table;
    assert TableInv(w.c, p, t, seqs[id].tokens);
    forall i | t.committed <= i < |t.blocks| ensures Get(p.blockHash, t.blocks[i]) == 0 {
      assert t.hashes[i] != 0 ==> HashedEntry(w.c, t, i, seqs[id].tokens);
    }
    forall i, j | t.committed <= i < j < |t.blocks| ensures t.blocks[i] != t.blocks[j] {
      assert Get(p.refs, t.blocks[i]) <= 1;
      if t.blocks[i] == t.blocks[j] {
        TwoPositions(t.blocks, i, j);
        assert false;
      }
    }
  }

  /** What applying slice `j` needs. */
  lemma SliceReady(w: World, c: Config, cache: seq<seq<KV>>, y0: Sys, slices: seq<Slice>, j: nat, g: Progress, sampled: seq<Token>)
    requires j < |slices| && Applying(w, c, cache, y0, slices, j, g) && Samples(w, y0, slices, sampled)
    ensures var sl := slices[j];
            && sl.id in g.sys.seqs && g.sys.seqs[sl.id].computed + sl.len <= |g.sys.seqs[sl.id].tokens|
            && c.kv == w.c && KvOk(w, cache, g.sys.pool, g.sys.seqs, g.sys.order)
            && (sl.needsLogits ==> g.used < |sampled|)
  {
    hide KvOk, RolesInv, SeqContent, NextToken, Span;
    assert Waits(w, c, cache, y0, slices[j], g.sys);
    if slices[j].needsLogits {
      assert SampleAt(w, y0, slices, sampled, j);
    }
  }

  lemma AdvanceKnown(c: Config, y: Sys, sl: Slice)
    ensures sl.id in Scheduling.Advance(c, y, sl).seqs
  {
  }

  lemma ApplyingParts(w: World, c: Config, cache: seq<seq<KV>>, y0: Sys, slices: seq<Slice>, j: nat, g: Progress)
    requires Applying(w, c, cache, y0, slices, j, g)
    ensures SysInv(w, c, cache, g.sys, g.done) && forall x :: x in g.done ==> x in g.sys.seqs && g.sys.seqs[x].status == Running
  {
    hide SysInv, Waits;
  }

  lemma HeadOnce(l: seq<Id>)
    requires NoDup(l) && l != []
    ensures l[0] !in l[1..]
  {
  }

  lemma DrainHere(w: World, c: Config, cache: seq<seq<KV>>, y: Sys, j: nat)
    requires j < |y.running| && SysInv(w, c, cache, y.(running := y.running[j..]), [])
    requires forall i :: j <= i < |y.running| ==> IsFinished(Lookup(y, y.running[i]))
    ensures y.running[j] in y.seqs && c.kv == w.c && KvOk(w, cache, y.pool, y.seqs, y.order)
    ensures var y2 := DrainOne(c, y, j);
            && y2.running == y.running && SysInv(w, c, cache, y2.(running := y2.running[j + 1..]), []) && DrainBatch(c, y, j) == DrainBatch(c, y2, j + 1)
            && (forall i :: j + 1 <= i < |y2.running| ==> IsFinished(Lookup(y2, y2.running[i])))
  {
    hide SysInv, KvOk, Scheduling.Drop, Scheduling.ReleaseFinished;
    DrainStep(w, c, cache, y, j);
    KvOfSys(w, c, cache, y.(running := y.running[j..]), []);
    QueuesKnown(w, c, cache, y.(running := y.running[j..]));
    assert y.running[j] in y.running[j..];
  }

  lemma DrainEnd(c: Config, y: Sys)
    ensures DrainBatch(c, y, |y.running|) == y.(running := [], batchOpen := true)
  {
  }
}
