/** When a static batch closes. */
module Batches {
  import opened Lists
  import opened Paging
  import opened BlockPool
  import opened Requests
  import opened PrefixCache
  import opened PrefixTree
  import opened CacheOps
  import opened Network
  import opened Contents
  import opened Reference
  import opened Scheduling
  import opened Roles
  import opened Safety
  import opened Steps
  import opened Progressing
  import opened Ledger
  import opened Engine
  import opened Fcfs
  import opened Theorems
  import opened Admitting
  import opened Drain
  import opened Chunks

  lemma {:induction false} PlaceOpen(c: Config, y: Sys, mid: seq<Id>, dec: seq<Id>, i: nat)
    requires ValidConfig(c.kv)
    ensures PlaceDecodes(c, y, mid, dec, i).0.batchOpen == y.batchOpen
    decreases |y.running|, |dec| - i
  {
    hide EnsureSlot, Free, Without, LastFinished;
    if i < |dec| {
      var (y1, ok) := GrowFor(c, y, dec[i]);
      if ok {
        PlaceOpen(c, y1, mid, dec, i + 1);
      } else {
        match Victim(y1)
        case Some(v) => PlaceOpen(c, Evict(c, y1), Without(mid, v), Without(dec, v), i);
        case None => PlaceOpen(c, y1, mid, RemoveAt(dec, i), i);
      }
    }
  }

  lemma SettleOpen(c: Config, y: Sys)
    requires ValidConfig(c.kv)
    ensures Settle(c, y).0.batchOpen == Started(c, y).batchOpen
  {
    hide PlaceDecodes;
    var y0 := Started(c, y);
    PlaceOpen(c, y0, MidPrefill(y0, y0.running), Decoding(y0, y0.running), 0);
  }

  lemma {:induction false} DecodesLength(y: Sys, dec: seq<Id>, j: nat, step: Step)
    requires j <= |dec|
    ensures TotalLen(DecodeSlices(y, dec, j, step).slices) == TotalLen(step.slices) + |dec| - j
    decreases |dec| - j
  {
    if j < |dec| {
      var sl := Slice(dec[j], Lookup(y, dec[j]).computed, 1, true, false);
      assert (step.slices + [sl])[..|step.slices|] == step.slices;
      DecodesLength(y, dec, j + 1, step.(slices := step.slices + [sl], decodeTokens := step.decodeTokens + 1, logits := step.logits + 1));
    }
  }

  /** Somebody still waits, and the batch is full or the pool, not the token budget, is what kept them out. */
  predicate MustClose(c: Config, y: Sys, used: int) {
    y.waiting != [] && (|y.running| >= c.maxNumSeqs || (used < c.maxBatchedTokens && y.running != []))
  }

  lemma AdmissionsClose(w: World, c: Config, cache: seq<seq<KV>>, y: Sys, dec: seq<Id>, step: Step, budget: int)
    requires ValidConfig(c.kv) && 0 <= budget == c.maxBatchedTokens - TotalLen(step.slices) - |dec|
    requires SysInv(w, c, cache, y, []) && Building(c, y, step)
    ensures var (y1, step1) := Admissions(c, y, dec, step, budget);
            y1.batchOpen <==> y.batchOpen && (c.continuous || !MustClose(c, y1, TotalLen(step1.slices) + |dec|))
  {
    hide SysInv, Building, AdmitAll, BumpWaits, TotalLen, JoinRun, Retire, SameRequests, SameMembers, SameResidents, AnyLive;
    var y0 := BumpWaits(y, 0);
    BumpKeeps(w, c, cache, y, 0);
    BumpJoins(w, c, cache, y, 0);
    BuildingFrame(c, y, y0, step);
    AdmitAllChunks(w, c, cache, y0, step, budget, |dec|);
    AdmitAllJoins(w, c, cache, y0, step, budget);
    AdmitAllSound(w, c, cache, y0, step, budget);
    PolicyOk(w, c, cache, y);
    var (y1, step1, budget1) := AdmitAll(c, y0, step, budget);
    JoinLeft(c, y0, y1, step.slices, step1.slices, |dec|, budget1);
    var y2 := CloseBatch(c, y1, budget1);
    if y2.waiting != [] && y2.running == [] && dec == [] {
      WaitingEmpty(w, c, cache, y1, y1.waiting[0]);
      RetireFrame(c, y2.(waiting := y2.waiting[1..]), y2.waiting[0], Abort);
    }
  }

  /**
   In every reachable state of static mode: after a round the batch is open if and only if it was, or nobody was
   resident, and not somebody still waits with the batch full, or with budget left and somebody resident. So a
   spent budget alone never closes it. In continuous mode nothing is ever closed.
   */
  lemma BatchClosesExactly(w: World, c: Config, cache: seq<seq<KV>>, inputs: seq<Input>, m: Machine, late: set<Id>)
    requires Reached(w, c, cache, inputs, m)
    ensures ValidConfig(c.kv)
    ensures var (y, step) := Schedule(c, m.sys, late);
            if c.continuous then y.batchOpen == m.sys.batchOpen
            else y.batchOpen <==>
                 && (m.sys.batchOpen || m.sys.running == [])
                 && !(y.waiting != [] && (|y.running| >= c.maxNumSeqs || (TotalLen(step.slices) < c.maxBatchedTokens && y.running != [])))
  {
    hide Reached, SysInv, Books, Candidates, Building, SameResidents, NewSlices, IdsIn, TotalLen, ChunkRun, Prefilling, InPrefill,
      Settle, PrefillSlices, ExpireQueue, Admissions, DecodeSlices, Schedule;
    ReachedInv(w, c, cache, inputs, m);
    ConfigOf(w, c, m.cache, m.sys, []);
    var y := m.sys;
    ScheduleIs(c, y, late);
    SettleKeeps(w, c, m.cache, y);
    SettleOpen(c, y);
    PolicyOk(w, c, m.cache, y);
    var (y1, mid, dec0) := Settle(c, y);
    EmptyBuilding(c, y1);
    NoIds(mid);
    NoLength();
    PrefillSlicesOk(w, c, m.cache, y1, mid, dec0, 0, EmptyStep, c.maxBatchedTokens);
    MidIs(w, c, m.cache, y1, mid, dec0);
    MidLeft(y1, mid);
    PrefillChunks(c, y1, mid, 0, EmptyStep, c.maxBatchedTokens);
    var (step1, budget1) := PrefillSlices(c, y1, mid, 0, EmptyStep, c.maxBatchedTokens);
    RunLeft(c, y1, mid, 0, [], step1.slices, budget1);
    var dec := Truncated(dec0, budget1);
    var y2 := ExpireQueue(c, y1, late);
    ExpireKeeps(w, c, m.cache, y1, late);
    ExpireOpen(c, y1, late);
    BuildingFrame(c, y1, y2, step1);
    if c.continuous || y.batchOpen || y.running == [] {
      AdmissionsClose(w, c, m.cache, y2, dec, step1, budget1 - |dec|);
      var (y3, step3) := Admissions(c, y2, dec, step1, budget1 - |dec|);
      DecodesLength(y3, dec, 0, step3);
    }
  }

  lemma MidLeft(y: Sys, mid: seq<Id>)
    requires forall i :: 0 <= i < |mid| ==> InPrefill(y, mid[i])
    ensures forall i :: 0 <= i < |mid| ==> Lookup(y, mid[i]).computed < |Lookup(y, mid[i]).tokens|
  {
  }
}
