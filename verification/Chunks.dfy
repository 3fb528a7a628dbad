/**
 How long the slices of a step are and who gets one: prefill chunks of the residents first, then chunks of the
 newly admitted, then the decode tokens, each chunk as long as its prompt, the budget and the chunk size allow.
 */
module Chunks {
  import opened Lists
  import opened Paging
  import opened BlockPool
  import opened Requests
  import opened PrefixCache
  import opened PrefixTree
  import opened CacheOps
  import opened Network
  import opened Contents
  import opened Reference
  import opened Scheduling
  import opened Roles
  import opened Safety
  import opened Steps
  import opened Progressing
  import opened Ledger
  import opened Engine
  import opened Fcfs
  import opened Theorems
  import opened Admitting

  /**
   Slice `k` is a prefill chunk from where its sequence stands, as long as the rest of the sequence, the budget left by
   the slices before it and by `reserved` other tokens, and the chunk size allow.
   */
  ghost predicate ChunkAt(c: Config, y: Sys, slices: seq<Slice>, k: nat, reserved: nat)
    requires k < |slices|
  {
    var s := Lookup(y, slices[k].id);
    var left := c.maxBatchedTokens - TotalLen(slices[..k]) - reserved;
    && slices[k].isPrefill && slices[k].start == s.computed
    && slices[k].len == Min(Min(|s.tokens| - s.computed, left), c.prefillChunk)
  }

  lemma ChunkGrows(c: Config, y: Sys, y1: Sys, slices: seq<Slice>, slices1: seq<Slice>, k: nat, reserved: nat)
    requires k < |slices| && slices <= slices1 && ChunkAt(c, y, slices, k, reserved)
    requires Lookup(y1, slices[k].id).tokens == Lookup(y, slices[k].id).tokens && Lookup(y1, slices[k].id).computed == Lookup(y, slices[k].id).computed
    ensures ChunkAt(c, y1, slices1, k, reserved)
  {
    hide TotalLen;
    assert slices1[..k] == slices[..k] && slices1[k] == slices[k];
  }

  // ---- the residents' chunks ----

  /** `ids[j..]` get chunks, one each in order, until the budget is spent. */
  ghost predicate ChunkRun(c: Config, y: Sys, ids: seq<Id>, j: nat, slices: seq<Slice>, slices1: seq<Slice>, left: int) {
    var n := |slices1| - |slices|;
    && j <= |ids| && slices <= slices1 && n <= |ids| - j && 0 <= left == c.maxBatchedTokens - TotalLen(slices1)
    && (forall k: nat :: |slices| <= k < |slices1| ==> slices1[k].id == ids[j + k - |slices|] && ChunkAt(c, y, slices1, k, 0))
    && (n < |ids| - j ==> left == 0)
  }

  lemma AddChunk(c: Config, y: Sys, step: Step, id: Id, budget: int, reserved: nat)
    requires c.prefillChunk >= 1 && budget == c.maxBatchedTokens - TotalLen(step.slices) - reserved && ChunkLen(c, Lookup(y, id), budget) > 0
    ensures var len := ChunkLen(c, Lookup(y, id), budget); var step1 := AddPrefill(step, id, Lookup(y, id), len);
            && |step1.slices| == |step.slices| + 1 && step.slices <= step1.slices && step1.slices[|step.slices|].id == id
            && ChunkAt(c, y, step1.slices, |step.slices|, reserved)
            && budget - len == c.maxBatchedTokens - TotalLen(step1.slices) - reserved && 0 <= budget - len
  {
    var len := ChunkLen(c, Lookup(y, id), budget);
    var step1 := AddPrefill(step, id, Lookup(y, id), len);
    assert step1.slices[..|step.slices|] == step.slices;
  }

  lemma {:induction false} PrefillChunks(c: Config, y: Sys, mid: seq<Id>, j: nat, step: Step, budget: int)
    requires j <= |mid| && c.prefillChunk >= 1 && 0 <= budget == c.maxBatchedTokens - TotalLen(step.slices)
    requires forall i :: 0 <= i < |mid| ==> Lookup(y, mid[i]).computed < |Lookup(y, mid[i]).tokens|
    ensures var (step1, budget1) := PrefillSlices(c, y, mid, j, step, budget); ChunkRun(c, y, mid, j, step.slices, step1.slices, budget1)
    decreases |mid| - j
  {
    hide TotalLen, AddPrefill, ChunkAt;
    if j < |mid| {
      var s := Lookup(y, mid[j]);
      var len := ChunkLen(c, s, budget);
      if len > 0 {
        AddChunk(c, y, step, mid[j], budget, 0);
        var step1 := AddPrefill(step, mid[j], s, len);
        PrefillChunks(c, y, mid, j + 1, step1, budget - len);
        var (step2, budget2) := PrefillSlices(c, y, mid, j + 1, step1, budget - len);
        ChunkGrows(c, y, y, step1.slices, step2.slices, |step.slices|, 0);
      } else {
        NothingLeft(c, y, mid, j, step);
      }
    }
  }

  lemma {:induction false} NothingLeft(c: Config, y: Sys, mid: seq<Id>, j: nat, step: Step)
    ensures PrefillSlices(c, y, mid, j, step, 0) == (step, 0)
    decreases |mid| - j
  {
    if j < |mid| {
      NothingLeft(c, y, mid, j + 1, step);
    }
  }

  // ---- the chunks of the newly admitted ----

  /** Each new resident has one chunk, in the order of admission. */
  ghost predicate JoinRun(c: Config, y: Sys, y1: Sys, slices: seq<Slice>, slices1: seq<Slice>, reserved: nat, left: int) {
    && slices <= slices1 && y.running <= y1.running && |slices1| - |slices| == |y1.running| - |y.running|
    && 0 <= left == c.maxBatchedTokens - TotalLen(slices1) - reserved
    && forall k: nat :: |slices| <= k < |slices1| ==> slices1[k].id == y1.running[|y.running| + k - |slices|] && ChunkAt(c, y1, slices1, k, reserved)
  }

  lemma StartChunk(c: Config, y: Sys, step: Step, budget: int, k: nat, reserved: nat)
    requires k < |y.waiting| && c.prefillChunk >= 1 && budget == c.maxBatchedTokens - TotalLen(step.slices) - reserved
    ensures var r := Start(c, y, step, budget, k); r.admitted ==> JoinRun(c, y, r.sys, step.slices, r.step.slices, reserved, r.budget)
  {
    hide TotalLen, AddPrefill, ChunkAt;
    var id := y.waiting[k];
    var s := Lookup(y, id);
    var r := Start(c, y, step, budget, k);
    if r.admitted {
      AddChunk(c, y, step, id, budget, reserved);
      ChunkGrows(c, y, r.sys, r.step.slices, r.step.slices, |step.slices|, reserved);
    }
  }

  lemma AdmitOneChunk(w: World, c: Config, cache: seq<seq<KV>>, y: Sys, step: Step, budget: int, reserved: nat)
    requires ValidConfig(c.kv) && budget == c.maxBatchedTokens - TotalLen(step.slices) - reserved && SysInv(w, c, cache, y, []) && Building(c, y, step)
    ensures var r := AdmitOne(c, y, step, budget); r.admitted ==> JoinRun(c, y, r.sys, step.slices, r.step.slices, reserved, r.budget)
  {
    hide SysInv, Building, AdmitScan, FirstInWindow, AdmittedAt, Start, Adopt, TotalLen, JoinRun;
    var r := AdmitOne(c, y, step, budget);
    if r.admitted {
      PolicyOk(w, c, cache, y);
      AdmitOneExact(w, c, cache, y, step, budget);
      var k: nat :| FirstInWindow(c, y, k);
      FirstFitParts(c, y, k);
      AdoptFacts(w, c, cache, y, y.waiting[k]);
      var y1 := Adopt(c, y, y.waiting[k]).value;
      StartChunk(c, y1, step, budget, k, reserved);
      JoinFrom(c, y, y1, r.sys, step.slices, r.step.slices, reserved, r.budget);
    }
  }

  /** A request starts after its cached prefix, but never after its last token. */
  lemma AdmittedStart(w: World, c: Config, cache: seq<seq<KV>>, y: Sys, step: Step, budget: int)
    requires ValidConfig(c.kv) && SysInv(w, c, cache, y, []) && Building(c, y, step)
    ensures var r := AdmitOne(c, y, step, budget);
            r.admitted ==>
              && |r.step.slices| == |step.slices| + 1
              && (var sl := r.step.slices[|step.slices|]; var toks := Lookup(y, sl.id).tokens;
                  sl.start == Min(LookupCachedPrefix(c.kv, y.pool, toks), |toks| - 1))
  {
    hide SysInv, Building, AdmitScan, FirstInWindow, AdmittedAt, Adopt, AllocatePrompt, CachedBlocks;
    var r := AdmitOne(c, y, step, budget);
    if r.admitted {
      AdmitOneExact(w, c, cache, y, step, budget);
      var k: nat :| FirstInWindow(c, y, k);
      FirstFitParts(c, y, k);
      AdoptFacts(w, c, cache, y, y.waiting[k]);
      AdoptIs(c, y, y.waiting[k]);
      AllocatedPrefix(c.kv, y.pool, y.seqs[y.waiting[k]].tokens);
    }
  }

  lemma AllocatedPrefix(c: KvConfig, p: Pool, toks: seq<Token>)
    requires ValidConfig(c)
    ensures AllocatePrompt(c, p, toks).2.Some? ==> AllocatePrompt(c, p, toks).2.value == LookupCachedPrefix(c, p, toks)
  {
    hide CachedBlocks, AdoptHits, TakeFresh;
  }

  lemma JoinFrom(c: Config, y: Sys, y0: Sys, y1: Sys, slices: seq<Slice>, slices1: seq<Slice>, reserved: nat, left: int)
    requires y0.running == y.running && JoinRun(c, y0, y1, slices, slices1, reserved, left)
    ensures JoinRun(c, y, y1, slices, slices1, reserved, left)
  {
    hide TotalLen, ChunkAt;
  }

  lemma JoinTrans(c: Config, y: Sys, y1: Sys, y2: Sys, slices: seq<Slice>, slices1: seq<Slice>, slices2: seq<Slice>, reserved: nat, left: int, left2: int)
    requires JoinRun(c, y, y1, slices, slices1, reserved, left) && JoinRun(c, y1, y2, slices1, slices2, reserved, left2) && SameResidents(y1, y2)
    requires forall x :: x in y1.running ==> x in y1.seqs
    ensures JoinRun(c, y, y2, slices, slices2, reserved, left2)
  {
    hide TotalLen, ChunkAt;
    forall k: nat | |slices| <= k < |slices2|
      ensures slices2[k].id == y2.running[|y.running| + k - |slices|] && ChunkAt(c, y2, slices2, k, reserved)
    {
      if k < |slices1| {
        var x := slices1[k].id;
        assert x == y1.running[|y.running| + k - |slices|] && x in y1.running;
        ChunkGrows(c, y1, y2, slices1, slices2, k, reserved);
      }
    }
  }

  lemma JoinLeft(c: Config, y: Sys, y1: Sys, slices: seq<Slice>, slices1: seq<Slice>, reserved: nat, left: int)
    requires JoinRun(c, y, y1, slices, slices1, reserved, left)
    ensures 0 <= left == c.maxBatchedTokens - TotalLen(slices1) - reserved
  {
    hide TotalLen, ChunkAt;
  }

  lemma JoinNone(c: Config, y: Sys, slices: seq<Slice>, reserved: nat)
    requires 0 <= c.maxBatchedTokens - TotalLen(slices) - reserved
    ensures JoinRun(c, y, y, slices, slices, reserved, c.maxBatchedTokens - TotalLen(slices) - reserved)
  {
    hide TotalLen, ChunkAt;
  }

  lemma {:induction false} AdmitAllChunks(w: World, c: Config, cache: seq<seq<KV>>, y: Sys, step: Step, budget: int, reserved: nat)
    requires ValidConfig(c.kv) && 0 <= budget == c.maxBatchedTokens - TotalLen(step.slices) - reserved
    requires SysInv(w, c, cache, y, []) && Building(c, y, step)
    ensures var (y1, step1, budget1) := AdmitAll(c, y, step, budget); JoinRun(c, y, y1, step.slices, step1.slices, reserved, budget1)
    decreases |y.waiting|
  {
    hide SysInv, Building, AdmitOne, TotalLen, JoinRun, SameResidents, SameRequests, SameMembers, AnyLive;
    var r := AdmitOne(c, y, step, budget);
    AdmitOneJoins(w, c, cache, y, step, budget);
    if r.admitted {
      AdmitOneKept(w, c, cache, y, step, budget);
      AdmitOneChunk(w, c, cache, y, step, budget, reserved);
      JoinLeft(c, y, r.sys, step.slices, r.step.slices, reserved, r.budget);
      AdmitAllChunks(w, c, cache, r.sys, r.step, r.budget, reserved);
      AdmitAllJoins(w, c, cache, r.sys, r.step, r.budget);
      LineNoDup(w, c, cache, r.sys);
      var (y2, step2, budget2) := AdmitAll(c, r.sys, r.step, r.budget);
      JoinTrans(c, y, r.sys, y2, step.slices, r.step.slices, step2.slices, reserved, r.budget, budget2);
    } else {
      JoinNone(c, y, step.slices, reserved);
    }
  }

  lemma JoinSame(c: Config, y: Sys, y1: Sys, y2: Sys, slices: seq<Slice>, slices1: seq<Slice>, reserved: nat, left: int)
    requires JoinRun(c, y, y1, slices, slices1, reserved, left) && y2.running == y1.running && SameResidents(y1, y2)
    requires forall x :: x in y1.running ==> x in y1.seqs
    ensures JoinRun(c, y, y2, slices, slices1, reserved, left)
  {
    hide TotalLen, ChunkAt;
    forall k: nat | |slices| <= k < |slices1|
      ensures slices1[k].id == y2.running[|y.running| + k - |slices|] && ChunkAt(c, y2, slices1, k, reserved)
    {
      var x := slices1[k].id;
      assert x == y1.running[|y.running| + k - |slices|] && x in y1.running;
      ChunkGrows(c, y1, y2, slices1, slices1, k, reserved);
    }
  }

  lemma AdmissionsChunks(w: World, c: Config, cache: seq<seq<KV>>, y: Sys, dec: seq<Id>, step: Step, budget: int)
    requires ValidConfig(c.kv) && 0 <= budget == c.maxBatchedTokens - TotalLen(step.slices) - |dec|
    requires SysInv(w, c, cache, y, []) && Building(c, y, step)
    ensures var (y1, step1) := Admissions(c, y, dec, step, budget);
            JoinRun(c, y, y1, step.slices, step1.slices, |dec|, c.maxBatchedTokens - TotalLen(step1.slices) - |dec|)
  {
    hide SysInv, Building, AdmitAll, BumpWaits, TotalLen, JoinRun, RejectHead, SameResidents, SameRequests, SameMembers, AnyLive;
    var y0 := BumpWaits(y, 0);
    BumpKeeps(w, c, cache, y, 0);
    BuildingFrame(c, y, y0, step);
    AdmitAllChunks(w, c, cache, y0, step, budget, |dec|);
    AdmitAllSound(w, c, cache, y0, step, budget);
    var (y1, step1, budget1) := AdmitAll(c, y0, step, budget);
    JoinLeft(c, y0, y1, step.slices, step1.slices, |dec|, budget1);
    LineNoDup(w, c, cache, y1);
    var y2 := CloseBatch(c, y1, budget1);
    SameStart(y1, y2);
    StatsOnly(w, c, cache, y1, y2, []);
    JoinSame(c, y0, y1, y2, step.slices, step1.slices, |dec|, budget1);
    RejectKeeps(w, c, cache, y2, dec);
    JoinSame(c, y0, y2, RejectHead(c, y2, dec), step.slices, step1.slices, |dec|, budget1);
    JoinFrom(c, y, y0, RejectHead(c, y2, dec), step.slices, step1.slices, |dec|, budget1);
  }

  lemma {:induction false} AdmitAllSound(w: World, c: Config, cache: seq<seq<KV>>, y: Sys, step: Step, budget: int)
    requires ValidConfig(c.kv) && 0 <= budget && SysInv(w, c, cache, y, []) && Building(c, y, step)
    ensures SysInv(w, c, cache, AdmitAll(c, y, step, budget).0, [])
    decreases |y.waiting|
  {
    hide SysInv, Building, AdmitOne;
    AdmitOneJoins(w, c, cache, y, step, budget);
    var r := AdmitOne(c, y, step, budget);
    if r.admitted {
      AdmitOneKept(w, c, cache, y, step, budget);
      AdmitAllSound(w, c, cache, r.sys, r.step, r.budget);
    }
  }

  // ---- what admissions count ----

  /** `max_wait_steps` covers the new residents and is no larger than needed. */
  ghost predicate CountsJoins(y: Sys, y1: Sys) {
    && y.running <= y1.running && y1.stats == y.stats.(admitted := y.stats.admitted + |y1.running| - |y.running|, maxWait := y1.stats.maxWait)
    && y1.stats.maxWait >= y.stats.maxWait
    && (forall i :: |y.running| <= i < |y1.running| ==> Lookup(y1, y1.running[i]).waitSteps <= y1.stats.maxWait)
    && (y1.stats.maxWait == y.stats.maxWait || exists i :: |y.running| <= i < |y1.running| && Lookup(y1, y1.running[i]).waitSteps == y1.stats.maxWait)
  }

  lemma AdmitOneCounts(w: World, c: Config, cache: seq<seq<KV>>, y: Sys, step: Step, budget: int)
    requires ValidConfig(c.kv) && SysInv(w, c, cache, y, []) && Building(c, y, step)
    ensures var r := AdmitOne(c, y, step, budget); r.admitted ==> CountsJoins(y, r.sys) && |r.sys.running| == |y.running| + 1
  {
    hide SysInv, Building, AdmitScan, FirstInWindow, AdmittedAt, Adopt, Start, CountsJoins;
    var r := AdmitOne(c, y, step, budget);
    if r.admitted {
      AdmitOneExact(w, c, cache, y, step, budget);
      var k: nat :| FirstInWindow(c, y, k);
      FirstFitParts(c, y, k);
      AdoptFacts(w, c, cache, y, y.waiting[k]);
      StartCounts(c, y, Adopt(c, y, y.waiting[k]).value, step, budget, k);
    }
  }

  lemma StartCounts(c: Config, y: Sys, y1: Sys, step: Step, budget: int, k: nat)
    requires k < |y1.waiting| && y1.running == y.running && y1.stats == y.stats
    ensures var r := Start(c, y1, step, budget, k); r.admitted ==> CountsJoins(y, r.sys) && |r.sys.running| == |y.running| + 1
  {
    hide AddPrefill, ChunkLen;
    var r := Start(c, y1, step, budget, k);
    if r.admitted {
      assert r.sys.running[|y.running|] == y1.waiting[k];
    }
  }

  lemma CountsTrans(y: Sys, y1: Sys, y2: Sys)
    requires CountsJoins(y, y1) && CountsJoins(y1, y2) && SameResidents(y1, y2) && forall x :: x in y1.running ==> x in y1.seqs
    ensures CountsJoins(y, y2)
  {
    forall i | |y.running| <= i < |y1.running| ensures Lookup(y2, y2.running[i]) == Lookup(y1, y1.running[i]) {
      assert y1.running[i] in y1.running;
    }
  }

  lemma {:induction false} AdmitAllCounts(w: World, c: Config, cache: seq<seq<KV>>, y: Sys, step: Step, budget: int)
    requires ValidConfig(c.kv) && 0 <= budget && SysInv(w, c, cache, y, []) && Building(c, y, step)
    ensures CountsJoins(y, AdmitAll(c, y, step, budget).0)
    decreases |y.waiting|
  {
    hide SysInv, Building, AdmitOne, CountsJoins, SameResidents, SameRequests, SameMembers, AnyLive;
    var r := AdmitOne(c, y, step, budget);
    AdmitOneJoins(w, c, cache, y, step, budget);
    if r.admitted {
      AdmitOneKept(w, c, cache, y, step, budget);
      AdmitOneCounts(w, c, cache, y, step, budget);
      AdmitAllCounts(w, c, cache, r.sys, r.step, r.budget);
      AdmitAllJoins(w, c, cache, r.sys, r.step, r.budget);
      LineNoDup(w, c, cache, r.sys);
      CountsTrans(y, r.sys, AdmitAll(c, r.sys, r.step, r.budget).0);
    } else {
      CountsNone(y);
    }
  }

  lemma CountsNone(y: Sys)
    ensures CountsJoins(y, y)
  {
  }

  // ---- the whole step ----

  /** Decode slices follow, one token each. */
  lemma {:induction false} DecodesFollow(y: Sys, dec: seq<Id>, j: nat, step: Step)
    requires j <= |dec|
    ensures var slices := DecodeSlices(y, dec, j, step).slices;
            && step.slices <= slices && |slices| == |step.slices| + |dec| - j
            && DecodeSlices(y, dec, j, step).decodeTokens == step.decodeTokens + |dec| - j
            && forall k :: |step.slices| <= k < |slices| ==> !slices[k].isPrefill && slices[k].len == 1
    decreases |dec| - j
  {
    if j < |dec| {
      DecodesFollow(y, dec, j + 1,
                    step.(slices := step.slices + [Slice(dec[j], Lookup(y, dec[j]).computed, 1, true, false)],
                          decodeTokens := step.decodeTokens + 1, logits := step.logits + 1));
    }
  }

  /** An unfinished resident that has more than its last token to compute. */
  predicate InPrefill(y: Sys, id: Id) {
    id in y.seqs && !IsFinished(y.seqs[id]) && |y.seqs[id].tokens| - y.seqs[id].computed > 1
  }

  /** The residents that settling left in place and that are still in prefill, in running order. */
  ghost function Prefilling(y: Sys): seq<Id> {
    Filter(y.running, x => InPrefill(y, x))
  }

  lemma MidIs(w: World, c: Config, cache: seq<seq<KV>>, y: Sys, mid: seq<Id>, dec: seq<Id>)
    requires SysInv(w, c, cache, y, []) && Candidates(c, y, mid, dec, |dec|)
    ensures mid == Prefilling(y) && (forall x :: x in mid ==> x in y.running) && forall i :: 0 <= i < |mid| ==> InPrefill(y, mid[i])
  {
    hide SysInv, IsSub, Placed, NoDup;
    RunningNoDup(w, c, cache, y);
    SubMembers(mid, y.running);
    LineNoDup(w, c, cache, y);
    forall x ensures x in mid <==> x in y.running && InPrefill(y, x) {
    }
    SubIsFilter(mid, y.running, x => InPrefill(y, x));
  }

  /**
   The layout of a step: `p` chunks for the residents in prefill, in running order and one for each unless they spend
   the budget; then up to `q` one chunk for each newly admitted sequence; then decode tokens, for which room was kept.
   */
  ghost predicate LaidOut(c: Config, y0: Sys, y: Sys, slices: seq<Slice>, p: nat, q: nat) {
    var mid := Prefilling(y0);
    && p <= |mid| && p <= q <= |slices| && y0.running <= y.running && q - p == |y.running| - |y0.running|
    && (forall k: nat :: k < p ==> slices[k].id == mid[k] && ChunkAt(c, y, slices, k, 0))
    && (p < |mid| ==> TotalLen(slices[..p]) == c.maxBatchedTokens)
    && (forall k: nat :: p <= k < q ==> slices[k].id == y.running[|y0.running| + k - p] && ChunkAt(c, y, slices, k, |slices| - q))
    && (forall k: nat :: q <= k < |slices| ==> !slices[k].isPrefill && slices[k].len == 1)
  }

  lemma LayOut(c: Config, y1: Sys, y2: Sys, y3: Sys, mid: seq<Id>, slices1: seq<Slice>, left: int, slices3: seq<Slice>, left3: int, slices: seq<Slice>, reserved: nat)
    requires mid == Prefilling(y1) && (forall x :: x in mid ==> x in y1.running && x in y1.seqs) && SameResidents(y1, y3) && y2.running == y1.running
    requires ChunkRun(c, y1, mid, 0, [], slices1, left) && JoinRun(c, y2, y3, slices1, slices3, reserved, left3)
    requires slices3 <= slices && |slices| == |slices3| + reserved
    requires forall k :: |slices3| <= k < |slices| ==> !slices[k].isPrefill && slices[k].len == 1
    ensures LaidOut(c, y1, y3, slices, |slices1|, |slices3|)
  {
    hide TotalLen, ChunkAt, Filter;
    forall k: nat | k < |slices1| ensures slices[k].id == mid[k] && ChunkAt(c, y3, slices, k, 0) {
      assert slices1[k].id in mid;
      ChunkGrows(c, y1, y3, slices1, slices, k, 0);
    }
    forall k: nat | |slices1| <= k < |slices3| ensures slices[k].id == y3.running[|y1.running| + k - |slices1|] && ChunkAt(c, y3, slices, k, reserved) {
      ChunkGrows(c, y3, y3, slices3, slices, k, reserved);
    }
    assert slices[..|slices1|] == slices1;
  }

  lemma ScheduleLaysOut(w: World, c: Config, cache: seq<seq<KV>>, y: Sys, late: set<Id>) returns (p: nat, q: nat)
    requires ValidConfig(c.kv) && Inv(w, c, cache, y)
    ensures LaidOut(c, Settle(c, y).0, Schedule(c, y, late).0, Schedule(c, y, late).1.slices, p, q)
    ensures Schedule(c, y, late).1.decodeTokens == |Schedule(c, y, late).1.slices| - q
  {
    hide SysInv, Candidates, Building, SameResidents, NewSlices, IdsIn, TotalLen, ChunkAt, ChunkRun, JoinRun, LaidOut, Prefilling,
      Settle, PrefillSlices, ExpireQueue, Admissions, DecodeSlices, Schedule;
    ScheduleIs(c, y, late);
    SettleKeeps(w, c, cache, y);
    SettleShrinks(c, y);
    PolicyOk(w, c, cache, y);
    var (y1, mid, dec0) := Settle(c, y);
    EmptyBuilding(c, y1);
    NoIds(mid);
    MidIs(w, c, cache, y1, mid, dec0);
    NoLength();
    PrefillSlicesOk(w, c, cache, y1, mid, dec0, 0, EmptyStep, c.maxBatchedTokens);
    PrefillChunks(c, y1, mid, 0, EmptyStep, c.maxBatchedTokens);
    var (step1, budget1) := PrefillSlices(c, y1, mid, 0, EmptyStep, c.maxBatchedTokens);
    RunLeft(c, y1, mid, 0, [], step1.slices, budget1);
    var dec := Truncated(dec0, budget1);
    var y2 := ExpireQueue(c, y1, late);
    ExpireKeeps(w, c, cache, y1, late);
    BuildingFrame(c, y1, y2, step1);
    p := |step1.slices|;
    NoDecodes(c, y1, step1);
    if c.continuous || y.batchOpen || y.running == [] {
      AdmissionsKeep(w, c, cache, y2, dec, step1, budget1 - |dec|);
      AdmissionsChunks(w, c, cache, y2, dec, step1, budget1 - |dec|);
      var (y3, step3) := Admissions(c, y2, dec, step1, budget1 - |dec|);
      SameResidentsTrans(y1, y2, y3);
      NoDecodes(c, y3, step3);
      DecodesFollow(y3, dec, 0, step3);
      q := |step3.slices|;
      LayOut(c, y1, y2, y3, mid, step1.slices, budget1, step3.slices, c.maxBatchedTokens - TotalLen(step3.slices) - |dec|, DecodeSlices(y3, dec, 0, step3).slices, |dec|);
    } else {
      JoinNone(c, y2, step1.slices, |dec|);
      DecodesFollow(y2, dec, 0, step1);
      q := |step1.slices|;
      LayOut(c, y1, y2, y2, mid, step1.slices, budget1, step1.slices, c.maxBatchedTokens - TotalLen(step1.slices) - |dec|, DecodeSlices(y2, dec, 0, step1).slices, |dec|);
    }
  }

  lemma NoDecodes(c: Config, y: Sys, step: Step)
    requires Building(c, y, step)
    ensures step.decodeTokens == 0
  {
    hide GoodSlices, TotalLen, NumLogits;
  }

  lemma NoLength()
    ensures TotalLen([]) == 0
  {
  }

  lemma RunLeft(c: Config, y: Sys, ids: seq<Id>, j: nat, slices: seq<Slice>, slices1: seq<Slice>, left: int)
    requires ChunkRun(c, y, ids, j, slices, slices1, left)
    ensures 0 <= left == c.maxBatchedTokens - TotalLen(slices1)
  {
    hide TotalLen, ChunkAt;
  }

  /** In every reachable state the step is laid out like that, and no slice is longer than the chunk size. */
  lemma ChunksExactly(w: World, c: Config, cache: seq<seq<KV>>, inputs: seq<Input>, m: Machine, late: set<Id>) returns (p: nat, q: nat)
    requires Reached(w, c, cache, inputs, m)
    ensures ValidConfig(c.kv)
    ensures var (y, step) := Schedule(c, m.sys, late);
            && LaidOut(c, Settle(c, m.sys).0, y, step.slices, p, q) && step.decodeTokens == |step.slices| - q
            && forall k :: 0 <= k < |step.slices| ==> step.slices[k].len <= c.prefillChunk
  {
    hide Reached, SysInv, Books, Schedule, Settle, TotalLen, Prefilling;
    ReachedInv(w, c, cache, inputs, m);
    ConfigOf(w, c, m.cache, m.sys, []);
    PolicyOk(w, c, m.cache, m.sys);
    p, q := ScheduleLaysOut(w, c, m.cache, m.sys, late);
    var (y, step) := Schedule(c, m.sys, late);
    forall k: nat | k < |step.slices| ensures step.slices[k].len <= c.prefillChunk {
      assert k < p ==> ChunkAt(c, y, step.slices, k, 0);
      assert p <= k < q ==> ChunkAt(c, y, step.slices, k, |step.slices| - q);
    }
  }
}
