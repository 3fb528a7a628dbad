/**
 How a step's token budget is shared: chunks of residents in prefill take theirs first, decoding residents
 get what is left, in running order.
 */
module Budget {
  import opened Lists
  import opened Paging
  import opened BlockPool
  import opened Requests
  import opened PrefixCache
  import opened PrefixTree
  import opened CacheOps
  import opened Network
  import opened Contents
  import opened Reference
  import opened Scheduling
  import opened Roles
  import opened Safety
  import opened Steps
  import opened Progressing
  import opened Ledger
  import opened Engine
  import opened Theorems
  import opened Drain

  /** What is left of the budget after the chunks of the residents in prefill. */
  function LeftForDecode(c: Config, y: Sys): int
    requires ValidConfig(c.kv)
  {
    var (y1, mid, dec) := Settle(c, y);
    c.maxBatchedTokens - TotalLen(PrefillSlices(c, y1, mid, 0, EmptyStep, c.maxBatchedTokens).0.slices)
  }

  /** The decoding residents that found a slot, in running order. */
  function Decoders(c: Config, y: Sys): seq<Id>
    requires ValidConfig(c.kv)
  {
    Settle(c, y).2
  }

  lemma BuildingTotal(c: Config, y: Sys, step: Step)
    requires Building(c, y, step)
    ensures step.prefillTokens == TotalLen(step.slices)
  {
    hide GoodSlices, TotalLen, NumLogits;
  }

  lemma NoDupOf(w: World, c: Config, cache: seq<seq<KV>>, y: Sys, mid: seq<Id>, dec: seq<Id>)
    requires SysInv(w, c, cache, y, []) && Candidates(c, y, mid, dec, |dec|)
    ensures NoDup(dec)
  {
    hide SysInv, IsSub;
    RunningNoDup(w, c, cache, y);
    SubNoDup(dec, y.running);
  }

  lemma NotInFront(c: Config, y: Sys, dec: seq<Id>, slices: seq<Slice>, k: nat)
    requires DecodeReady(c, y, dec, 0, slices) && k < |dec|
    ensures forall i :: 0 <= i < |slices| ==> slices[i].id != dec[k]
  {
    hide Placed;
    assert dec[0..] == dec && dec[k] in dec;
  }

  /** Decode slices follow in candidate order, so exactly the first ones get one. */
  lemma PrefixSliced(front: seq<Slice>, dec0: seq<Id>, dec: seq<Id>, slices: seq<Slice>, k: nat)
    requires StepSuffix(front, dec, slices) && dec <= dec0 && NoDup(dec0) && k < |dec0| && forall i :: 0 <= i < |front| ==> front[i].id != dec0[k]
    ensures Sliced(slices, dec0[k]) <==> k < |dec|
  {
    if k < |dec| {
      assert slices[|front| + k].id == dec[k];
    } else {
      forall i | 0 <= i < |slices| ensures slices[i].id != dec0[k] {
        if i >= |front| { assert slices[|front| + (i - |front|)].id == dec[i - |front|]; }
      }
    }
  }

  lemma DecodesSliced(w: World, c: Config, cache: seq<seq<KV>>, y: Sys, late: set<Id>, k: nat)
    requires ValidConfig(c.kv) && Inv(w, c, cache, y) && k < |Decoders(c, y)|
    ensures LeftForDecode(c, y) >= 0
    ensures Sliced(Schedule(c, y, late).1.slices, Decoders(c, y)[k]) <==> k < LeftForDecode(c, y)
  {
    hide SysInv, Candidates, Building, SameResidents, NewSlices, IdsIn, StepSuffix, Sliced, DecodeReady, NoDup, TotalLen,
      Settle, PrefillSlices, ExpireQueue, Admissions, DecodeSlices, Schedule;
    ScheduleIs(c, y, late);
    SettleKeeps(w, c, cache, y);
    SettleShrinks(c, y);
    var (y1, mid, dec0) := Settle(c, y);
    EmptyBuilding(c, y1);
    NoIds(mid);
    PrefillSlicesOk(w, c, cache, y1, mid, dec0, 0, EmptyStep, c.maxBatchedTokens);
    var (step1, budget1) := PrefillSlices(c, y1, mid, 0, EmptyStep, c.maxBatchedTokens);
    BuildingTotal(c, y1, step1);
    var dec := Truncated(dec0, budget1);
    var y2 := ExpireQueue(c, y1, late);
    ExpireKeeps(w, c, cache, y1, late);
    BuildingFrame(c, y1, y2, step1);
    NoNewSlices(y2, step1);
    SameStart(y2, y2);
    var y3, step3 := y2, step1;
    if c.continuous || y.batchOpen || y.running == [] {
      AdmissionsKeep(w, c, cache, y2, dec, step1, budget1 - |dec|);
      y3, step3 := Admissions(c, y2, dec, step1, budget1 - |dec|).0, Admissions(c, y2, dec, step1, budget1 - |dec|).1;
    }
    SameResidentsTrans(y1, y2, y3);
    NewSlicesSame(y1, y2, step1, step3);
    ReadyForDecode(w, c, cache, y1, y3, mid, dec0, dec0, step1, step3);
    NotInFront(c, y3, dec0, step3.slices, k);
    NoDupOf(w, c, cache, y1, mid, dec0);
    assert dec[0..] == dec;
    DecodeSuffix(y3, dec, 0, step3);
    PrefixSliced(step3.slices, dec0, dec, DecodeSlices(y3, dec, 0, step3).slices, k);
  }

  lemma NewSlicesSame(y: Sys, y1: Sys, step: Step, step1: Step)
    requires NewSlices(y1, step, step1) && y1.running == y.running
    ensures NewSlices(y, step, step1)
  {
  }

  /**
   In every reachable state the decoding residents share what the prefill chunks leave: the first ones in
   running order get their slice, so all of them do if and only if they are no more than that.
   */
  lemma DecodeGetsTheRest(w: World, c: Config, cache: seq<seq<KV>>, inputs: seq<Input>, m: Machine, late: set<Id>)
    requires Reached(w, c, cache, inputs, m)
    ensures ValidConfig(c.kv)
    ensures var dec := Decoders(c, m.sys); var slices := Schedule(c, m.sys, late).1.slices;
            && (forall k :: 0 <= k < |dec| ==> (Sliced(slices, dec[k]) <==> k < LeftForDecode(c, m.sys)))
            && ((forall x :: x in dec ==> Sliced(slices, x)) <==> (dec == [] || |dec| <= LeftForDecode(c, m.sys)))
  {
    hide Reached, SysInv, Books, Schedule, Decoders, LeftForDecode, Sliced;
    ReachedInv(w, c, cache, inputs, m);
    ConfigOf(w, c, m.cache, m.sys, []);
    var dec := Decoders(c, m.sys);
    forall k | 0 <= k < |dec| ensures Sliced(Schedule(c, m.sys, late).1.slices, dec[k]) <==> k < LeftForDecode(c, m.sys) {
      DecodesSliced(w, c, m.cache, m.sys, late, k);
    }
    if dec != [] {
      assert dec[|dec| - 1] in dec;
    }
  }

  /** Who the decoders are: every unfinished resident that settling left in place with one token to compute, in running order. */
  lemma DecodersAre(w: World, c: Config, cache: seq<seq<KV>>, inputs: seq<Input>, m: Machine, x: Id)
    requires Reached(w, c, cache, inputs, m)
    ensures ValidConfig(c.kv) && IsSub(Decoders(c, m.sys), Settle(c, m.sys).0.running)
    ensures var y1 := Settle(c, m.sys).0;
            x in Decoders(c, m.sys) <==> x in y1.running && x in y1.seqs && !IsFinished(y1.seqs[x]) && PrefillDone(y1.seqs[x])
  {
    hide Reached, SysInv, Books, Settle, IsSub, Placed;
    ReachedInv(w, c, cache, inputs, m);
    ConfigOf(w, c, m.cache, m.sys, []);
    SettleKeeps(w, c, m.cache, m.sys);
    SubMembers(Decoders(c, m.sys), Settle(c, m.sys).0.running);
  }
}
