/** Every step `schedule` emits is valid, and scheduling keeps the invariant. */
module Steps {
  import opened Lists
  import opened Paging
  import opened BlockPool
  import opened Requests
  import opened PrefixCache
  import opened PrefixTree
  import opened CacheOps
  import opened Network
  import opened Contents
  import opened Reference
  import opened Scheduling
  import opened Roles
  import opened Safety

  /** A slice of an unfinished resident: starts where its computation stands and stays within its tokens and blocks. */
  ghost predicate GoodSlice(c: Config, y: Sys, sl: Slice) {
    && sl.id in y.running && SliceOk(c.kv, y.seqs, sl) && !IsFinished(y.seqs[sl.id])
    && (sl.needsLogits <==> sl.start + sl.len == |y.seqs[sl.id].tokens|)
  }

  ghost predicate GoodSlices(c: Config, y: Sys, slices: seq<Slice>) {
    && (forall k :: 0 <= k < |slices| ==> GoodSlice(c, y, slices[k]))
    && (forall a, b :: 0 <= a < b < |slices| ==> slices[a].id != slices[b].id)
  }

  function TotalLen(slices: seq<Slice>): nat {
    if slices == [] then 0 else TotalLen(slices[..|slices| - 1]) + slices[|slices| - 1].len
  }

  /** A step while only prefill slices have been added. */
  ghost predicate Building(c: Config, y: Sys, step: Step) {
    && GoodSlices(c, y, step.slices) && (forall k :: 0 <= k < |step.slices| ==> step.slices[k].isPrefill)
    && step.prefillTokens == TotalLen(step.slices) && step.decodeTokens == 0 && step.logits == NumLogits(step.slices)
  }

  lemma GoodFrame(c: Config, y: Sys, y1: Sys, slices: seq<Slice>)
    requires GoodSlices(c, y, slices) && SameResidents(y, y1)
    ensures GoodSlices(c, y1, slices)
  {
    forall k | 0 <= k < |slices| ensures GoodSlice(c, y1, slices[k]) {
      assert GoodSlice(c, y, slices[k]);
      var i :| 0 <= i < |y.running| && y.running[i] == slices[k].id;
      assert y1.running[i] == slices[k].id;
    }
  }

  lemma BuildingFrame(c: Config, y: Sys, y1: Sys, step: Step)
    requires Building(c, y, step) && SameResidents(y, y1)
    ensures Building(c, y1, step)
  {
    hide GoodSlices, SameResidents;
    GoodFrame(c, y, y1, step.slices);
  }

  lemma AddSlice(c: Config, y: Sys, slices: seq<Slice>, sl: Slice)
    requires GoodSlices(c, y, slices) && GoodSlice(c, y, sl) && forall k :: 0 <= k < |slices| ==> slices[k].id != sl.id
    ensures GoodSlices(c, y, slices + [sl])
    ensures TotalLen(slices + [sl]) == TotalLen(slices) + sl.len
    ensures NumLogits(slices + [sl]) == NumLogits(slices) + if sl.needsLogits then 1 else 0
  {
    hide GoodSlice;
    assert (slices + [sl])[..|slices|] == slices;
  }

  lemma AddPrefillKeeps(c: Config, y: Sys, step: Step, id: Id, len: nat)
    requires Building(c, y, step) && id in y.running && id in y.seqs && !IsFinished(y.seqs[id]) && len > 0
    requires y.seqs[id].computed + len <= |y.seqs[id].tokens| <= Span(c.kv.blockSize, |y.seqs[id].table.blocks|)
    requires forall k :: 0 <= k < |step.slices| ==> step.slices[k].id != id
    ensures Building(c, y, AddPrefill(step, id, y.seqs[id], len))
    ensures AddPrefill(step, id, y.seqs[id], len).prefillTokens == step.prefillTokens + len
  {
    hide GoodSlices, TotalLen, NumLogits;
    var s := y.seqs[id];
    var sl := Slice(id, s.computed, len, s.computed + len == |s.tokens|, true);
    AddSlice(c, y, step.slices, sl);
  }

  // ---- prefill chunks of the residents ----

  ghost predicate IdsIn(slices: seq<Slice>, ids: seq<Id>) {
    forall k :: 0 <= k < |slices| ==> slices[k].id in ids
  }

  lemma MidFacts(w: World, c: Config, cache: seq<seq<KV>>, y: Sys, mid: seq<Id>, dec: seq<Id>, i: nat, x: Id)
    requires x in mid && SysInv(w, c, cache, y, []) && Candidates(c, y, mid, dec, i)
    ensures x in y.running && x in y.seqs && !IsFinished(y.seqs[x]) && Lookup(y, x) == y.seqs[x] && NoDup(mid)
    ensures y.seqs[x].computed + 1 < |y.seqs[x].tokens| <= Span(c.kv.blockSize, |y.seqs[x].table.blocks|)
  {
    hide KvOk, InPlay, Live, RefOf, IsSub, Span;
    SubMembers(mid, y.running);
    RunningNoDup(w, c, cache, y);
    SubNoDup(mid, y.running);
    InQueues(w, c, cache, y, [], x);
  }

  lemma {:induction false} PrefillSlicesOk(w: World, c: Config, cache: seq<seq<KV>>, y: Sys, mid: seq<Id>, dec: seq<Id>, j: nat, step: Step, budget: int)
    requires j <= |mid| && 0 <= budget && SysInv(w, c, cache, y, []) && Candidates(c, y, mid, dec, |dec|)
    requires Building(c, y, step) && IdsIn(step.slices, mid[..j])
    ensures var (step1, budget1) := PrefillSlices(c, y, mid, j, step, budget);
            && Building(c, y, step1) && IdsIn(step1.slices, mid) && 0 <= budget1 && step.slices <= step1.slices
            && step1.prefillTokens + budget1 == step.prefillTokens + budget
            && (j < |mid| && budget > 0 ==> |step1.slices| > |step.slices| && step1.slices[|step.slices|].id == mid[j])
    decreases |mid| - j
  {
    hide SysInv, Candidates, Building;
    if j < |mid| {
      MidFacts(w, c, cache, y, mid, dec, |dec|, mid[j]);
      PolicyOk(w, c, cache, y);
      var s := y.seqs[mid[j]];
      var len := ChunkLen(c, s, budget);
      NotIn(mid, j, step.slices);
      assert mid[..j + 1] == mid[..j] + [mid[j]];
      if len > 0 {
        AddPrefillKeeps(c, y, step, mid[j], len);
        PrefillSlicesOk(w, c, cache, y, mid, dec, j + 1, AddPrefill(step, mid[j], s, len), budget - len);
      } else {
        PrefillSlicesOk(w, c, cache, y, mid, dec, j + 1, step, budget);
      }
    } else {
      assert mid[..j] == mid;
    }
  }

  lemma NotIn(ids: seq<Id>, j: nat, slices: seq<Slice>)
    requires j < |ids| && NoDup(ids) && IdsIn(slices, ids[..j])
    ensures forall k :: 0 <= k < |slices| ==> slices[k].id != ids[j]
  {
  }

  lemma PolicyOk(w: World, c: Config, cache: seq<seq<KV>>, y: Sys)
    requires SysInv(w, c, cache, y, [])
    ensures ValidPolicy(c) && c.kv == w.c
  {
    hide KvOk, RolesInv;
  }

  // ---- admission ----

  /** Adopting cached blocks and starting the sequence at queue position `i`. */
  lemma AdmitAtKeeps(w: World, c: Config, cache: seq<seq<KV>>, y: Sys, step: Step, budget: int, i: nat)
    requires ValidConfig(c.kv) && i < |y.waiting| && budget > 0 && SysInv(w, c, cache, y, []) && Building(c, y, step)
    requires Adopt(c, y, y.waiting[i]).Some?
    ensures i < |Adopt(c, y, y.waiting[i]).value.waiting|
    ensures var r := Start(c, Adopt(c, y, y.waiting[i]).value, step, budget, i);
            && r.admitted && SysInv(w, c, cache, r.sys, []) && Building(c, r.sys, r.step) && SameResidents(y, r.sys)
            && 0 <= r.budget < budget && r.step.prefillTokens + r.budget == step.prefillTokens + budget
            && step.slices <= r.step.slices && AdmittedAt(y, step, r, i)
  {
    hide KvOk, RolesInv, RolesBut, AllocatePrompt, Building, RoleOk, SliceOk, Span, InPlay;
    var id := y.waiting[i];
    AdoptFacts(w, c, cache, y, id);
    var s := y.seqs[id];
    var y1 := Adopt(c, y, id).value;
    var s1 := y1.seqs[id].(status := Running);
    RemoveWaiting(w, c, cache, y, i);
    LeaveWaiting(w, c, cache, y, [], id);
    var r := Start(c, y1, step, budget, i);
    var q := Queues(RemoveAt(y.waiting, i), y.running, []);
    ChangeOut(w, c, y.seqs, q, id, s1);
    KvStatus(w, cache, y1.pool, y1.seqs, y1.order, id, s1);
    assert y1.seqs[id := s1] == y.seqs[id := s1];
    NotQueued(w, c, y.seqs[id := s1], q, id);
    InsertBack(y.running, id);
    PutRunning(w, c, y.seqs[id := s1], q, id, y.running + [id]);
    assert SysInv(w, c, cache, r.sys, []);
    assert SameResidents(y, r.sys);
    BuildingFrame(c, y, r.sys, step);
    FreshId(c, y, step, id);
    AddPrefillKeeps(c, r.sys, step, id, budget - r.budget);
  }

  lemma FreshId(c: Config, y: Sys, step: Step, id: Id)
    requires Building(c, y, step) && id !in y.running
    ensures forall k :: 0 <= k < |step.slices| ==> step.slices[k].id != id
  {
    forall k | 0 <= k < |step.slices| ensures step.slices[k].id != id {
      assert GoodSlice(c, y, step.slices[k]);
    }
  }

  lemma RemoveWaiting(w: World, c: Config, cache: seq<seq<KV>>, y: Sys, i: nat)
    requires i < |y.waiting| && SysInv(w, c, cache, y, [])
    ensures RemoveAt(y.waiting, i) == Without(y.waiting, y.waiting[i])
  {
    RunningNoDup(w, c, cache, y);
    RemoveAtIsWithout(y.waiting, i);
  }

  lemma KvStatus(w: World, cache: seq<seq<KV>>, p: Pool, seqs: map<Id, Sequence>, order: seq<Id>, id: Id, s: Sequence)
    requires id in seqs && s.table == seqs[id].table && s.tokens == seqs[id].tokens && s.computed == seqs[id].computed <= |s.tokens|
    requires KvOk(w, cache, p, seqs, order)
    ensures KvOk(w, cache, p, seqs[id := s], order)
  {
    hide *;
    OpenKv(w, cache, p, seqs, order);
    OpenCache(w.c, w.universe, p, seqs, order);
    InPlayOf(w.universe, seqs, id);
    KeptSame(w.c, seqs[id], s);
    KvSet(w, cache, p, seqs, order, id, s);
  }

  /** The sequence after adoption: a full table, something left to compute, and a resident's role once it runs. */
  lemma AdoptFacts(w: World, c: Config, cache: seq<seq<KV>>, y: Sys, id: Id)
    requires ValidConfig(c.kv) && id in y.waiting && SysInv(w, c, cache, y, []) && Adopt(c, y, id).Some?
    ensures id in y.seqs && id !in y.running
    ensures var y1 := Adopt(c, y, id).value; var s := y.seqs[id];
            && id in y1.seqs && y1 == y.(pool := y1.pool, seqs := y.seqs[id := y1.seqs[id]], adopted := y1.adopted)
            && KvOk(w, cache, y1.pool, y1.seqs, y1.order)
            && y1.seqs[id] == s.(table := y1.seqs[id].table, computed := y1.seqs[id].computed)
            && y1.seqs[id].computed < |s.tokens| <= Span(c.kv.blockSize, |y1.seqs[id].table.blocks|)
            && y1.adopted == y.adopted + y1.seqs[id].computed
            && RoleOk(w, c, y1.seqs[id].(status := Running), false, true, false)
  {
    hide *;
    InQueues(w, c, cache, y, [], id);
    InvParts(w, c, cache, y, []);
    var s := y.seqs[id];
    LookupIs(y, id);
    WaitingFacts(w, c, s, id in y.running, id in []);
    AdoptIs(c, y, id);
    var (p, t, r) := AllocatePrompt(c.kv, y.pool, s.tokens);
    var k := Min(r.value, |s.tokens| - 1);
    MinIs(r.value, |s.tokens| - 1);
    AdoptOk(w, cache, y.pool, y.seqs, y.order, id, k);
    OpenKv(w, cache, y.pool, y.seqs, y.order);
    AllocatePromptKeeps(w.c, w.universe, y.pool, y.seqs, y.order, id);
    AllocatedParts(w.c, w.universe, y.pool, y.seqs, y.order, id, p, t, CachedBlocks(c.kv, y.pool, s.tokens));
    EnoughBlocks(c.kv, |s.tokens|, |t.blocks|);
    RunRole(w, c, s, t, k);
  }

  lemma MinIs(a: int, b: int)
    ensures Min(a, b) == a || Min(a, b) == b
    ensures Min(a, b) <= a && Min(a, b) <= b
  {
  }

  lemma EnoughBlocks(c: KvConfig, n: nat, k: nat)
    requires ValidConfig(c) && k == BlocksNeeded(c, n)
    ensures n <= Span(c.blockSize, k)
  {
    BlocksForFits(c.blockSize, n, k);
  }

  lemma AdoptIs(c: Config, y: Sys, id: Id)
    requires ValidConfig(c.kv) && id in y.seqs
    ensures var s := y.seqs[id]; var (p, t, r) := AllocatePrompt(c.kv, y.pool, s.tokens); var m := |s.tokens| - 1;
            && (Adopt(c, y, id).Some? <==> r.Some? && Min(r.value, m) >= 0)
            && (Adopt(c, y, id).Some? ==>
                  var k := Min(r.value, m);
                  Adopt(c, y, id).value == y.(pool := p, seqs := y.seqs[id := s.(table := t, computed := k)], adopted := y.adopted + k))
  {
    hide AllocatePrompt;
  }

  lemma WaitingFacts(w: World, c: Config, s: Sequence, inRunning: bool, inDone: bool)
    requires RoleOk(w, c, s, true, inRunning, inDone)
    ensures !inRunning && !inDone && WellFormed(s) && s.table == EmptyTable && s.computed == 0 && s.tokens != [] && s.table.blocks == []
  {
  }

  lemma RunRole(w: World, c: Config, s: Sequence, t: Table, k: nat)
    requires RoleOk(w, c, s, true, false, false) && k < |s.tokens| <= Span(w.c.blockSize, |t.blocks|)
    ensures RoleOk(w, c, s.(table := t, computed := k).(status := Running), false, true, false)
  {
    hide InPlay, Continue;
  }

  /** What a successful or unsuccessful scan leaves behind. */
  ghost predicate ScanOk(w: World, c: Config, cache: seq<seq<KV>>, y: Sys, step: Step, budget: int, r: Admission) {
    && (!r.admitted ==> r.sys == y && r.step == step && r.budget == budget)
    && (r.admitted ==>
          && SysInv(w, c, cache, r.sys, []) && Building(c, r.sys, r.step) && SameResidents(y, r.sys)
          && 0 <= r.budget < budget && r.step.prefillTokens + r.budget == step.prefillTokens + budget
          && step.slices <= r.step.slices
          && (exists i :: 0 <= i < |y.waiting| && AdmittedAt(y, step, r, i)))
  }

  ghost predicate AdmittedAt(y: Sys, step: Step, r: Admission, i: nat)
    requires i < |y.waiting|
  {
    && r.sys.running == y.running + [y.waiting[i]] && r.sys.waiting == RemoveAt(y.waiting, i)
    && |r.step.slices| == |step.slices| + 1 && r.step.slices[|step.slices|].id == y.waiting[i]
  }

  lemma {:induction false} ScanKeeps(w: World, c: Config, cache: seq<seq<KV>>, y: Sys, step: Step, budget: int, i: nat, limit: nat)
    requires ValidConfig(c.kv) && budget > 0 && SysInv(w, c, cache, y, []) && Building(c, y, step)
    ensures ScanOk(w, c, cache, y, step, budget, AdmitScan(c, y, step, budget, i, limit))
    decreases limit - i
  {
    hide SysInv, Building, Adopt, AdmissionFits, Start, SameResidents;
    if i < limit && i < |y.waiting| {
      var id := y.waiting[i];
      WaitingEmpty(w, c, cache, y, id);
      if AdmissionFits(c, y, Lookup(y, id)) && Adopt(c, y, id).Some? {
        AdmitAtKeeps(w, c, cache, y, step, budget, i);
        assert AdmittedAt(y, step, AdmitScan(c, y, step, budget, i, limit), i);
      } else {
        ScanKeeps(w, c, cache, y, step, budget, i + 1, limit);
      }
    }
  }

  lemma WaitingEmpty(w: World, c: Config, cache: seq<seq<KV>>, y: Sys, id: Id)
    requires id in y.waiting && SysInv(w, c, cache, y, [])
    ensures id in y.seqs && Lookup(y, id).table.blocks == []
  {
    hide KvOk, Live, InPlay;
    InQueues(w, c, cache, y, [], id);
  }

  lemma {:induction false} AdmitAllKeeps(w: World, c: Config, cache: seq<seq<KV>>, y: Sys, step: Step, budget: int)
    requires ValidConfig(c.kv) && 0 <= budget && |y.running| <= c.maxNumSeqs && SysInv(w, c, cache, y, []) && Building(c, y, step)
    ensures var (y1, step1, budget1) := AdmitAll(c, y, step, budget);
            && SysInv(w, c, cache, y1, []) && Building(c, y1, step1) && SameResidents(y, y1)
            && 0 <= budget1 && step1.prefillTokens + budget1 == step.prefillTokens + budget && |y1.running| <= c.maxNumSeqs
            && NewSlices(y, step, step1)
    decreases |y.waiting|
  {
    hide SysInv, Building, AdmitScan;
    var r := AdmitOne(c, y, step, budget);
    if y.waiting != [] && budget > 0 && |y.running| < c.maxNumSeqs {
      ScanKeeps(w, c, cache, y, step, budget, 0, AdmitLimit(c, y));
    }
    if r.admitted {
      var i :| 0 <= i < |y.waiting| && AdmittedAt(y, step, r, i);
      WaitingNotRunning(w, c, cache, y, y.waiting[i]);
      AdmitAllKeeps(w, c, cache, r.sys, r.step, r.budget);
    }
  }

  /** Admission only appends slices, and only for sequences that were not resident. */
  ghost predicate NewSlices(y: Sys, step: Step, step1: Step) {
    step.slices <= step1.slices && forall k :: |step.slices| <= k < |step1.slices| ==> step1.slices[k].id !in y.running
  }

  lemma WaitingNotRunning(w: World, c: Config, cache: seq<seq<KV>>, y: Sys, id: Id)
    requires id in y.waiting && SysInv(w, c, cache, y, [])
    ensures id !in y.running
  {
    InQueues(w, c, cache, y, [], id);
  }

  lemma RejectKeeps(w: World, c: Config, cache: seq<seq<KV>>, y: Sys, dec: seq<Id>)
    requires SysInv(w, c, cache, y, [])
    ensures SysInv(w, c, cache, RejectHead(c, y, dec), []) && SameResidents(y, RejectHead(c, y, dec))
    ensures RejectHead(c, y, dec).running == y.running
  {
    hide SysInv, Retire;
    if y.waiting != [] && y.running == [] && dec == [] {
      var id := y.waiting[0];
      WaitingEmpty(w, c, cache, y, id);
      assert Without(y.waiting, id) == y.waiting[1..];
      RetireWaiting(w, c, cache, y, [], id, Abort);
      RetireFrame(c, y.(waiting := y.waiting[1..]), id, Abort);
    }
  }

  lemma AdmissionsKeep(w: World, c: Config, cache: seq<seq<KV>>, y: Sys, dec: seq<Id>, step: Step, budget: int)
    requires ValidConfig(c.kv) && 0 <= budget && |y.running| <= c.maxNumSeqs && SysInv(w, c, cache, y, []) && Building(c, y, step)
    ensures var (y1, step1) := Admissions(c, y, dec, step, budget);
            && SysInv(w, c, cache, y1, []) && Building(c, y1, step1) && SameResidents(y, y1)
            && step1.prefillTokens <= step.prefillTokens + budget && |y1.running| <= c.maxNumSeqs
            && NewSlices(y, step, step1)
  {
    hide SysInv, Building, AdmitAll, BumpWaits, RejectHead, SameResidents;
    var y0 := BumpWaits(y, 0);
    BumpKeeps(w, c, cache, y, 0);
    BuildingFrame(c, y, y0, step);
    AdmitAllKeeps(w, c, cache, y0, step, budget);
    var (y1, step1, budget1) := AdmitAll(c, y0, step, budget);
    var y2 := CloseBatch(c, y1, budget1);
    StatsOnly(w, c, cache, y1, y2, []);
    RejectKeeps(w, c, cache, y2, dec);
    var y3 := RejectHead(c, y2, dec);
    SameStart(y1, y2);
    SameResidentsTrans(y, y0, y1);
    SameResidentsTrans(y, y1, y2);
    SameResidentsTrans(y, y2, y3);
    SameResidentsTrans(y1, y2, y3);
    BuildingFrame(c, y1, y3, step1);
  }

  // ---- decode slices and the finished step ----

  /**
   A valid step: one slice per sequence, each of an unfinished resident, starting at its computed
   length, ending within its tokens and its blocks, with logits wanted exactly at the last token;
   prefill slices before decode slices, decode slices one token long; the counters are the sums.
   */
  ghost predicate StepValid(c: Config, y: Sys, step: Step) {
    && GoodSlices(c, y, step.slices)
    && (forall a, b :: 0 <= a < b < |step.slices| && step.slices[b].isPrefill ==> step.slices[a].isPrefill)
    && (forall k :: 0 <= k < |step.slices| && !step.slices[k].isPrefill ==> step.slices[k].len == 1 && step.slices[k].needsLogits)
    && step.prefillTokens + step.decodeTokens == TotalLen(step.slices)
    && step.logits == NumLogits(step.slices)
  }

  lemma BuildingIsValid(c: Config, y: Sys, step: Step)
    requires Building(c, y, step)
    ensures StepValid(c, y, step)
  {
    hide GoodSlices;
  }

  /** The decode candidates are placed residents with one token left to compute, none of which has a slice yet. */
  ghost predicate DecodeReady(c: Config, y: Sys, dec: seq<Id>, j: nat, slices: seq<Slice>) {
    && NoDup(dec)
    && (forall x :: x in dec ==> x in y.running && x in y.seqs && !IsFinished(y.seqs[x]) && y.seqs[x].computed + 1 == |y.seqs[x].tokens| && Placed(c, y, x))
    && (forall k :: 0 <= k < |slices| ==> slices[k].id !in dec[if j <= |dec| then j else |dec|..])
  }

  lemma {:induction false} DecodeSlicesOk(c: Config, y: Sys, dec: seq<Id>, j: nat, step: Step)
    requires j <= |dec| && StepValid(c, y, step) && DecodeReady(c, y, dec, j, step.slices)
    ensures var step1 := DecodeSlices(y, dec, j, step);
            && StepValid(c, y, step1) && step1.prefillTokens == step.prefillTokens && step1.decodeTokens == step.decodeTokens + |dec| - j
            && step.slices <= step1.slices && |step1.slices| == |step.slices| + |dec| - j
            && (forall k :: j <= k < |dec| ==> step1.slices[|step.slices| + k - j].id == dec[k])
    decreases |dec| - j
  {
    hide GoodSlices, TotalLen, NumLogits, Span;
    if j < |dec| {
      var id := dec[j];
      assert id in dec;
      var sl := Slice(id, Lookup(y, id).computed, 1, true, false);
      assert dec[j] in dec[j..];
      AddSlice(c, y, step.slices, sl);
      var step1 := step.(slices := step.slices + [sl], decodeTokens := step.decodeTokens + 1, logits := step.logits + 1);
      assert DecodeReady(c, y, dec, j + 1, step1.slices) by {
        assert forall x :: x in dec[j + 1..] ==> x in dec[j..] && x != id;
      }
      DecodeSlicesOk(c, y, dec, j + 1, step1);
    }
  }

  lemma {:induction false} PlaceShrinks(c: Config, y: Sys, mid: seq<Id>, dec: seq<Id>, i: nat)
    requires ValidConfig(c.kv)
    ensures |PlaceDecodes(c, y, mid, dec, i).0.running| <= |y.running|
    decreases |y.running|, |dec| - i
  {
    hide EnsureSlot, Evict, Without;
    if i < |dec| {
      var (y1, ok) := GrowFor(c, y, dec[i]);
      if ok {
        PlaceShrinks(c, y1, mid, dec, i + 1);
      } else if Victim(y1).Some? {
        PlaceShrinks(c, Evict(c, y1), Without(mid, Victim(y1).value), Without(dec, Victim(y1).value), i);
      } else {
        PlaceShrinks(c, y1, mid, RemoveAt(dec, i), i);
      }
    }
  }

  /** The invariant between engine steps. */
  ghost predicate Inv(w: World, c: Config, cache: seq<seq<KV>>, y: Sys) {
    SysInv(w, c, cache, y, []) && |y.running| <= c.maxNumSeqs
  }

  function Truncated(dec: seq<Id>, budget: int): seq<Id> {
    if |dec| > budget >= 0 then dec[..budget] else dec
  }

  lemma ReadyForDecode(w: World, c: Config, cache: seq<seq<KV>>, y: Sys, y1: Sys, mid: seq<Id>, dec0: seq<Id>, dec: seq<Id>, step: Step, step1: Step)
    requires SysInv(w, c, cache, y, []) && Candidates(c, y, mid, dec0, |dec0|) && SameResidents(y, y1) && dec <= dec0
    requires IdsIn(step.slices, mid) && NewSlices(y, step, step1)
    ensures DecodeReady(c, y1, dec, 0, step1.slices)
  {
    hide KvOk, InPlay, Live, IsSub, Span, RefOf;
    RunningNoDup(w, c, cache, y);
    SubNoDup(dec0, y.running);
    SubMembers(dec0, y.running);
    forall x | x in dec ensures x in dec0 && x in y1.running && x in y1.seqs && !IsFinished(y1.seqs[x]) && y1.seqs[x].computed + 1 == |y1.seqs[x].tokens| && Placed(c, y1, x) {
      var j :| 0 <= j < |dec| && dec[j] == x;
      assert dec0[j] == x && Placed(c, y, x);
      InQueues(w, c, cache, y, [], x);
      var i :| 0 <= i < |y.running| && y.running[i] == x;
      assert y1.running[i] == x;
    }
    forall k | 0 <= k < |step1.slices| ensures step1.slices[k].id !in dec[0..] {
      if k < |step.slices| {
        assert step.slices[k].id in mid;
      }
    }
  }

  lemma EmptyBuilding(c: Config, y: Sys)
    ensures Building(c, y, EmptyStep)
  {
  }

  /** The pieces of `Schedule`, named. */
  lemma ScheduleIs(c: Config, y: Sys, late: set<Id>)
    requires ValidConfig(c.kv)
    ensures var (y1, mid, dec0) := Settle(c, y);
            var (step1, budget1) := PrefillSlices(c, y1, mid, 0, EmptyStep, c.maxBatchedTokens);
            var dec := Truncated(dec0, budget1);
            var y2 := ExpireQueue(c, y1, late);
            var (y3, step3) := if c.continuous || y.batchOpen || y.running == [] then Admissions(c, y2, dec, step1, budget1 - |dec|) else (y2, step1);
            Schedule(c, y, late) == (y3, DecodeSlices(y3, dec, 0, step3))
  {
    hide Settle, PrefillSlices, ExpireQueue, Admissions, DecodeSlices;
  }

  /** `schedule` keeps the invariant and emits a valid step within the budget, whatever was evicted on the way. */
  lemma ScheduleKeeps(w: World, c: Config, cache: seq<seq<KV>>, y: Sys, late: set<Id>)
    requires ValidConfig(c.kv) && Inv(w, c, cache, y)
    ensures var (y1, step) := Schedule(c, y, late);
            && Inv(w, c, cache, y1) && StepValid(c, y1, step)
            && step.prefillTokens + step.decodeTokens <= c.maxBatchedTokens
  {
    hide SysInv, Candidates, Building, StepValid, SameResidents, DecodeReady, NewSlices, IdsIn,
      Settle, PrefillSlices, ExpireQueue, Admissions, DecodeSlices, Schedule;
    ScheduleIs(c, y, late);
    SettleKeeps(w, c, cache, y);
    SettleShrinks(c, y);
    var (y1, mid, dec0) := Settle(c, y);
    EmptyBuilding(c, y1);
    NoIds(mid);
    PrefillSlicesOk(w, c, cache, y1, mid, dec0, 0, EmptyStep, c.maxBatchedTokens);
    var (step1, budget1) := PrefillSlices(c, y1, mid, 0, EmptyStep, c.maxBatchedTokens);
    var dec := Truncated(dec0, budget1);
    var y2 := ExpireQueue(c, y1, late);
    ExpireKeeps(w, c, cache, y1, late);
    BuildingFrame(c, y1, y2, step1);
    NoNewSlices(y2, step1);
    if c.continuous || y.batchOpen || y.running == [] {
      AdmissionsKeep(w, c, cache, y2, dec, step1, budget1 - |dec|);
      var (y3, step3) := Admissions(c, y2, dec, step1, budget1 - |dec|);
      SameResidentsTrans(y1, y2, y3);
      FinishStep(w, c, cache, y1, y2, y3, mid, dec0, dec, step1, step3);
    } else {
      SameStart(y2, y2);
      FinishStep(w, c, cache, y1, y2, y2, mid, dec0, dec, step1, step1);
    }
  }

  lemma SettleShrinks(c: Config, y: Sys)
    requires ValidConfig(c.kv)
    ensures |Settle(c, y).0.running| <= |y.running|
  {
    hide PlaceDecodes;
    var y0 := Started(c, y);
    PlaceShrinks(c, y0, MidPrefill(y0, y0.running), Decoding(y0, y0.running), 0);
  }

  lemma NoIds(mid: seq<Id>)
    ensures IdsIn(EmptyStep.slices, mid[..0]) && EmptyStep.prefillTokens == 0 && EmptyStep.slices == []
  {
  }

  lemma NoNewSlices(y: Sys, step: Step)
    ensures NewSlices(y, step, step)
  {
  }

  lemma FinishStep(w: World, c: Config, cache: seq<seq<KV>>, y1: Sys, y2: Sys, y3: Sys, mid: seq<Id>, dec0: seq<Id>, dec: seq<Id>, step1: Step, step3: Step)
    requires SysInv(w, c, cache, y1, []) && Candidates(c, y1, mid, dec0, |dec0|) && SameResidents(y1, y3) && dec <= dec0
    requires y2.running == y1.running && IdsIn(step1.slices, mid) && NewSlices(y2, step1, step3) && Building(c, y3, step3)
    ensures StepValid(c, y3, DecodeSlices(y3, dec, 0, step3))
    ensures DecodeSlices(y3, dec, 0, step3).prefillTokens == step3.prefillTokens
    ensures DecodeSlices(y3, dec, 0, step3).decodeTokens == |dec|
  {
    hide SysInv, Candidates, SameResidents, DecodeReady, DecodeSlices, StepValid, GoodSlices, IdsIn;
    ReadyForDecode(w, c, cache, y1, y3, mid, dec0, dec, step1, step3);
    BuildingIsValid(c, y3, step3);
    DecodeSlicesOk(c, y3, dec, 0, step3);
  }
}
