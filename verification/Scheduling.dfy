/**
 The iteration-level scheduler as functions on its state: admission, chunked prefill, preemption,
 retirement, in continuous and in static mode. `Scheduler.dfy` proves that the imperative
 scheduler computes exactly these functions.
 */
module Scheduling {
  import opened Lists
  import opened Paging
  import opened BlockPool
  import opened Requests

  datatype Config = Config(
    kv: KvConfig,
    continuous: bool,
    maxNumSeqs: nat,          // resident sequences
    maxBatchedTokens: nat,    // token budget of a step
    prefillChunk: nat,
    lookahead: int,           // 0 or 1 is strict first come, first served
    starvationSteps: int,
    watermark: int)           // negative: one block per resident sequence

  predicate ValidPolicy(c: Config) {
    ValidConfig(c.kv) && c.maxNumSeqs >= 1 && c.maxBatchedTokens >= 1 && c.prefillChunk >= 1
  }

  datatype Stats = Stats(steps: nat, preemptions: nat, admitted: nat, finished: nat, timedOut: nat, recomputed: nat, maxWait: int)

  /** Callbacks in the order they are made. */
  datatype Event = Emitted(id: Id, token: Token) | Ended(id: Id, reason: Finish)

  /**
   The scheduler's fields and the cache manager's. Sequences live in `seqs`, keyed by identity.
   `order` (every request ever added, in arrival order), `log`, `executed` and `adopted` are
   history, not program state.
   */
  datatype Sys = Sys(
    pool: Pool,
    seqs: map<Id, Sequence>,
    waiting: seq<Id>,
    running: seq<Id>,
    batchOpen: bool,
    stats: Stats,
    order: seq<Id>,
    log: seq<Event>,
    executed: nat,      // slice tokens run
    adopted: nat)       // tokens taken over from the prefix cache at admission

  datatype Step = Step(slices: seq<Slice>, prefillTokens: nat, decodeTokens: nat, logits: nat)

  const EmptyStep := Step([], 0, 0, 0)

  const NoSequence := Sequence([], 0, 0, EmptyTable, SamplingParams(0, 0.0, 0.0, 0, [], false), Finished, NoFinish, 0, 0)

  function Lookup(y: Sys, id: Id): Sequence {
    if id in y.seqs then y.seqs[id] else NoSequence
  }

  function SetSeq(y: Sys, id: Id, s: Sequence): Sys {
    y.(seqs := y.seqs[id := s])
  }

  function RemoveAt<T>(s: seq<T>, i: nat): seq<T>
    requires i < |s|
  {
    s[..i] + s[i + 1..]
  }

  function Min(a: int, b: int): int {
    if a <= b then a else b
  }

  function Max(a: int, b: int): int {
    if a >= b then a else b
  }

  // ---- add, retire, abort ----

  function NewSequence(prompt: seq<Token>, params: SamplingParams): Sequence {
    Sequence(prompt, |prompt|, 0, EmptyTable, params, Waiting, NoFinish, 0, 0)
  }

  function Add(y: Sys, id: Id, prompt: seq<Token>, params: SamplingParams): Sys {
    y.(seqs := y.seqs[id := NewSequence(prompt, params)], waiting := y.waiting + [id], order := y.order + [id])
  }

  /** Give the sequence's blocks back. */
  function Drop(c: Config, y: Sys, id: Id): Sys {
    var s := Lookup(y, id);
    SetSeq(y, id, s.(table := EmptyTable)).(pool := Free(c.kv, y.pool, s.table))
  }

  function Retire(c: Config, y: Sys, id: Id, r: Finish): Sys {
    var y1 := Drop(c, y, id);
    SetSeq(y1, id, Lookup(y1, id).(status := Finished, finish := r))
      .(stats := y1.stats.(finished := y1.stats.finished + 1), log := y1.log + [Ended(id, r)])
  }

  function AbortRequest(c: Config, y: Sys, id: Id): Sys {
    if id in y.waiting then Retire(c, y.(waiting := Without(y.waiting, id)), id, Abort)
    else if id in y.running then Retire(c, y.(running := Without(y.running, id)), id, Abort)
    else y
  }

  // ---- making room ----

  /** The position of the last finished resident before position `n`, if any. */
  function LastFinished(y: Sys, n: nat): (r: Option<nat>)
    requires n <= |y.running|
    ensures r.Some? ==> r.value < n && IsFinished(Lookup(y, y.running[r.value]))
    ensures r.None? ==> forall i :: 0 <= i < n ==> !IsFinished(Lookup(y, y.running[i]))
  {
    if n == 0 then None
    else if IsFinished(Lookup(y, y.running[n - 1])) then Some(n - 1)
    else LastFinished(y, n - 1)
  }

  function ReleaseFinished(c: Config, y: Sys, i: nat): Sys
    requires i < |y.running|
  {
    var y1 := Drop(c, y.(running := RemoveAt(y.running, i)), y.running[i]);
    y1.(stats := y1.stats.(finished := y1.stats.finished + 1))
  }

  function PreemptYoungest(c: Config, y: Sys): Sys
    requires y.running != []
  {
    var id := y.running[|y.running| - 1];
    var y1 := Drop(c, y.(running := y.running[..|y.running| - 1]), id);
    var s := Lookup(y1, id);
    SetSeq(y1, id, s.(computed := 0, preemptions := s.preemptions + 1, status := Waiting))
      .(waiting := [id] + y1.waiting,
        stats := y1.stats.(recomputed := y1.stats.recomputed + s.computed, preemptions := y1.stats.preemptions + 1))
  }

  /** The victim, if anyone can be evicted. */
  function Victim(y: Sys): Option<Id> {
    match LastFinished(y, |y.running|)
    case Some(i) => Some(y.running[i])
    case None => if y.running != [] then Some(y.running[|y.running| - 1]) else None
  }

  function Evict(c: Config, y: Sys): (r: Sys)
    ensures y.running != [] ==> |r.running| == |y.running| - 1
  {
    match LastFinished(y, |y.running|)
    case Some(i) => ReleaseFinished(c, y, i)
    case None => if y.running != [] then PreemptYoungest(c, y) else y
  }

  /** Residents still in prefill, and residents that decode, in running order. */
  function MidPrefill(y: Sys, ids: seq<Id>): seq<Id> {
    if ids == [] then []
    else
      var s := Lookup(y, ids[|ids| - 1]);
      MidPrefill(y, ids[..|ids| - 1]) + if !IsFinished(s) && !PrefillDone(s) then [ids[|ids| - 1]] else []
  }

  function Decoding(y: Sys, ids: seq<Id>): seq<Id> {
    if ids == [] then []
    else
      var s := Lookup(y, ids[|ids| - 1]);
      Decoding(y, ids[..|ids| - 1]) + if !IsFinished(s) && PrefillDone(s) then [ids[|ids| - 1]] else []
  }

  function GrowFor(c: Config, y: Sys, id: Id): (Sys, bool)
    requires ValidConfig(c.kv)
  {
    var s := Lookup(y, id);
    var (p, t, ok) := EnsureSlot(c.kv, y.pool, s.table, |s.tokens|);
    (SetSeq(y, id, s.(table := t)).(pool := p), ok)
  }

  /** Find a slot for every decoding sequence from position `i` on, evicting as needed. */
  function PlaceDecodes(c: Config, y: Sys, mid: seq<Id>, dec: seq<Id>, i: nat): (Sys, seq<Id>, seq<Id>)
    requires ValidConfig(c.kv)
    decreases |y.running|, |dec| - i
  {
    if i >= |dec| then (y, mid, dec)
    else
      var (y1, ok) := GrowFor(c, y, dec[i]);
      if ok then PlaceDecodes(c, y1, mid, dec, i + 1)
      else match Victim(y1)
        case Some(v) => PlaceDecodes(c, Evict(c, y1), Without(mid, v), Without(dec, v), i)
        case None => PlaceDecodes(c, y1, mid, RemoveAt(dec, i), i)
  }

  // ---- building slices ----

  function AddPrefill(step: Step, id: Id, s: Sequence, len: nat): Step {
    var logits := s.computed + len == |s.tokens|;
    Step(step.slices + [Slice(id, s.computed, len, logits, true)], step.prefillTokens + len, step.decodeTokens,
         step.logits + if logits then 1 else 0)
  }

  function ChunkLen(c: Config, s: Sequence, budget: int): int {
    Min(Min(|s.tokens| - s.computed, budget), c.prefillChunk)
  }

  /** Prefill chunks for `mid[j..]`. */
  function PrefillSlices(c: Config, y: Sys, mid: seq<Id>, j: nat, step: Step, budget: int): (Step, int)
    decreases |mid| - j
  {
    if j >= |mid| then (step, budget)
    else
      var s := Lookup(y, mid[j]);
      var len := ChunkLen(c, s, budget);
      if len > 0 then PrefillSlices(c, y, mid, j + 1, AddPrefill(step, mid[j], s, len), budget - len)
      else PrefillSlices(c, y, mid, j + 1, step, budget)
  }

  function DecodeSlices(y: Sys, dec: seq<Id>, j: nat, step: Step): Step
    decreases |dec| - j
  {
    if j >= |dec| then step
    else
      DecodeSlices(y, dec, j + 1,
                   step.(slices := step.slices + [Slice(dec[j], Lookup(y, dec[j]).computed, 1, true, false)],
                         decodeTokens := step.decodeTokens + 1, logits := step.logits + 1))
  }

  // ---- admission ----

  function Watermark(c: Config, y: Sys): int {
    if c.watermark >= 0 then c.watermark else |y.running|
  }

  predicate AdmissionFits(c: Config, y: Sys, s: Sequence)
    requires ValidConfig(c.kv)
  {
    Watermark(c, y) == 0 ||
    Available(y.pool) - (BlocksNeeded(c.kv, |s.tokens|) - CachedBlocks(c.kv, y.pool, s.tokens)) >= Watermark(c, y)
  }

  /** Allocate blocks for a waiting sequence; `None` when the pool cannot take it now. */
  function Adopt(c: Config, y: Sys, id: Id): Option<Sys>
    requires ValidConfig(c.kv)
  {
    var s := Lookup(y, id);
    match AllocatePrompt(c.kv, y.pool, s.tokens)
    case (p, t, None) => None
    case (p, t, Some(cached)) =>
      var computed := Min(cached, |s.tokens| - 1);
      if computed < 0 then None
      else Some(SetSeq(y, id, s.(table := t, computed := computed)).(pool := p, adopted := y.adopted + computed))
  }

  datatype Admission = Admission(admitted: bool, sys: Sys, step: Step, budget: int)

  /** The sequence at queue position `i` owns its blocks: give it a chunk and make it resident. */
  function Start(c: Config, y: Sys, step: Step, budget: int, i: nat): Admission
    requires i < |y.waiting|
  {
    var id := y.waiting[i];
    var s := Lookup(y, id);
    var len := ChunkLen(c, s, budget);
    if len <= 0 then Admission(false, y, step, budget)
    else
      Admission(true,
                SetSeq(y, id, s.(status := Running))
                  .(waiting := RemoveAt(y.waiting, i), running := y.running + [id],
                    stats := y.stats.(admitted := y.stats.admitted + 1, maxWait := Max(y.stats.maxWait, s.waitSteps))),
                AddPrefill(step, id, s, len), budget - len)
  }

  /** Scan queue positions `i .. limit` for something admissible; a starving request stops the scan. */
  function AdmitScan(c: Config, y: Sys, step: Step, budget: int, i: nat, limit: nat): Admission
    requires ValidConfig(c.kv)
    decreases limit - i
  {
    if i >= limit || i >= |y.waiting| then Admission(false, y, step, budget)
    else
      var id := y.waiting[i];
      var s := Lookup(y, id);
      if s.table.blocks != [] then Start(c, y, step, budget, i)
      else
        var next := if AdmissionFits(c, y, s) then Adopt(c, y, id) else None;
        match next
        case Some(y1) => Start(c, y1, step, budget, i)
        case None =>
          if s.waitSteps >= c.starvationSteps then Admission(false, y, step, budget)
          else AdmitScan(c, y, step, budget, i + 1, limit)
  }

  function AdmitLimit(c: Config, y: Sys): nat {
    if c.lookahead <= 1 then 1 else Min(|y.waiting|, c.lookahead)
  }

  function AdmitOne(c: Config, y: Sys, step: Step, budget: int): (r: Admission)
    requires ValidConfig(c.kv)
    ensures r.admitted ==> |r.sys.waiting| < |y.waiting|
  {
    if y.waiting == [] || budget <= 0 || |y.running| >= c.maxNumSeqs then Admission(false, y, step, budget)
    else
      ScanShrinks(c, y, step, budget, 0, AdmitLimit(c, y));
      AdmitScan(c, y, step, budget, 0, AdmitLimit(c, y))
  }

  lemma {:induction false} ScanShrinks(c: Config, y: Sys, step: Step, budget: int, i: nat, limit: nat)
    requires ValidConfig(c.kv)
    ensures var r := AdmitScan(c, y, step, budget, i, limit); r.admitted ==> |r.sys.waiting| == |y.waiting| - 1
    decreases limit - i
  {
    if i < limit && i < |y.waiting| && Lookup(y, y.waiting[i]).table.blocks == [] {
      ScanShrinks(c, y, step, budget, i + 1, limit);
    }
  }

  function AdmitAll(c: Config, y: Sys, step: Step, budget: int): (Sys, Step, int)
    requires ValidConfig(c.kv)
    decreases |y.waiting|
  {
    var r := AdmitOne(c, y, step, budget);
    if r.admitted then AdmitAll(c, r.sys, r.step, r.budget) else (r.sys, r.step, r.budget)
  }

  // ---- schedule ----

  predicate IsLate(y: Sys, late: set<Id>, id: Id) {
    id in late && Lookup(y, id).table.blocks == []
  }

  /** Queue members that are past their deadline, in queue order. */
  function Expired(y: Sys, ids: seq<Id>, late: set<Id>): seq<Id> {
    if ids == [] then []
    else
      var id := ids[|ids| - 1];
      Expired(y, ids[..|ids| - 1], late) + if IsLate(y, late, id) then [id] else []
  }

  function Punctual(y: Sys, ids: seq<Id>, late: set<Id>): seq<Id> {
    if ids == [] then []
    else
      var id := ids[|ids| - 1];
      Punctual(y, ids[..|ids| - 1], late) + if !IsLate(y, late, id) then [id] else []
  }

  function RetireLate(c: Config, y: Sys, ids: seq<Id>, j: nat): Sys
    decreases |ids| - j
  {
    if j >= |ids| then y
    else RetireLate(c, Retire(c, y.(stats := y.stats.(timedOut := y.stats.timedOut + 1)), ids[j], Timeout), ids, j + 1)
  }

  function ExpireQueue(c: Config, y: Sys, late: set<Id>): Sys {
    RetireLate(c, y.(waiting := Punctual(y, y.waiting, late)), Expired(y, y.waiting, late), 0)
  }

  function BumpWaits(y: Sys, j: nat): Sys
    decreases |y.waiting| - j
  {
    if j >= |y.waiting| then y
    else
      var s := Lookup(y, y.waiting[j]);
      BumpWaits(SetSeq(y, y.waiting[j], s.(waitSteps := s.waitSteps + 1)), j + 1)
  }

  /** Static mode: decide whether the batch is closed. */
  function CloseBatch(c: Config, y: Sys, budget: int): Sys {
    if !c.continuous && y.waiting != [] && (|y.running| >= c.maxNumSeqs || (budget > 0 && y.running != []))
    then y.(batchOpen := false) else y
  }

  /** Nothing is resident and the head still does not fit: reject it. */
  function RejectHead(c: Config, y: Sys, dec: seq<Id>): Sys {
    if y.waiting != [] && y.running == [] && dec == [] then Retire(c, y.(waiting := y.waiting[1..]), y.waiting[0], Abort)
    else y
  }

  function Admissions(c: Config, y: Sys, dec: seq<Id>, step: Step, budget: int): (Sys, Step)
    requires ValidConfig(c.kv)
  {
    var (y1, step1, budget1) := AdmitAll(c, BumpWaits(y, 0), step, budget);
    (RejectHead(c, CloseBatch(c, y1, budget1), dec), step1)
  }

  /** Count the step, reopen an empty static batch, and settle which residents keep their place. */
  function Settle(c: Config, y: Sys): (Sys, seq<Id>, seq<Id>)
    requires ValidConfig(c.kv)
  {
    var y0 := y.(stats := y.stats.(steps := y.stats.steps + 1), batchOpen := y.batchOpen || (!c.continuous && y.running == []));
    PlaceDecodes(c, y0, MidPrefill(y0, y0.running), Decoding(y0, y0.running), 0)
  }

  /** `late` is the set of requests past their deadline at this moment. */
  function Schedule(c: Config, y: Sys, late: set<Id>): (Sys, Step)
    requires ValidConfig(c.kv)
  {
    var mayAdmit := c.continuous || y.batchOpen || y.running == [];
    var (y1, mid, dec0) := Settle(c, y);
    var (step1, budget1) := PrefillSlices(c, y1, mid, 0, EmptyStep, c.maxBatchedTokens);
    var dec := if |dec0| > budget1 >= 0 then dec0[..budget1] else dec0;
    var y2 := ExpireQueue(c, y1, late);
    var (y3, step3) := if mayAdmit then Admissions(c, y2, dec, step1, budget1 - |dec|) else (y2, step1);
    (y3, DecodeSlices(y3, dec, 0, step3))
  }

  // ---- on_step_done ----

  function FinishOf(s: Sequence, tok: Token): Finish {
    if IsStop(s.params, tok) then Stop
    else if NumGenerated(s) >= s.params.maxTokens then Length
    else NoFinish
  }

  /** Count a slice as computed and publish the blocks it completed. */
  function Advance(c: Config, y: Sys, sl: Slice): Sys {
    var s := Lookup(y, sl.id);
    var (p, t) := CommitComputed(c.kv, y.pool, s.table, s.tokens, s.computed + sl.len);
    SetSeq(y, sl.id, s.(computed := s.computed + sl.len, table := t)).(pool := p, executed := y.executed + sl.len)
  }

  datatype Progress = Progress(sys: Sys, used: nat, done: seq<Id>)

  /** Append a sampled token, report it, and mark the sequence when that ends it. */
  function Append1(c: Config, g: Progress, id: Id, tok: Token): Progress {
    var y := g.sys;
    var s0 := Lookup(y, id);
    var s := s0.(tokens := s0.tokens + [tok]);
    var r := FinishOf(s, tok);
    var y1 := SetSeq(y, id, s).(log := if IsStop(s.params, tok) then y.log else y.log + [Emitted(id, tok)]);
    if r == NoFinish then Progress(y1, g.used, g.done)
    else if c.continuous then
      Progress(SetSeq(y1, id, s.(finish := r)).(running := Without(y1.running, id)), g.used, g.done + [id])
    else
      Progress(SetSeq(y1, id, s.(finish := r, status := Finished)).(log := y1.log + [Ended(id, r)]), g.used, g.done)
  }

  function SliceDone(c: Config, g: Progress, sl: Slice, sampled: seq<Token>): Progress {
    var y := Advance(c, g.sys, sl);
    if !sl.needsLogits then Progress(y, g.used, g.done)
    else
      var tok := if g.used < |sampled| then sampled[g.used] else 0;
      if IsFinished(Lookup(y, sl.id)) then Progress(y, g.used + 1, g.done)
      else Append1(c, Progress(y, g.used + 1, g.done), sl.id, tok)
  }

  function SlicesDone(c: Config, g: Progress, slices: seq<Slice>, j: nat, sampled: seq<Token>): Progress
    decreases |slices| - j
  {
    if j >= |slices| then g else SlicesDone(c, SliceDone(c, g, slices[j], sampled), slices, j + 1, sampled)
  }

  function RetireDone(c: Config, y: Sys, done: seq<Id>, j: nat): Sys
    decreases |done| - j
  {
    if j >= |done| then y else RetireDone(c, Retire(c, y, done[j], Lookup(y, done[j]).finish), done, j + 1)
  }

  predicate AllFinished(y: Sys) {
    forall i :: 0 <= i < |y.running| ==> IsFinished(Lookup(y, y.running[i]))
  }

  /** Static mode: the last member finished, so the whole batch is released. */
  function DrainBatch(c: Config, y: Sys, j: nat): Sys
    decreases |y.running| - j
  {
    if j >= |y.running| then y.(running := [], batchOpen := true)
    else
      var y1 := Drop(c, y, y.running[j]);
      DrainBatch(c, y1.(stats := y1.stats.(finished := y1.stats.finished + 1)), j + 1)
  }

  function OnStepDone(c: Config, y: Sys, step: Step, sampled: seq<Token>): Sys {
    var g := SlicesDone(c, Progress(y, 0, []), step.slices, 0, sampled);
    var y1 := RetireDone(c, g.sys, g.done, 0);
    if !c.continuous && y1.running != [] && AllFinished(y1) then DrainBatch(c, y1, 0) else y1
  }
}
