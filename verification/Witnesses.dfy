/**
 Tools for runs that are worked out completely: a model that always samples the same token, the admission of
 a one-block request, and the steps of a run one input at a time.
 */
module Witnesses {
  import opened Lists
  import opened Paging
  import opened BlockPool
  import opened Requests
  import opened PrefixCache
  import opened PrefixTree
  import opened CacheOps
  import opened Network
  import opened Contents
  import opened Reference
  import opened Scheduling
  import opened Roles
  import opened Safety
  import opened Steps
  import opened Progressing
  import opened Ledger
  import opened Engine
  import opened Theorems
  import opened Fcfs
  import opened Admitting
  import opened Drain

  // ---- a model that samples 7 ----

  const Sevens: Net := Net(1, t => [], (l, p, x) => KV([], []), (l, p, x, h) => [], (s, v) => 7)

  function Params(max: int): SamplingParams {
    SamplingParams(max, 0.0, 1.0, 1, [], false)
  }

  function Blank(c: KvConfig): seq<seq<KV>> {
    [seq(Span(c.blockSize, c.numBlocks), i => KV([], []))]
  }

  function Seven(n: nat): (r: seq<Token>)
    ensures |r| == n && forall i :: 0 <= i < n ==> r[i] == 7
  {
    seq(n, i => 7)
  }

  lemma {:induction false} PicksSeven(xs: seq<Vec>, rows: seq<int>, params: seq<SamplingParams>, n: nat)
    requires n <= |rows| == |params|
    ensures PickRows(Sevens, xs, rows, params, n) == Seven(n)
  {
    if n > 0 {
      PicksSeven(xs, rows, params, n - 1);
    }
  }

  lemma SamplesSeven(c: KvConfig, cache: seq<seq<KV>>, works: seq<Work>)
    requires ValidConfig(c) && |cache| == 1 && forall i :: 0 <= i < |works| ==> WorkOk(works[i])
    ensures Forward(c, Sevens, cache, works).1 == Seven(|LogitRows(works)|)
  {
    hide RunLayers, LogitRows, LogitParams, PickRows, Flatten, Seven;
    FlattenOk(works);
    RowsMatch(works);
    var (cache1, xs) := RunLayers(c, Sevens, cache, Flatten(works), 1);
    PicksSeven(xs, LogitRows(works), LogitParams(works), |LogitRows(works)|);
  }

  /** A turn of the loop with that model. */
  lemma TickSevens(w: World, c: Config, cache: seq<seq<KV>>, inputs: seq<Input>, m: Machine, late: set<Id>)
    requires Reached(w, c, cache, inputs, m) && w.net == Sevens
    ensures ValidConfig(c.kv)
    ensures var (y, step) := Schedule(c, m.sys, late);
            TickOnce(c, w.net, m, late).sys == if step.slices == [] then y else OnStepDone(c, y, step, Seven(step.logits))
  {
    hide Reached, SysInv, Books, Schedule, StepValid, Forward, Works, OnStepDone, Applying, Samples, Distinct, LogitRows, NumLogits, Seven, WorkOk;
    ReachedInv(w, c, cache, inputs, m);
    ConfigOf(w, c, m.cache, m.sys, []);
    ScheduleKeeps(w, c, m.cache, m.sys, late);
    var (y, step) := Schedule(c, m.sys, late);
    ForwardReady(w, c, m.cache, y, step);
    SamplesSeven(c.kv, m.cache, Works(y.seqs, step.slices));
    NumLogitsRows(y.seqs, step.slices);
    StepLogits(c, y, step);
  }

  lemma StepLogits(c: Config, y: Sys, step: Step)
    requires StepValid(c, y, step)
    ensures step.logits == NumLogits(step.slices)
  {
    hide GoodSlices, TotalLen;
  }

  // ---- runs, one input at a time ----

  lemma RunSnoc(w: World, c: Config, m: Machine, inputs: seq<Input>, input: Input)
    requires ValidConfig(c.kv)
    ensures Run(c, w.net, m, inputs + [input]) == Apply(c, w.net, Run(c, w.net, m, inputs), input)
    ensures ValidRun(w, c, m, inputs + [input]) <==> ValidRun(w, c, m, inputs) && ValidInput(w, Run(c, w.net, m, inputs), input)
  {
    hide Apply, ValidInput;
    assert (inputs + [input])[..|inputs|] == inputs;
  }

  /** One more input to a reached machine. */
  lemma ReachSnoc(w: World, c: Config, cache: seq<seq<KV>>, inputs: seq<Input>, m: Machine, input: Input)
    requires Reached(w, c, cache, inputs, m) && ValidInput(w, m, input)
    ensures ValidConfig(c.kv) && Reached(w, c, cache, inputs + [input], Apply(c, w.net, m, input))
  {
    hide Apply, ValidInput, Run, ValidRun, Boot, NoCollision, Shape;
    RunSnoc(w, c, Boot(c, cache), inputs, input);
  }

  /** A turn of the loop from a reached machine, nobody late. */
  lemma ReachTick(w: World, c: Config, cache: seq<seq<KV>>, inputs: seq<Input>, m: Machine) returns (m1: Machine)
    requires Reached(w, c, cache, inputs, m) && w.net == Sevens
    ensures ValidConfig(c.kv) && Reached(w, c, cache, inputs + [Tick({})], m1) && m1 == TickOnce(c, w.net, m, {})
    ensures var (y, step) := Schedule(c, m.sys, {}); m1.sys == if step.slices == [] then y else OnStepDone(c, y, step, Seven(step.logits))
  {
    hide Reached, Schedule, OnStepDone, TickOnce, Seven;
    ReachSnoc(w, c, cache, inputs, m, Tick({}));
    TickSevens(w, c, cache, inputs, m, {});
    m1 := TickOnce(c, w.net, m, {});
  }

  lemma ReachBoot(w: World, c: Config, cache: seq<seq<KV>>)
    requires Sound(w, c, cache)
    ensures Reached(w, c, cache, [], Boot(c, cache))
  {
    hide Sound, Boot;
    SoundConfig(w, c, cache);
  }

  lemma SoundConfig(w: World, c: Config, cache: seq<seq<KV>>)
    requires Sound(w, c, cache)
    ensures ValidConfig(c.kv)
  {
  }

  // ---- seating a request that needs one block ----

  /** The request at position `k` gets the next free block, a place, and nothing from the prefix cache. */
  function Seat(y: Sys, k: nat): Sys
    requires k < |y.waiting| && y.pool.free != []
  {
    var id := y.waiting[k];
    var s := Lookup(y, id);
    var b := y.pool.free[|y.pool.free| - 1];
    y.(pool := Own(y.pool.(free := y.pool.free[..|y.pool.free| - 1]), b),
       seqs := y.seqs[id := s.(table := Table([b], [0], 0), computed := 0, status := Running)],
       waiting := RemoveAt(y.waiting, k), running := y.running + [id],
       stats := y.stats.(admitted := y.stats.admitted + 1, maxWait := Max(y.stats.maxWait, s.waitSteps)))
  }

  /** Needs exactly one block, none of it cached. */
  ghost predicate OneBlock(c: Config, y: Sys, id: Id)
    requires ValidConfig(c.kv)
  {
    && id in y.seqs && y.seqs[id].table == EmptyTable && y.seqs[id].tokens != [] && y.pool.free != []
    && BlocksNeeded(c.kv, |y.seqs[id].tokens|) == 1 && CachedBlocks(c.kv, y.pool, y.seqs[id].tokens) == 0
  }

  lemma AllocatesOne(c: KvConfig, p: Pool, toks: seq<Token>)
    requires ValidConfig(c) && p.free != [] && BlocksNeeded(c, |toks|) == 1 && CachedBlocks(c, p, toks) == 0
    ensures var b := p.free[|p.free| - 1];
            AllocatePrompt(c, p, toks) == (Own(p.(free := p.free[..|p.free| - 1]), b), Table([b], [0], 0), Some(0))
  {
    hide CachedBlocks, BlocksNeeded;
    var b := p.free[|p.free| - 1];
    assert LruHits(c, p, toks, 0) == 0 && AdoptHits(c, p, toks, 0) == (p, EmptyTable);
    TakesOne(p, EmptyTable);
    assert Append(EmptyTable, b, 0) == Table([b], [0], 0);
    assert Span(c.blockSize, 0) == 0;
  }

  /** One hit adopted, one block taken. */
  lemma AdoptsOne(c: KvConfig, p: Pool, toks: seq<Token>)
    ensures var b := HitBlock(c, p, toks, 0); AdoptHits(c, p, toks, 1) == (Share(p, b), Table([b], [Chain(c, toks, 1)], 1))
  {
    hide Chain, Share, HitBlock;
    assert AdoptHits(c, p, toks, 0) == (p, EmptyTable);
    var b := HitBlock(c, p, toks, 0);
    assert Append(EmptyTable, b, Chain(c, toks, 1)) == Table([b], [Chain(c, toks, 1)], 0);
  }

  lemma TakesOne(p: Pool, t: Table)
    requires p.free != []
    ensures TakeFresh(p, t, 0) == (p, t)
    ensures var b := p.free[|p.free| - 1]; TakeFresh(p, t, 1) == (Own(p.(free := p.free[..|p.free| - 1]), b), Append(t, b, 0))
  {
    assert TakeFresh(p, t, 0) == (p, t);
  }

  lemma SeatAt(c: Config, y: Sys, step: Step, budget: int, k: nat)
    requires ValidConfig(c.kv) && k < |y.waiting| && OneBlock(c, y, y.waiting[k]) && budget > 0 && c.prefillChunk >= 1
    ensures Adopt(c, y, y.waiting[k]).Some? && k < |Adopt(c, y, y.waiting[k]).value.waiting|
    ensures var id := y.waiting[k]; var s := y.seqs[id]; var len := Min(Min(|s.tokens|, budget), c.prefillChunk);
            Start(c, Adopt(c, y, id).value, step, budget, k) ==
            Admission(true, Seat(y, k), AddPrefill(step, id, s.(computed := 0), len), budget - len)
  {
    hide AllocatePrompt, CachedBlocks, BlocksNeeded;
    var id := y.waiting[k];
    AllocatesOne(c.kv, y.pool, y.seqs[id].tokens);
    var y1 := Adopt(c, y, id).value;
    assert y1.seqs[id := Lookup(y1, id).(status := Running)] == Seat(y, k).seqs;
  }

  /** The head is seated. */
  lemma SeatHead(c: Config, y: Sys, step: Step, budget: int)
    requires ValidConfig(c.kv) && y.waiting != [] && OneBlock(c, y, y.waiting[0]) && budget > 0 && |y.running| < c.maxNumSeqs && c.prefillChunk >= 1
    requires AdmissionFits(c, y, y.seqs[y.waiting[0]])
    ensures var id := y.waiting[0]; var s := y.seqs[id]; var len := Min(Min(|s.tokens|, budget), c.prefillChunk);
            AdmitOne(c, y, step, budget) == Admission(true, Seat(y, 0), AddPrefill(step, id, s.(computed := 0), len), budget - len)
  {
    hide Adopt, Start, Seat, AdmissionFits, OneBlock, AddPrefill, AdmitScan;
    SeatAt(c, y, step, budget, 0);
    OneBlockParts(c, y, y.waiting[0]);
    TakenAt(c, y, step, budget, 0, AdmitLimit(c, y));
    assert AdmitLimit(c, y) >= 1;
  }

  /** The scan admits a request that fits. */
  lemma TakenAt(c: Config, y: Sys, step: Step, budget: int, i: nat, limit: nat)
    requires ValidConfig(c.kv) && i < limit && i < |y.waiting| && Lookup(y, y.waiting[i]).table.blocks == []
    requires AdmissionFits(c, y, Lookup(y, y.waiting[i])) && Adopt(c, y, y.waiting[i]).Some? && i < |Adopt(c, y, y.waiting[i]).value.waiting|
    ensures AdmitScan(c, y, step, budget, i, limit) == Start(c, Adopt(c, y, y.waiting[i]).value, step, budget, i)
  {
    hide Adopt, Start, AdmissionFits;
  }

  lemma OneBlockParts(c: Config, y: Sys, id: Id)
    requires ValidConfig(c.kv) && OneBlock(c, y, id)
    ensures id in y.seqs && y.seqs[id].table.blocks == [] && y.pool.free != []
  {
  }

  // ---- applying slices without prefix caching ----

  /** Counting a slice as computed, with nothing to publish. */
  function Count(y: Sys, sl: Slice): Sys {
    var s := Lookup(y, sl.id);
    SetSeq(y, sl.id, s.(computed := s.computed + sl.len)).(executed := y.executed + sl.len)
  }

  lemma PlainAdvance(c: Config, y: Sys, sl: Slice)
    requires !c.kv.caching && sl.id in y.seqs
    ensures Advance(c, y, sl) == Count(y, sl)
  {
    var s := y.seqs[sl.id];
    assert CommitComputed(c.kv, y.pool, s.table, s.tokens, s.computed + sl.len) == (y.pool, s.table);
  }

  lemma PlainSlice(c: Config, g: Progress, sl: Slice, sampled: seq<Token>)
    requires !c.kv.caching && sl.id in g.sys.seqs && !IsFinished(g.sys.seqs[sl.id]) && (sl.needsLogits ==> g.used < |sampled|)
    ensures SliceDone(c, g, sl, sampled) ==
            if sl.needsLogits then Append1(c, Progress(Count(g.sys, sl), g.used + 1, g.done), sl.id, sampled[g.used])
            else Progress(Count(g.sys, sl), g.used, g.done)
  {
    hide Advance, Append1;
    PlainAdvance(c, g.sys, sl);
  }

  /** Two slices. */
  lemma TwoSlices(c: Config, g: Progress, a: Slice, b: Slice, sampled: seq<Token>)
    ensures SlicesDone(c, g, [a, b], 0, sampled) == SliceDone(c, SliceDone(c, g, a, sampled), b, sampled)
  {
    hide SliceDone;
    var g1 := SliceDone(c, g, a, sampled);
    var g2 := SliceDone(c, g1, b, sampled);
    assert SlicesDone(c, g2, [a, b], 2, sampled) == g2;
    assert SlicesDone(c, g1, [a, b], 1, sampled) == g2;
  }

  lemma OneSlice(c: Config, g: Progress, a: Slice, sampled: seq<Token>)
    ensures SlicesDone(c, g, [a], 0, sampled) == SliceDone(c, g, a, sampled)
  {
    hide SliceDone;
    var g1 := SliceDone(c, g, a, sampled);
    assert SlicesDone(c, g1, [a], 1, sampled) == g1;
  }

  /** `s` after waiting one more round. */
  function Bumped(s: Sequence): Sequence {
    s.(waitSteps := s.waitSteps + 1)
  }

  function BumpId(y: Sys, a: Id): Sys {
    y.(seqs := y.seqs[a := Bumped(Lookup(y, a))])
  }

  lemma BumpStep(y: Sys, j: nat)
    requires j < |y.waiting|
    ensures BumpWaits(y, j) == BumpWaits(BumpId(y, y.waiting[j]), j + 1) && BumpId(y, y.waiting[j]).waiting == y.waiting
  {
  }

  lemma BumpEnd(y: Sys)
    ensures BumpWaits(y, |y.waiting|) == y
  {
  }

  /** Waiting one round longer, for a queue of one, two or three. */
  lemma BumpOneOnly(y: Sys, a: Id)
    requires y.waiting == [a]
    ensures BumpWaits(y, 0) == BumpId(y, a)
  {
    hide BumpWaits, BumpId;
    BumpStep(y, 0);
    BumpEnd(BumpId(y, a));
  }

  lemma BumpTwo(y: Sys, a: Id, b: Id)
    requires y.waiting == [a, b]
    ensures BumpWaits(y, 0) == BumpId(BumpId(y, a), b)
  {
    hide BumpWaits, BumpId;
    BumpStep(y, 0);
    var y1 := BumpId(y, a);
    BumpStep(y1, 1);
    BumpEnd(BumpId(y1, b));
  }

  lemma BumpThree(y: Sys, a: Id, b: Id, d: Id)
    requires y.waiting == [a, b, d]
    ensures BumpWaits(y, 0) == BumpId(BumpId(BumpId(y, a), b), d)
  {
    hide BumpWaits, BumpId;
    BumpStep(y, 0);
    var y1 := BumpId(y, a);
    BumpStep(y1, 1);
    var y2 := BumpId(y1, b);
    BumpStep(y2, 2);
    BumpEnd(BumpId(y2, d));
  }

  /** A round with nobody resident and nobody late. */
  lemma FreshRound(c: Config, y: Sys)
    requires ValidConfig(c.kv) && y.running == []
    ensures var y1 := Started(c, y); var (y2, step, budget) := AdmitAll(c, BumpWaits(y1, 0), EmptyStep, c.maxBatchedTokens);
            Schedule(c, y, {}) == (RejectHead(c, CloseBatch(c, y2, budget), []), step)
  {
    hide Schedule, ExpireQueue, Punctual, AdmitAll, BumpWaits, RejectHead, CloseBatch;
    ScheduleIdle(c, y, {});
    var y1 := Started(c, y);
    NobodyLate(y1, y1.waiting);
    ExpireNothing(c, y1, {});
    AdmissionsAre(c, y1, [], EmptyStep, c.maxBatchedTokens);
  }
}
