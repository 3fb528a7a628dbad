/**
 The engine loop: requests arrive, are cancelled, and steps run. The theorems are about every
 run, that is, every finite sequence of such inputs, under every configuration.
 */
module Engine {
  import opened Lists
  import opened Paging
  import opened BlockPool
  import opened Requests
  import opened PrefixCache
  import opened PrefixTree
  import opened CacheOps
  import opened Network
  import opened Contents
  import opened Reference
  import opened Scheduling
  import opened Roles
  import opened Safety
  import opened Steps
  import opened Progressing
  import opened Ledger

  datatype Machine = Machine(sys: Sys, cache: seq<seq<KV>>)

  /** `Tick(late)` is one turn of the loop; `late` are the requests past their deadline at that time. */
  datatype Input = Arrive(id: Id, prompt: seq<Token>, params: SamplingParams) | Cancel(id: Id) | Tick(late: set<Id>)

  predicate CanRun(net: Net, cache: seq<seq<KV>>, works: seq<Work>) {
    |cache| == net.layers && forall i :: 0 <= i < |works| ==> WorkOk(works[i])
  }

  /** schedule, then (unless the step is empty) forward, sample and apply. */
  function TickOnce(c: Config, net: Net, m: Machine, late: set<Id>): Machine
    requires ValidConfig(c.kv)
  {
    var (y, step) := Schedule(c, m.sys, late);
    var works := Works(y.seqs, step.slices);
    if step.slices == [] || !CanRun(net, m.cache, works) then Machine(y, m.cache)
    else
      var (cache, sampled) := Forward(c.kv, net, m.cache, works);
      Machine(OnStepDone(c, y, step, sampled), cache)
  }

  function Apply(c: Config, net: Net, m: Machine, input: Input): Machine
    requires ValidConfig(c.kv)
  {
    match input
    case Arrive(id, prompt, params) => m.(sys := Add(m.sys, id, prompt, params))
    case Cancel(id) => m.(sys := AbortRequest(c, m.sys, id))
    case Tick(late) => TickOnce(c, net, m, late)
  }

  function Run(c: Config, net: Net, m: Machine, inputs: seq<Input>): Machine
    requires ValidConfig(c.kv)
  {
    if inputs == [] then m else Apply(c, net, Run(c, net, m, inputs[..|inputs| - 1]), inputs[|inputs| - 1])
  }

  // ---- the initial state ----

  function Boot(c: Config, cache: seq<seq<KV>>): Machine {
    Machine(Sys(FreshPool(c.kv), map[], [], [], true, Stats(0, 0, 0, 0, 0, 0, 0), [], [], 0, 0), cache)
  }

  // ---- what an input must satisfy ----

  /**
   Ids are fresh, prompts non-empty, `max_tokens` positive, and the request's reference output
   belongs to the prefixes on which the hash is assumed not to collide. Anything may be cancelled
   and any set of requests may be late.
   */
  ghost predicate ValidInput(w: World, m: Machine, input: Input) {
    match input
    case Arrive(id, prompt, params) =>
      id !in m.sys.seqs && prompt != [] && params.maxTokens >= 1 && InPlay(w.universe, RefOutput(w.net, params, prompt))
    case Cancel(id) => true
    case Tick(late) => true
  }

  ghost predicate ValidRun(w: World, c: Config, m: Machine, inputs: seq<Input>)
    requires ValidConfig(c.kv)
  {
    inputs == [] ||
    (ValidRun(w, c, m, inputs[..|inputs| - 1]) && ValidInput(w, Run(c, w.net, m, inputs[..|inputs| - 1]), inputs[|inputs| - 1]))
  }

  /** What the clients asked for and which finished requests were cancelled again. */
  ghost function BriefAfter(m: Machine, brief: Brief, input: Input): Brief {
    match input
    case Arrive(id, prompt, params) => brief.(requests := brief.requests[id := Request(prompt, params)])
    case Cancel(id) => AfterCancel(m.sys, brief, id)
    case Tick(late) => brief
  }

  ghost function BriefOf(w: World, c: Config, m: Machine, inputs: seq<Input>): Brief
    requires ValidConfig(c.kv)
  {
    if inputs == [] then Brief(map[], multiset{})
    else BriefAfter(Run(c, w.net, m, inputs[..|inputs| - 1]), BriefOf(w, c, m, inputs[..|inputs| - 1]), inputs[|inputs| - 1])
  }

  // ---- the invariant of every run ----

  ghost predicate MachineInv(w: World, c: Config, m: Machine, brief: Brief) {
    Inv(w, c, m.cache, m.sys) && Books(m.sys, [], brief)
  }

  lemma BootInv(w: World, c: Config, cache: seq<seq<KV>>)
    requires c.kv == w.c && ValidPolicy(c) && NoCollision(w.c, w.universe) && Shape(w, cache)
    ensures MachineInv(w, c, Boot(c, cache), Brief(map[], multiset{}))
  {
    hide NoCollision, PoolInv;
    FreshPoolInv(c.kv);
    var y := Boot(c, cache).sys;
    assert Owned(y.seqs, y.order) == multiset{};
    assert LruOrder(w.c, y.pool) && Closed(w.c, y.pool) && LabelsInv(w.c, w.universe, y.pool);
  }

  /** A valid step can run, and its pass meets the contract that `on_step_done` relies on. */
  lemma ForwardReady(w: World, c: Config, cache: seq<seq<KV>>, y: Sys, step: Step)
    requires SysInv(w, c, cache, y, []) && StepValid(c, y, step)
    ensures ValidConfig(c.kv) && CanRun(w.net, cache, Works(y.seqs, step.slices))
    ensures var (cache1, sampled) := Forward(c.kv, w.net, cache, Works(y.seqs, step.slices));
            && Applying(w, c, cache1, y, step.slices, 0, Progress(y, 0, [])) && Distinct(step.slices)
            && Samples(w, y, step.slices, sampled)
  {
    hide KvOk, RolesInv, Forward, PassOk, Works, GoodSlice, SliceOk;
    forall k | 0 <= k < |step.slices| ensures SliceOk(c.kv, y.seqs, step.slices[k]) {
      GoodIsOk(c, y, step.slices[k]);
    }
    StepForward(w, cache, y.pool, y.seqs, y.order, step.slices);
    var (cache1, sampled) := Forward(c.kv, w.net, cache, Works(y.seqs, step.slices));
    PassParts(w, y.pool, y.seqs, y.order, step.slices, cache1, sampled);
    forall k | 0 <= k < |step.slices| ensures Waits(w, c, cache1, y, step.slices[k], y) {
      GoodIsOk(c, y, step.slices[k]);
    }
    forall m | 0 <= m < |step.slices| && step.slices[m].needsLogits ensures SampleAt(w, y, step.slices, sampled, m) {
      assert GoodSlice(c, y, step.slices[m]);
      SampleIs(w, c, y, step.slices, sampled, m);
    }
    assert step.slices[..0] == [];
  }

  lemma GoodIsOk(c: Config, y: Sys, sl: Slice)
    requires GoodSlice(c, y, sl)
    ensures SliceOk(c.kv, y.seqs, sl) && sl.id in y.seqs && sl.start == y.seqs[sl.id].computed
  {
  }

  lemma PassParts(w: World, p: Pool, seqs: map<Id, Sequence>, order: seq<Id>, slices: seq<Slice>, cache1: seq<seq<KV>>, sampled: seq<Token>)
    requires ValidConfig(w.c) && PassOk(w, p, seqs, order, slices, cache1, sampled)
    ensures KvOk(w, cache1, p, seqs, order)
    ensures forall k :: 0 <= k < |slices| ==>
              slices[k].id in seqs && SeqContent(w, cache1, seqs[slices[k].id].(computed := slices[k].start + slices[k].len))
    ensures forall m :: 0 <= m < |slices| && slices[m].needsLogits ==> SampledOk(w, seqs, slices, sampled, m)
  {
    hide KvOk, SeqContent, SampledOk, SlicesOk;
  }

  lemma SampleIs(w: World, c: Config, y: Sys, slices: seq<Slice>, sampled: seq<Token>, m: nat)
    requires m < |slices| && slices[m].needsLogits && GoodSlice(c, y, slices[m]) && SampledOk(w, y.seqs, slices, sampled, m)
    ensures SampleAt(w, y, slices, sampled, m)
  {
    var s := y.seqs[slices[m].id];
    assert s.tokens[..slices[m].start + slices[m].len] == s.tokens;
  }

  lemma {:induction false} SlicesShrink(c: Config, g: Progress, slices: seq<Slice>, j: nat, sampled: seq<Token>)
    ensures |SlicesDone(c, g, slices, j, sampled).sys.running| <= |g.sys.running|
    decreases |slices| - j
  {
    hide CommitComputed;
    if j < |slices| {
      WithoutShorter(g.sys.running, slices[j].id);
      SlicesShrink(c, SliceDone(c, g, slices[j], sampled), slices, j + 1, sampled);
    }
  }

  lemma {:induction false} WithoutShorter(s: seq<Id>, x: Id)
    ensures |Without(s, x)| <= |s|
  {
    if s != [] && s[0] != x {
      WithoutShorter(s[1..], x);
    }
  }

  lemma StepDoneInv(w: World, c: Config, cache: seq<seq<KV>>, y: Sys, step: Step, sampled: seq<Token>, brief: Brief)
    requires Applying(w, c, cache, y, step.slices, 0, Progress(y, 0, [])) && Distinct(step.slices) && Samples(w, y, step.slices, sampled)
    requires |y.running| <= c.maxNumSeqs && Books(y, [], brief)
    ensures MachineInv(w, c, Machine(OnStepDone(c, y, step, sampled), cache), brief)
  {
    hide SysInv, SlicesDone, RetireDone, DrainBatch, Samples, Distinct, Waits, Books;
    OnStepDoneKeeps(w, c, cache, y, step, sampled);
    OnStepDoneBooks(w, c, cache, y, step, sampled, brief);
    SlicesShrink(c, Progress(y, 0, []), step.slices, 0, sampled);
    SlicesDoneKeeps(w, c, cache, y, step.slices, 0, Progress(y, 0, []), sampled);
    var g := SlicesDone(c, Progress(y, 0, []), step.slices, 0, sampled);
    assert g.done[0..] == g.done;
    RetireDoneKeeps(w, c, cache, g.sys, g.done, 0);
    var y1 := RetireDone(c, g.sys, g.done, 0);
    if !c.continuous && y1.running != [] && AllFinished(y1) {
      assert y1.running[0..] == y1.running;
      assert y1.(running := y1.running[0..]) == y1;
      DrainKeeps(w, c, cache, y1, 0);
    }
  }

  lemma TickKeeps(w: World, c: Config, m: Machine, late: set<Id>, brief: Brief)
    requires ValidConfig(c.kv) && MachineInv(w, c, m, brief)
    ensures MachineInv(w, c, TickOnce(c, w.net, m, late), brief)
  {
    hide SysInv, Books, Schedule, Forward, OnStepDone, StepValid, Applying, Samples, Distinct, Works;
    ScheduleKeeps(w, c, m.cache, m.sys, late);
    ScheduleBooks(w, c, m.cache, m.sys, late, brief);
    var (y, step) := Schedule(c, m.sys, late);
    if step.slices != [] {
      ForwardReady(w, c, m.cache, y, step);
      var (cache, sampled) := Forward(c.kv, w.net, m.cache, Works(y.seqs, step.slices));
      StepDoneInv(w, c, cache, y, step, sampled, brief);
    }
  }

  lemma AbortShrinks(w: World, c: Config, cache: seq<seq<KV>>, y: Sys, id: Id)
    requires SysInv(w, c, cache, y, [])
    ensures |AbortRequest(c, y, id).running| <= |y.running|
  {
    hide SysInv, Retire;
    WithoutShorter(y.running, id);
    if id in y.waiting {
      WaitingEmpty(w, c, cache, y, id);
      RetireFrame(c, y.(waiting := Without(y.waiting, id)), id, Abort);
    } else if id in y.running {
      RunningKnown(w, c, cache, y, id);
      RetireFrame(c, y.(running := Without(y.running, id)), id, Abort);
    }
  }

  lemma ApplyKeeps(w: World, c: Config, m: Machine, input: Input, brief: Brief)
    requires ValidConfig(c.kv) && MachineInv(w, c, m, brief) && ValidInput(w, m, input)
    ensures MachineInv(w, c, Apply(c, w.net, m, input), BriefAfter(m, brief, input))
  {
    hide SysInv, Books, TickOnce, AbortRequest, Add, AfterCancel, InPlay, RefOutput;
    match input
    case Arrive(id, prompt, params) =>
      AddKeeps(w, c, m.cache, m.sys, id, prompt, params);
      AddBooks(m.sys, brief, id, prompt, params);
      AddRunning(m.sys, id, prompt, params);
    case Cancel(id) =>
      AbortKeeps(w, c, m.cache, m.sys, id);
      AbortBooks(w, c, m.cache, m.sys, brief, id);
      AbortShrinks(w, c, m.cache, m.sys, id);
    case Tick(late) =>
      TickKeeps(w, c, m, late, brief);
  }

  lemma AddRunning(y: Sys, id: Id, prompt: seq<Token>, params: SamplingParams)
    ensures Add(y, id, prompt, params).running == y.running
  {
  }

  lemma {:induction false} RunKeeps(w: World, c: Config, cache: seq<seq<KV>>, inputs: seq<Input>)
    requires c.kv == w.c && ValidPolicy(c) && NoCollision(w.c, w.universe) && Shape(w, cache)
    requires ValidRun(w, c, Boot(c, cache), inputs)
    ensures MachineInv(w, c, Run(c, w.net, Boot(c, cache), inputs), BriefOf(w, c, Boot(c, cache), inputs))
  {
    hide NoCollision, Shape, MachineInv, Boot, Apply, BriefAfter, ValidInput;
    if inputs == [] {
      BootInv(w, c, cache);
    } else {
      var n := |inputs| - 1;
      RunKeeps(w, c, cache, inputs[..n]);
      ApplyKeeps(w, c, Run(c, w.net, Boot(c, cache), inputs[..n]), inputs[n], BriefOf(w, c, Boot(c, cache), inputs[..n]));
    }
  }
}
