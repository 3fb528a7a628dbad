/**
 The engine's turn, with the imperative scheduler, cache manager and model: it computes exactly the
 transition whose runs the theorems are about.
 */
module EngineLoop {
  import opened Lists
  import opened Paging
  import opened BlockPool
  import opened Requests
  import opened PrefixTree
  import opened Network
  import opened Contents
  import opened Scheduling
  import opened Roles
  import opened Safety
  import opened Departures
  import opened Steps
  import opened Progressing
  import opened Ledger
  import opened Engine
  import opened Schedulers
  import opened KVCacheManagers
  import opened PagedModels
  import opened Reference
  import opened Fcfs
  import opened Admitting
  import opened Drain
  import opened Service

  class Loop {
    const scheduler: Scheduler
    const model: PagedModel
    ghost const w: World

    ghost function State(): Machine
      reads scheduler, scheduler.kv, model.store
    {
      Machine(scheduler.State(), model.Cache())
    }

    ghost predicate Valid(brief: Brief)
      reads scheduler, scheduler.kv, model.store
    {
      && scheduler.kv.c == scheduler.c.kv == model.c && w.net == model.net && model.Valid()
      && MachineInv(w, scheduler.c, State(), brief)
    }

    constructor (c: Config, net: Net, ghost universe: set<seq<Token>>)
      requires ValidPolicy(c) && NoCollision(c.kv, universe)
      ensures scheduler.c == c && model.net == net && w == World(c.kv, net, universe)
      ensures State() == Boot(c, model.Cache()) && Valid(Brief(map[], multiset{}))
      ensures fresh(scheduler) && fresh(scheduler.kv) && fresh(model.store)
    {
      hide NoCollision;
      ghost var world := World(c.kv, net, universe);
      var kv := new KVCacheManager(c.kv);
      var m := new PagedModel(c.kv, net);
      StoreShape(world, m);
      var s := new Scheduler(c, kv);
      scheduler, model, w := s, m, world;
      new;
      BootInv(world, c, m.Cache());
    }

    /** schedule; unless the step is empty, forward, sample and apply. */
    method Turn(late: set<Id>, ghost brief: Brief)
      requires Valid(brief)
      modifies scheduler, scheduler.kv, model.store
      ensures ValidConfig(scheduler.c.kv) && State() == TickOnce(scheduler.c, w.net, old(State()), late)
      ensures Valid(brief)
    {
      hide SysInv, Books, Scheduling.Schedule, Network.Forward, Scheduling.OnStepDone, StepValid, Applying, Samples, Distinct, WorkOk, Addressable;
      ghost var c, m := scheduler.c, State();
      ConfigReady(w, c, m.cache, m.sys, []);
      TickKeeps(w, c, m, late, brief);
      var step := scheduler.Schedule(late, w, m.cache);
      if step.slices != [] {
        ghost var y := scheduler.State();
        ForwardReady(w, c, m.cache, y, step);
        var works := WorkFor(step.slices);
        StepWorks(w, c, m.cache, y, step);
        var sampled := model.Forward(works);
        scheduler.OnStepDone(step, sampled, w, model.Cache());
      }
    }

    /** Refuse a request that is empty or can never fit; otherwise queue it. Accepted requests always fit the pool. */
    method Submit(id: Id, prompt: seq<Token>, params: SamplingParams, contextLimit: nat, ghost brief: Brief) returns (ok: bool, ghost brief1: Brief)
      requires Valid(brief) && id !in scheduler.seqs
      requires prompt != [] ==> InPlay(w.universe, RefOutput(w.net, params, prompt))
      modifies scheduler
      ensures ok <==> prompt != [] && params.maxTokens > 0 && |prompt| + params.maxTokens <= Cap(scheduler.c) && |prompt| + params.maxTokens <= contextLimit
      ensures ok ==> ValidConfig(scheduler.c.kv) && State() == Apply(scheduler.c, w.net, old(State()), Arrive(id, prompt, params))
      ensures !ok ==> State() == old(State()) && brief1 == brief
      ensures Valid(brief1) && (AllFit(scheduler.c, brief) ==> AllFit(scheduler.c, brief1))
    {
      hide SysInv, Books, InPlay, RefOutput, Span;
      ghost var c, m := scheduler.c, State();
      ConfigReady(w, c, m.cache, m.sys, []);
      SpanIsMul(c.kv.blockSize, c.kv.numBlocks);
      brief1 := brief;
      var capacity := scheduler.kv.c.numBlocks * scheduler.kv.c.blockSize;
      if prompt == [] || params.maxTokens <= 0 || |prompt| + params.maxTokens > capacity || |prompt| + params.maxTokens > contextLimit {
        return false, brief;
      }
      brief1 := brief.(requests := brief.requests[id := Request(prompt, params)]);
      ApplyKeeps(w, c, m, Arrive(id, prompt, params), brief);
      scheduler.Add(id, prompt, params);
      ok := true;
    }

    method Cancel(id: Id, ghost brief: Brief)
      requires Valid(brief)
      modifies scheduler, scheduler.kv
      ensures ValidConfig(scheduler.c.kv) && State() == Apply(scheduler.c, w.net, old(State()), Input.Cancel(id))
      ensures Valid(BriefAfter(old(State()), brief, Input.Cancel(id)))
      ensures Cancelled(old(scheduler.State()), scheduler.State(), id)
    {
      hide SysInv, Books, AbortRequest, Cancelled;
      ghost var c, m := scheduler.c, State();
      ConfigReady(w, c, m.cache, m.sys, []);
      ApplyKeeps(w, c, m, Input.Cancel(id), brief);
      scheduler.Abort(id, w, m.cache);
    }

    /**
     Finish everything that is queued or resident: unless the engine is stuck, the loop terminates although
     it preempts, and with no explicit watermark every one of those requests ends with its complete
     reference output. In continuous mode it is never stuck.
     */
    method Finish(ghost brief: Brief)
      requires Valid(brief) && AllFit(scheduler.c, brief) && ValidConfig(scheduler.c.kv) && !Stuck(scheduler.c, scheduler.State())
      modifies scheduler, scheduler.kv, model.store
      ensures Valid(brief) && scheduler.waiting == [] && scheduler.running == []
      ensures scheduler.c.watermark <= 0 ==>
                forall id :: id in old(scheduler.running) || id in old(scheduler.waiting) ==> CompleteOutput(w.net, brief, scheduler.State(), id)
    {
      hide SysInv, Books, TickOnce, Measure, AllFit, MachineInv, Served1, CompleteOutput, Line, Stuck;
      ghost var c, m := scheduler.c, State();
      KeptSelf(m.sys);
      while scheduler.waiting != [] || scheduler.running != []
        invariant Valid(brief) && !Stuck(c, scheduler.State()) && (c.watermark <= 0 ==> Served1(m.sys, scheduler.State()))
        decreases Measure(c, scheduler.State())
      {
        ghost var m0 := State();
        FreeTurn(w, c, m0, brief);
        if c.watermark <= 0 {
          TickServes(w, c, m0, brief);
          ServedTrans(m.sys, m0.sys, TickOnce(c, w.net, m0, {}).sys);
        }
        Turn({}, brief);
      }
      if c.watermark <= 0 {
        forall id | id in m.sys.running || id in m.sys.waiting ensures CompleteOutput(w.net, brief, scheduler.State(), id) {
          EveryoneLeft(w, c, m, State(), brief, id);
        }
      }
    }

    /** What the model reads through the slices' sequence pointers. */
    method WorkFor(slices: seq<Slice>) returns (works: seq<Work>)
      ensures works == Works(scheduler.seqs, slices)
    {
      works := [];
      for i := 0 to |slices|
        invariant works == Works(scheduler.seqs, slices[..i])
      {
        works := works + [WorkOf(scheduler.seqs, slices[i])];
        assert slices[..i + 1][..i] == slices[..i];
      }
      assert slices[..|slices|] == slices;
    }
  }

  lemma StoreShape(w: World, m: PagedModel)
    requires m.Valid() && m.c == w.c && m.net == w.net
    ensures Shape(w, m.Cache())
  {
  }

  lemma StepWorks(w: World, c: Config, cache: seq<seq<KV>>, y: Sys, step: Step)
    requires SysInv(w, c, cache, y, []) && StepValid(c, y, step)
    ensures var works := Works(y.seqs, step.slices); forall i :: 0 <= i < |works| ==> WorkOk(works[i]) && Addressable(c.kv, works[i])
  {
    hide SysInv, TotalLen, NumLogits, Addressable, CacheInv, Span;
    InvParts(w, c, cache, y, []);
    OpenKv(w, cache, y.pool, y.seqs, y.order);
    var works := Works(y.seqs, step.slices);
    forall i | 0 <= i < |works| ensures WorkOk(works[i]) && Addressable(c.kv, works[i]) {
      assert GoodSlice(c, y, step.slices[i]);
      StepAddressable(c.kv, w.universe, y.pool, y.seqs, y.order, step.slices[i]);
    }
  }

  lemma EveryoneLeft(w: World, c: Config, m: Machine, m1: Machine, brief: Brief, id: Id)
    requires id in m.sys.running || id in m.sys.waiting
    requires MachineInv(w, c, m, brief) && MachineInv(w, c, m1, brief) && Served1(m.sys, m1.sys) && m1.sys.waiting == [] && m1.sys.running == []
    ensures CompleteOutput(w.net, brief, m1.sys, id)
  {
    hide SysInv, Books, CompleteOutput, Served;
    LineNoDup(w, c, m.cache, m.sys);
    assert id in Line(m.sys);
    ServedIsComplete(w, c, m1, brief, id);
  }
}
