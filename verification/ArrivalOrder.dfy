/**
 First come, first served over whole runs: in continuous mode with strict admission order, the
 residents followed by the queue are, in every reachable state, the unfinished requests in the
 order in which they arrived.
 */
module ArrivalOrder {
  import opened Lists
  import opened Paging
  import opened BlockPool
  import opened Requests
  import opened PrefixCache
  import opened PrefixTree
  import opened CacheOps
  import opened Network
  import opened Contents
  import opened Reference
  import opened Scheduling
  import opened Roles
  import opened Safety
  import opened Steps
  import opened Progressing
  import opened Ledger
  import opened Engine
  import opened Theorems
  import opened Fcfs

  // ---- nothing but an arrival touches the arrival history ----

  lemma {:induction false} PlaceOrder(c: Config, y: Sys, mid: seq<Id>, dec: seq<Id>, i: nat)
    requires ValidConfig(c.kv)
    ensures PlaceDecodes(c, y, mid, dec, i).0.order == y.order
    decreases |y.running|, |dec| - i
  {
    hide EnsureSlot, Without, Free, LastFinished;
    if i < |dec| {
      var (y1, ok) := GrowFor(c, y, dec[i]);
      if ok {
        PlaceOrder(c, y1, mid, dec, i + 1);
      } else if Victim(y1).Some? {
        PlaceOrder(c, Evict(c, y1), Without(mid, Victim(y1).value), Without(dec, Victim(y1).value), i);
      } else {
        PlaceOrder(c, y1, mid, RemoveAt(dec, i), i);
      }
    }
  }

  lemma {:induction false} RetireLateOrder(c: Config, y: Sys, ids: seq<Id>, j: nat)
    ensures RetireLate(c, y, ids, j).order == y.order
    decreases |ids| - j
  {
    hide Free;
    if j < |ids| {
      RetireLateOrder(c, Retire(c, y.(stats := y.stats.(timedOut := y.stats.timedOut + 1)), ids[j], Timeout), ids, j + 1);
    }
  }

  lemma {:induction false} BumpOrder(y: Sys, j: nat)
    ensures BumpWaits(y, j).order == y.order
    decreases |y.waiting| - j
  {
    if j < |y.waiting| {
      var s := Lookup(y, y.waiting[j]);
      BumpOrder(SetSeq(y, y.waiting[j], s.(waitSteps := s.waitSteps + 1)), j + 1);
    }
  }

  lemma {:induction false} ScanOrder(c: Config, y: Sys, step: Step, budget: int, i: nat, limit: nat)
    requires ValidConfig(c.kv)
    ensures AdmitScan(c, y, step, budget, i, limit).sys.order == y.order
    decreases limit - i
  {
    hide AllocatePrompt, AdmissionFits;
    if i < limit && i < |y.waiting| && Lookup(y, y.waiting[i]).table.blocks == [] {
      ScanOrder(c, y, step, budget, i + 1, limit);
    }
  }

  lemma {:induction false} AdmitAllOrder(c: Config, y: Sys, step: Step, budget: int)
    requires ValidConfig(c.kv)
    ensures AdmitAll(c, y, step, budget).0.order == y.order
    decreases |y.waiting|
  {
    hide AdmitScan;
    var r := AdmitOne(c, y, step, budget);
    ScanOrder(c, y, step, budget, 0, AdmitLimit(c, y));
    if r.admitted {
      AdmitAllOrder(c, r.sys, r.step, r.budget);
    }
  }

  lemma ScheduleOrder(c: Config, y: Sys, late: set<Id>)
    requires ValidConfig(c.kv)
    ensures Schedule(c, y, late).0.order == y.order
  {
    hide Free, PlaceDecodes, RetireLate, BumpWaits, AdmitAll, DecodeSlices, PrefillSlices, MidPrefill, Decoding, Expired, Punctual, Schedule;
    ScheduleIs(c, y, late);
    var y0 := Started(c, y);
    PlaceOrder(c, y0, MidPrefill(y0, y0.running), Decoding(y0, y0.running), 0);
    var (y1, mid, dec0) := Settle(c, y);
    var (step1, budget1) := PrefillSlices(c, y1, mid, 0, EmptyStep, c.maxBatchedTokens);
    var dec := Truncated(dec0, budget1);
    RetireLateOrder(c, y1.(waiting := Punctual(y1, y1.waiting, late)), Expired(y1, y1.waiting, late), 0);
    var y2 := ExpireQueue(c, y1, late);
    BumpOrder(y2, 0);
    AdmitAllOrder(c, BumpWaits(y2, 0), step1, budget1 - |dec|);
  }

  // ---- the line is a subsequence of the history ----

  ghost predicate InArrivalOrder(y: Sys) {
    IsSub(Line(y), y.order)
  }

  lemma AbortInOrder(w: World, c: Config, cache: seq<seq<KV>>, y: Sys, id: Id)
    requires SysInv(w, c, cache, y, []) && InArrivalOrder(y)
    ensures InArrivalOrder(AbortRequest(c, y, id))
  {
    hide SysInv, Retire, IsSub;
    if id in y.waiting {
      WaitingEmpty(w, c, cache, y, id);
      RetireFrame(c, y.(waiting := Without(y.waiting, id)), id, Abort);
      SubWithout(y.waiting, id);
      SubConcatLeft(y.running, Without(y.waiting, id), y.waiting);
      SubTrans(y.running + Without(y.waiting, id), Line(y), y.order);
    } else if id in y.running {
      RunningKnown(w, c, cache, y, id);
      RetireFrame(c, y.(running := Without(y.running, id)), id, Abort);
      SubWithout(y.running, id);
      SubConcatRight(Without(y.running, id), y.running, y.waiting);
      SubTrans(Without(y.running, id) + y.waiting, Line(y), y.order);
    }
  }

  lemma TickInOrder(w: World, c: Config, m: Machine, late: set<Id>)
    requires ValidConfig(c.kv) && Strict(c) && Inv(w, c, m.cache, m.sys) && InArrivalOrder(m.sys)
    ensures InArrivalOrder(TickOnce(c, w.net, m, late).sys)
  {
    hide SysInv, IsSub, Line, Schedule, OnStepDone, Forward, Works;
    ScheduleLine(w, c, m.cache, m.sys, late);
    ScheduleOrder(c, m.sys, late);
    var (y, step) := Schedule(c, m.sys, late);
    SubTrans(Line(y), Line(m.sys), m.sys.order);
    var works := Works(y.seqs, step.slices);
    if step.slices != [] && CanRun(w.net, m.cache, works) {
      var (cache, sampled) := Forward(c.kv, w.net, m.cache, works);
      StepDoneLine(c, y, step, sampled);
      SubTrans(Line(OnStepDone(c, y, step, sampled)), Line(y), y.order);
    }
  }

  lemma ApplyInOrder(w: World, c: Config, m: Machine, input: Input)
    requires ValidConfig(c.kv) && Strict(c) && Inv(w, c, m.cache, m.sys) && InArrivalOrder(m.sys)
    ensures InArrivalOrder(Apply(c, w.net, m, input).sys)
  {
    hide IsSub, TickOnce, SysInv, AbortRequest;
    match input
    case Arrive(id, prompt, params) =>
      SubConcatRight(Line(m.sys), m.sys.order, [id]);
      assert Line(Add(m.sys, id, prompt, params)) == Line(m.sys) + [id];
    case Tick(late) =>
      TickInOrder(w, c, m, late);
    case Cancel(id) =>
      AbortInOrder(w, c, m.cache, m.sys, id);
  }

  lemma {:induction false} RunInOrder(w: World, c: Config, cache: seq<seq<KV>>, inputs: seq<Input>, m: Machine)
    requires Reached(w, c, cache, inputs, m) && Strict(c)
    ensures InArrivalOrder(m.sys)
    decreases |inputs|
  {
    hide Apply, NoCollision, SysInv, Books;
    if inputs == [] {
      assert InArrivalOrder(Boot(c, cache).sys);
    } else {
      var n := |inputs| - 1;
      var m0 := Run(c, w.net, Boot(c, cache), inputs[..n]);
      RunInOrder(w, c, cache, inputs[..n], m0);
      ReachedInv(w, c, cache, inputs[..n], m0);
      ApplyInOrder(w, c, m0, inputs[n]);
    }
  }

  predicate Unfinished(y: Sys, id: Id) {
    id in y.seqs && !IsFinished(y.seqs[id])
  }

  /** Residents, then the queue: exactly the unfinished requests, in arrival order. */
  lemma FirstComeFirstServed(w: World, c: Config, cache: seq<seq<KV>>, inputs: seq<Input>, m: Machine)
    requires Reached(w, c, cache, inputs, m) && Strict(c)
    ensures m.sys.running + m.sys.waiting == Filter(m.sys.order, id => Unfinished(m.sys, id))
  {
    hide Reached, IsSub, KvOk, Live, InPlay, RefOf, Over, Roomy;
    RunInOrder(w, c, cache, inputs, m);
    ReachedInv(w, c, cache, inputs, m);
    var y := m.sys;
    forall x ensures x in Line(y) <==> x in y.order && Unfinished(y, x) {
      assert x in Line(y) <==> x in y.running || x in y.waiting;
      if x in y.seqs {
        RoleOf(w, c, y.seqs, QueuesOf(y, []), x);
      }
    }
    SubIsFilter(Line(y), y.order, id => Unfinished(y, id));
  }
}
