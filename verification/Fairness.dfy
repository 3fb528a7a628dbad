/**
 Bounded unfairness of the admission lookahead: because a starving request that does not fit stops
 the scan, a request is overtaken in fewer than `starvationSteps` rounds over its whole life.
 */
module Fairness {
  import opened Lists
  import opened Paging
  import opened BlockPool
  import opened Requests
  import opened PrefixCache
  import opened PrefixTree
  import opened CacheOps
  import opened Network
  import opened Contents
  import opened Reference
  import opened Scheduling
  import opened Roles
  import opened Safety
  import opened Steps
  import opened Ledger
  import opened Engine
  import opened Fcfs
  import opened Theorems
  import opened Admitting

  // ---- what it means to be overtaken ----

  /** The members of `l` in front of the first `x`. */
  function Before(l: seq<Id>, x: Id): (r: seq<Id>)
    ensures r <= l
    ensures x !in r
  {
    if l == [] || l[0] == x then [] else [l[0]] + Before(l[1..], x)
  }

  /** The requests that, while the queue is being served, see somebody behind them become resident. */
  ghost function OvertakenWhileAdmitting(c: Config, y: Sys, step: Step, budget: int): set<Id>
    requires ValidConfig(c.kv)
    decreases |y.waiting|
  {
    var r := AdmitOne(c, y, step, budget);
    if !r.admitted then {}
    else
      var front := if r.sys.running != [] then Before(y.waiting, r.sys.running[|r.sys.running| - 1]) else y.waiting;
      Elems(front) + OvertakenWhileAdmitting(c, r.sys, r.step, r.budget)
  }

  /** The requests overtaken in one scheduling round. */
  ghost function Overtaken(c: Config, y: Sys, late: set<Id>): set<Id>
    requires ValidConfig(c.kv)
  {
    var (y1, mid, dec0) := Settle(c, y);
    var (step1, budget1) := PrefillSlices(c, y1, mid, 0, EmptyStep, c.maxBatchedTokens);
    var dec := Truncated(dec0, budget1);
    if c.continuous || y.batchOpen || y.running == [] then
      OvertakenWhileAdmitting(c, BumpWaits(ExpireQueue(c, y1, late), 0), step1, budget1 - |dec|)
    else {}
  }

  /** In how many rounds of a run `id` was overtaken. */
  ghost function RoundsOvertaken(w: World, c: Config, m: Machine, inputs: seq<Input>, id: Id): nat
    requires ValidConfig(c.kv)
  {
    if inputs == [] then 0
    else
      var n := |inputs| - 1;
      RoundsOvertaken(w, c, m, inputs[..n], id) +
      match inputs[n]
      case Tick(late) => if id in Overtaken(c, Run(c, w.net, m, inputs[..n]).sys, late) then 1 else 0
      case Arrive(_, _, _) => 0
      case Cancel(_) => 0
  }

  // ---- nobody's waiting count ever drops ----

  function Wait(y: Sys, id: Id): nat {
    Lookup(y, id).waitSteps
  }

  ghost predicate SameWaits(y: Sys, y1: Sys) {
    forall id :: Wait(y1, id) == Wait(y, id)
  }

  lemma EvictWaits(c: Config, y: Sys)
    ensures SameWaits(y, Evict(c, y))
  {
    hide Free;
  }

  lemma GrowWaits(c: Config, y: Sys, id: Id)
    requires ValidConfig(c.kv)
    ensures SameWaits(y, GrowFor(c, y, id).0)
  {
    hide EnsureSlot;
  }

  lemma RetireWaits(c: Config, y: Sys, id: Id, r: Finish)
    ensures SameWaits(y, Retire(c, y, id, r))
  {
    hide Free;
  }

  lemma {:induction false} PlaceWaits(c: Config, y: Sys, mid: seq<Id>, dec: seq<Id>, i: nat)
    requires ValidConfig(c.kv)
    ensures SameWaits(y, PlaceDecodes(c, y, mid, dec, i).0)
    decreases |y.running|, |dec| - i
  {
    hide Without, Evict, GrowFor, Wait;
    if i < |dec| {
      GrowWaits(c, y, dec[i]);
      var (y1, ok) := GrowFor(c, y, dec[i]);
      GrowResidents(c, y, dec[i]);
      if ok {
        PlaceWaits(c, y1, mid, dec, i + 1);
      } else if Victim(y1).Some? {
        EvictWaits(c, y1);
        PlaceWaits(c, Evict(c, y1), Without(mid, Victim(y1).value), Without(dec, Victim(y1).value), i);
      } else {
        PlaceWaits(c, y1, mid, RemoveAt(dec, i), i);
      }
    }
  }

  lemma {:induction false} RetireLateWaits(c: Config, y: Sys, ids: seq<Id>, j: nat)
    ensures SameWaits(y, RetireLate(c, y, ids, j))
    decreases |ids| - j
  {
    hide Retire;
    if j < |ids| {
      var y0 := y.(stats := y.stats.(timedOut := y.stats.timedOut + 1));
      RetireWaits(c, y0, ids[j], Timeout);
      RetireLateWaits(c, Retire(c, y0, ids[j], Timeout), ids, j + 1);
    }
  }

  /** Every queue member waits one step longer. */
  lemma {:induction false} BumpWaitsMore(y: Sys, j: nat)
    ensures forall id :: Wait(BumpWaits(y, j), id) >= Wait(y, id)
    ensures forall k :: j <= k < |y.waiting| ==> Wait(BumpWaits(y, j), y.waiting[k]) >= Wait(y, y.waiting[k]) + 1
    ensures BumpWaits(y, j).waiting == y.waiting
    decreases |y.waiting| - j
  {
    hide Wait;
    if j < |y.waiting| {
      var s := Lookup(y, y.waiting[j]);
      var y1 := SetSeq(y, y.waiting[j], s.(waitSteps := s.waitSteps + 1));
      BumpOne(y, y.waiting[j]);
      BumpWaitsMore(y1, j + 1);
    }
  }

  lemma BumpOne(y: Sys, id: Id)
    ensures forall x :: Wait(SetSeq(y, id, Lookup(y, id).(waitSteps := Lookup(y, id).waitSteps + 1)), x) == Wait(y, x) + if x == id then 1 else 0
  {
  }

  /** An admission changes no waiting count, and admits behind nobody that is starving. */
  ghost predicate FairAdmission(c: Config, y: Sys, r: Admission, i: nat) {
    && SameWaits(y, r.sys)
    && (r.admitted ==> exists k: nat :: i <= k < |y.waiting| && AdmittedBehind(c, y, r.sys, i, k))
  }

  ghost predicate AdmittedBehind(c: Config, y: Sys, y1: Sys, i: nat, k: nat)
    requires k < |y.waiting|
  {
    && y1.running == y.running + [y.waiting[k]] && y1.waiting == RemoveAt(y.waiting, k)
    && forall j :: i <= j < k ==> Wait(y, y.waiting[j]) < c.starvationSteps
  }

  lemma StartFair(c: Config, y: Sys, y1: Sys, step: Step, budget: int, i: nat)
    requires i < |y.waiting| && y1.waiting == y.waiting && y1.running == y.running && SameWaits(y, y1)
    ensures FairAdmission(c, y, Start(c, y1, step, budget, i), i)
  {
    var r := Start(c, y1, step, budget, i);
    if r.admitted {
      assert AdmittedBehind(c, y, r.sys, i, i);
    }
  }

  lemma AdoptWaits(c: Config, y: Sys, id: Id)
    requires ValidConfig(c.kv)
    ensures Adopt(c, y, id).Some? ==>
              var y1 := Adopt(c, y, id).value; SameWaits(y, y1) && y1.waiting == y.waiting && y1.running == y.running
  {
    hide AllocatePrompt;
  }

  lemma {:induction false} ScanFair(c: Config, y: Sys, step: Step, budget: int, i: nat, limit: nat)
    requires ValidConfig(c.kv)
    ensures FairAdmission(c, y, AdmitScan(c, y, step, budget, i, limit), i)
    decreases limit - i
  {
    hide Adopt, AdmissionFits, Start;
    if i < limit && i < |y.waiting| {
      var id := y.waiting[i];
      AdoptWaits(c, y, id);
      StartFair(c, y, y, step, budget, i);
      if Lookup(y, id).table.blocks == [] {
        if AdmissionFits(c, y, Lookup(y, id)) && Adopt(c, y, id).Some? {
          StartFair(c, y, Adopt(c, y, id).value, step, budget, i);
        } else if Wait(y, id) < c.starvationSteps {
          ScanFair(c, y, step, budget, i + 1, limit);
          var r := AdmitScan(c, y, step, budget, i + 1, limit);
          if r.admitted {
            var k: nat :| i + 1 <= k < |y.waiting| && AdmittedBehind(c, y, r.sys, i + 1, k);
            assert AdmittedBehind(c, y, r.sys, i, k);
          }
        }
      }
    }
  }

  lemma {:induction false} BeforeIndex(l: seq<Id>, k: nat)
    requires k < |l|
    ensures |Before(l, l[k])| <= k
  {
    if k > 0 && l[0] != l[k] {
      BeforeIndex(l[1..], k - 1);
    }
  }

  /** Whoever is overtaken was queued and not starving. */
  lemma {:induction false} AdmittingFair(c: Config, y: Sys, step: Step, budget: int)
    requires ValidConfig(c.kv)
    ensures SameWaits(y, AdmitAll(c, y, step, budget).0)
    ensures forall x :: x in OvertakenWhileAdmitting(c, y, step, budget) ==> x in y.waiting && Wait(y, x) < c.starvationSteps
    decreases |y.waiting|
  {
    hide AdmitScan, Wait;
    var r := AdmitOne(c, y, step, budget);
    ScanFair(c, y, step, budget, 0, AdmitLimit(c, y));
    if r.admitted {
      AdmittingFair(c, r.sys, r.step, r.budget);
      var k: nat :| k < |y.waiting| && AdmittedBehind(c, y, r.sys, 0, k);
      BeforeIndex(y.waiting, k);
      forall x | x in Before(y.waiting, y.waiting[k]) ensures x in y.waiting && Wait(y, x) < c.starvationSteps {
        var j :| 0 <= j < |Before(y.waiting, y.waiting[k])| && Before(y.waiting, y.waiting[k])[j] == x;
        assert y.waiting[j] == x;
      }
    }
  }

  lemma RejectWaits(c: Config, y: Sys, dec: seq<Id>)
    ensures SameWaits(y, RejectHead(c, y, dec))
  {
    hide Retire;
    if y.waiting != [] {
      RetireWaits(c, y.(waiting := y.waiting[1..]), y.waiting[0], Abort);
    }
  }

  /** A round lowers nobody's count; who is overtaken waits one step longer and is not starving then. */
  lemma ScheduleFair(c: Config, y: Sys, late: set<Id>)
    requires ValidConfig(c.kv)
    ensures forall x :: Wait(Schedule(c, y, late).0, x) >= Wait(y, x)
    ensures forall x :: x in Overtaken(c, y, late) ==> Wait(y, x) + 1 < c.starvationSteps && Wait(Schedule(c, y, late).0, x) >= Wait(y, x) + 1
  {
    hide PlaceDecodes, RetireLate, BumpWaits, AdmitAll, DecodeSlices, PrefillSlices, MidPrefill, Decoding, Expired, Punctual, Schedule, RejectHead, Wait,
      OvertakenWhileAdmitting;
    ScheduleIs(c, y, late);
    var y0 := Started(c, y);
    StartedWaits(c, y);
    PlaceWaits(c, y0, MidPrefill(y0, y0.running), Decoding(y0, y0.running), 0);
    var (y1, mid, dec0) := Settle(c, y);
    var (step1, budget1) := PrefillSlices(c, y1, mid, 0, EmptyStep, c.maxBatchedTokens);
    var dec := Truncated(dec0, budget1);
    var q := y1.(waiting := Punctual(y1, y1.waiting, late));
    QueueWaits(y1, q);
    RetireLateWaits(c, q, Expired(y1, y1.waiting, late), 0);
    var y2 := ExpireQueue(c, y1, late);
    BumpWaitsMore(y2, 0);
    var y3 := BumpWaits(y2, 0);
    AdmittingFair(c, y3, step1, budget1 - |dec|);
    var (y4, step4, budget4) := AdmitAll(c, y3, step1, budget1 - |dec|);
    QueueWaits(y4, CloseBatch(c, y4, budget4));
    RejectWaits(c, CloseBatch(c, y4, budget4), dec);
  }

  lemma QueueWaits(y: Sys, y1: Sys)
    requires y1.seqs == y.seqs
    ensures SameWaits(y, y1)
  {
  }

  lemma StartedWaits(c: Config, y: Sys)
    ensures SameWaits(y, Started(c, y))
  {
  }

  lemma {:induction false} SlicesWaits(c: Config, g: Progress, slices: seq<Slice>, j: nat, sampled: seq<Token>)
    ensures SameWaits(g.sys, SlicesDone(c, g, slices, j, sampled).sys)
    decreases |slices| - j
  {
    hide CommitComputed, Without;
    if j < |slices| {
      SlicesWaits(c, SliceDone(c, g, slices[j], sampled), slices, j + 1, sampled);
    }
  }

  lemma {:induction false} RetireDoneWaits(c: Config, y: Sys, done: seq<Id>, j: nat)
    ensures SameWaits(y, RetireDone(c, y, done, j))
    decreases |done| - j
  {
    hide Retire;
    if j < |done| {
      RetireWaits(c, y, done[j], Lookup(y, done[j]).finish);
      RetireDoneWaits(c, Retire(c, y, done[j], Lookup(y, done[j]).finish), done, j + 1);
    }
  }

  lemma {:induction false} DrainWaits(c: Config, y: Sys, j: nat)
    ensures SameWaits(y, DrainBatch(c, y, j))
    decreases |y.running| - j
  {
    hide Free;
    if j < |y.running| {
      var y1 := Drop(c, y, y.running[j]);
      DrainWaits(c, y1.(stats := y1.stats.(finished := y1.stats.finished + 1)), j + 1);
    }
  }

  lemma StepDoneWaits(c: Config, y: Sys, step: Step, sampled: seq<Token>)
    ensures SameWaits(y, OnStepDone(c, y, step, sampled))
  {
    hide SlicesDone, RetireDone, DrainBatch, Wait;
    SlicesWaits(c, Progress(y, 0, []), step.slices, 0, sampled);
    var g := SlicesDone(c, Progress(y, 0, []), step.slices, 0, sampled);
    RetireDoneWaits(c, g.sys, g.done, 0);
    DrainWaits(c, RetireDone(c, g.sys, g.done, 0), 0);
  }

  lemma TickFair(w: World, c: Config, m: Machine, late: set<Id>, id: Id)
    requires ValidConfig(c.kv)
    ensures var m1 := TickOnce(c, w.net, m, late);
            Wait(m1.sys, id) >= Wait(m.sys, id) + if id in Overtaken(c, m.sys, late) then 1 else 0
    ensures id in Overtaken(c, m.sys, late) ==> Wait(m.sys, id) + 1 < c.starvationSteps
  {
    hide Schedule, OnStepDone, Forward, Works, Overtaken, Wait;
    ScheduleFair(c, m.sys, late);
    var (y, step) := Schedule(c, m.sys, late);
    var works := Works(y.seqs, step.slices);
    if step.slices != [] && CanRun(w.net, m.cache, works) {
      var (cache, sampled) := Forward(c.kv, w.net, m.cache, works);
      StepDoneWaits(c, y, step, sampled);
    }
  }

  lemma AbortWaits(c: Config, y: Sys, id: Id)
    ensures SameWaits(y, AbortRequest(c, y, id))
  {
    hide Free;
  }

  /**
   Over any run, in both modes, a request is overtaken in at most as many rounds as it has waited, and
   in fewer than `starvationSteps` rounds.
   */
  lemma {:induction false} BoundedUnfairness(w: World, c: Config, cache: seq<seq<KV>>, inputs: seq<Input>, m: Machine, id: Id)
    requires Reached(w, c, cache, inputs, m)
    ensures ValidConfig(c.kv)
    ensures RoundsOvertaken(w, c, Boot(c, cache), inputs, id) <= Wait(m.sys, id)
    ensures RoundsOvertaken(w, c, Boot(c, cache), inputs, id) <= Max(0, c.starvationSteps - 1)
    decreases |inputs|
  {
    hide NoCollision, TickOnce, Overtaken, Shape, AbortRequest;
    if inputs != [] {
      var n := |inputs| - 1;
      var m0 := Run(c, w.net, Boot(c, cache), inputs[..n]);
      BoundedUnfairness(w, c, cache, inputs[..n], m0, id);
      match inputs[n]
      case Arrive(x, prompt, params) =>
      case Tick(late) => TickFair(w, c, m0, late, id);
      case Cancel(x) => AbortWaits(c, m0.sys, x);
    }
  }

  // ---- who is overtaken, exactly ----

  /** `id` is queued, neither fits nor starves, and the request that the scan finds stands behind it. */
  ghost predicate PassedNow(c: Config, y: Sys, id: Id)
    requires ValidConfig(c.kv)
  {
    exists j: nat, k: nat :: j < k < |y.waiting| && y.waiting[j] == id && !Fits(c, y, j) && !Starving(c, y, j) && FirstInWindow(c, y, k)
  }

  /** That happens at one of the admissions made from here on. */
  ghost predicate PassedOver(c: Config, y: Sys, step: Step, budget: int, id: Id)
    requires ValidConfig(c.kv)
    decreases |y.waiting|
  {
    var r := AdmitOne(c, y, step, budget);
    r.admitted && (PassedNow(c, y, id) || PassedOver(c, r.sys, r.step, r.budget, id))
  }

  lemma {:induction false} BeforeIs(l: seq<Id>, k: nat)
    requires k < |l| && NoDup(l)
    ensures Before(l, l[k]) == l[..k]
  {
    if k > 0 {
      BeforeIs(l[1..], k - 1);
      assert l[..k] == [l[0]] + l[1..][..k - 1];
    }
  }

  lemma FrontPassed(c: Config, y: Sys, k: nat, id: Id)
    requires ValidConfig(c.kv) && FirstInWindow(c, y, k)
    ensures k < |y.waiting| && (id in y.waiting[..k] <==> PassedNow(c, y, id))
  {
    hide Fits, Starving;
    if id in y.waiting[..k] {
      var j: nat :| j < k && y.waiting[..k][j] == id;
      assert y.waiting[j] == id && FirstInWindow(c, y, k);
    }
    if PassedNow(c, y, id) {
      var j: nat, k1: nat :| j < k1 < |y.waiting| && y.waiting[j] == id && !Fits(c, y, j) && !Starving(c, y, j) && FirstInWindow(c, y, k1);
      FirstInWindowUnique(c, y, k, k1);
      assert y.waiting[..k][j] == id;
    }
  }

  lemma {:induction false} AdmittingExact(w: World, c: Config, cache: seq<seq<KV>>, y: Sys, step: Step, budget: int, id: Id)
    requires ValidConfig(c.kv) && 0 <= budget && SysInv(w, c, cache, y, []) && Building(c, y, step)
    ensures id in OvertakenWhileAdmitting(c, y, step, budget) <==> PassedOver(c, y, step, budget, id)
    decreases |y.waiting|
  {
    hide SysInv, Building, AdmitScan, FirstInWindow, PassedNow, AdmissionAt, Before, NoDup;
    var r := AdmitOne(c, y, step, budget);
    if r.admitted {
      AdmitOneKept(w, c, cache, y, step, budget);
      AdmittingExact(w, c, cache, r.sys, r.step, r.budget, id);
      AdmitOneExact(w, c, cache, y, step, budget);
      var k: nat :| FirstInWindow(c, y, k);
      FrontPassed(c, y, k, id);
      RunningNoDup(w, c, cache, y);
      BeforeIs(y.waiting, k);
      assert AdmittedAt(y, step, r, k);
    }
  }

  /** The same for a whole round: `id` is passed over at one of its admissions. */
  ghost predicate PassedInRound(c: Config, y: Sys, late: set<Id>, id: Id)
    requires ValidConfig(c.kv)
  {
    var (y1, mid, dec0) := Settle(c, y);
    var (step1, budget1) := PrefillSlices(c, y1, mid, 0, EmptyStep, c.maxBatchedTokens);
    var dec := Truncated(dec0, budget1);
    && (c.continuous || y.batchOpen || y.running == [])
    && PassedOver(c, BumpWaits(ExpireQueue(c, y1, late), 0), step1, budget1 - |dec|, id)
  }

  /**
   In every reachable state: a request is overtaken in a round if and only if at one of the round's admissions
   it neither fits nor starves and the first request of the window that fits stands behind it.
   */
  lemma RoundOvertakenExactly(w: World, c: Config, cache: seq<seq<KV>>, inputs: seq<Input>, m: Machine, late: set<Id>, id: Id)
    requires Reached(w, c, cache, inputs, m)
    ensures ValidConfig(c.kv) && (id in Overtaken(c, m.sys, late) <==> PassedInRound(c, m.sys, late, id))
  {
    hide Reached, SysInv, Books, Candidates, Building, IdsIn, Settle, PrefillSlices, ExpireQueue, BumpWaits, PassedOver, OvertakenWhileAdmitting;
    ReachedInv(w, c, cache, inputs, m);
    ConfigOf(w, c, m.cache, m.sys, []);
    SettleKeeps(w, c, m.cache, m.sys);
    var (y1, mid, dec0) := Settle(c, m.sys);
    EmptyBuilding(c, y1);
    NoIds(mid);
    PrefillSlicesOk(w, c, m.cache, y1, mid, dec0, 0, EmptyStep, c.maxBatchedTokens);
    var (step1, budget1) := PrefillSlices(c, y1, mid, 0, EmptyStep, c.maxBatchedTokens);
    var y2 := ExpireQueue(c, y1, late);
    ExpireKeeps(w, c, m.cache, y1, late);
    BuildingFrame(c, y1, y2, step1);
    var y3 := BumpWaits(y2, 0);
    BumpKeeps(w, c, m.cache, y2, 0);
    BumpPool(y2, 0);
    BuildingFrame(c, y2, y3, step1);
    AdmittingExact(w, c, m.cache, y3, step1, budget1 - |Truncated(dec0, budget1)|, id);
  }

  // ---- what waiting costs ----

  lemma {:induction false} BumpOthers(y: Sys, j: nat, x: Id)
    requires x !in y.waiting
    ensures Wait(BumpWaits(y, j), x) == Wait(y, x)
    decreases |y.waiting| - j
  {
    if j < |y.waiting| {
      BumpOthers(SetSeq(y, y.waiting[j], Lookup(y, y.waiting[j]).(waitSteps := Lookup(y, y.waiting[j]).waitSteps + 1)), j + 1, x);
    }
  }

  lemma BumpedBy(w: World, c: Config, cache: seq<seq<KV>>, y: Sys, x: Id)
    requires SysInv(w, c, cache, y, [])
    ensures Wait(BumpWaits(y, 0), x) == Wait(y, x) + if x in y.waiting then 1 else 0
  {
    hide SysInv, BumpWaits, NoDup;
    RunningNoDup(w, c, cache, y);
    if x in y.waiting {
      var k: nat :| k < |y.waiting| && y.waiting[k] == x;
      BumpExact(y, 0, k);
    } else {
      BumpOthers(y, 0, x);
    }
  }

  /**
   In every reachable state and both modes: a round makes everybody who is still queued after settling and not
   late wait one step longer if it may admit, and changes no other waiting count.
   */
  lemma WaitExact(w: World, c: Config, cache: seq<seq<KV>>, inputs: seq<Input>, m: Machine, late: set<Id>, x: Id)
    requires Reached(w, c, cache, inputs, m)
    ensures ValidConfig(c.kv)
    ensures var queued := Settle(c, m.sys).0.waiting; var mayAdmit := c.continuous || m.sys.batchOpen || m.sys.running == [];
            Wait(Schedule(c, m.sys, late).0, x) == Wait(m.sys, x) + if mayAdmit && x in queued && x !in late then 1 else 0
  {
    hide Reached, SysInv, Books, PlaceDecodes, RetireLate, BumpWaits, AdmitAll, DecodeSlices, PrefillSlices, MidPrefill, Decoding, Expired, Punctual,
      Schedule, RejectHead, Wait, OvertakenWhileAdmitting, Candidates, Filter;
    ReachedInv(w, c, cache, inputs, m);
    ConfigOf(w, c, m.cache, m.sys, []);
    var y := m.sys;
    ScheduleIs(c, y, late);
    var y0 := Started(c, y);
    StartedWaits(c, y);
    PlaceWaits(c, y0, MidPrefill(y0, y0.running), Decoding(y0, y0.running), 0);
    SettleKeeps(w, c, m.cache, y);
    var (y1, mid, dec0) := Settle(c, y);
    var (step1, budget1) := PrefillSlices(c, y1, mid, 0, EmptyStep, c.maxBatchedTokens);
    var dec := Truncated(dec0, budget1);
    var q := y1.(waiting := Punctual(y1, y1.waiting, late));
    QueueWaits(y1, q);
    RetireLateWaits(c, q, Expired(y1, y1.waiting, late), 0);
    var y2 := ExpireQueue(c, y1, late);
    ExpireKeeps(w, c, m.cache, y1, late);
    StillQueued(w, c, m.cache, y1, late, x);
    if c.continuous || y.batchOpen || y.running == [] {
      BumpedBy(w, c, m.cache, y2, x);
      var y3 := BumpWaits(y2, 0);
      AdmittingFair(c, y3, step1, budget1 - |dec|);
      var (y4, step4, budget4) := AdmitAll(c, y3, step1, budget1 - |dec|);
      QueueWaits(y4, CloseBatch(c, y4, budget4));
      RejectWaits(c, CloseBatch(c, y4, budget4), dec);
    }
  }

  lemma StillQueued(w: World, c: Config, cache: seq<seq<KV>>, y: Sys, late: set<Id>, x: Id)
    requires SysInv(w, c, cache, y, [])
    ensures x in Punctual(y, y.waiting, late) <==> x in y.waiting && x !in late
  {
    hide SysInv, Punctual, IsSub;
    PunctualIsSub(y, y.waiting, late);
    if x in y.waiting {
      WaitingEmpty(w, c, cache, y, x);
    }
  }
}
