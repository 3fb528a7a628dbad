/**
 Admission, exactly, for every lookahead and in both modes: which request a scan of the queue admits,
 whom it overtakes, and what it does to residents and queue.
 */
module Admitting {
  import opened Lists
  import opened Paging
  import opened BlockPool
  import opened Requests
  import opened PrefixCache
  import opened PrefixTree
  import opened CacheOps
  import opened Network
  import opened Contents
  import opened Reference
  import opened Scheduling
  import opened Roles
  import opened Safety
  import opened Steps
  import opened Fcfs

  // ---- whom a scan admits ----

  /** The watermark check passes and the pool has the blocks. */
  predicate Fits(c: Config, y: Sys, i: nat)
    requires ValidConfig(c.kv) && i < |y.waiting|
  {
    AdmissionFits(c, y, Lookup(y, y.waiting[i])) && Adopt(c, y, y.waiting[i]).Some?
  }

  predicate Starving(c: Config, y: Sys, i: nat)
    requires i < |y.waiting|
  {
    Lookup(y, y.waiting[i]).waitSteps >= c.starvationSteps
  }

  /** Position `k` fits, lies in the window from `i` to `limit`, and everyone before it there neither fits nor starves. */
  ghost predicate FirstFit(c: Config, y: Sys, i: nat, limit: nat, k: nat)
    requires ValidConfig(c.kv)
  {
    i <= k < limit && k < |y.waiting| && Fits(c, y, k) && forall j :: i <= j < k ==> !Fits(c, y, j) && !Starving(c, y, j)
  }

  /**
   Position `k` fits, is the head or lies within `lookahead` of the front, and everyone before it neither fits nor
   starves.
   */
  ghost predicate FirstInWindow(c: Config, y: Sys, k: nat)
    requires ValidConfig(c.kv)
  {
    (k == 0 || k < c.lookahead) && k < |y.waiting| && Fits(c, y, k) && forall j :: 0 <= j < k ==> !Fits(c, y, j) && !Starving(c, y, j)
  }

  /** The scan's limit is that window. */
  lemma WindowIs(c: Config, y: Sys, k: nat)
    requires ValidConfig(c.kv)
    ensures FirstFit(c, y, 0, AdmitLimit(c, y), k) <==> FirstInWindow(c, y, k)
  {
    hide Fits, Starving;
  }

  lemma FirstInWindowUnique(c: Config, y: Sys, k: nat, k1: nat)
    requires ValidConfig(c.kv) && FirstInWindow(c, y, k) && FirstInWindow(c, y, k1)
    ensures k == k1
  {
    hide Fits, Starving;
  }

  lemma FirstFitUnique(c: Config, y: Sys, i: nat, limit: nat, k: nat, k1: nat)
    requires ValidConfig(c.kv) && FirstFit(c, y, i, limit, k) && FirstFit(c, y, i, limit, k1)
    ensures k == k1
  {
    hide Fits, Starving;
  }

  lemma FirstFitNext(c: Config, y: Sys, i: nat, limit: nat, k: nat)
    requires ValidConfig(c.kv) && i < |y.waiting| && !Fits(c, y, i) && !Starving(c, y, i)
    ensures FirstFit(c, y, i, limit, k) <==> FirstFit(c, y, i + 1, limit, k)
  {
    hide Fits, Starving;
  }

  /** The scan admits exactly the first fit of its window, and nobody if there is none. */
  lemma {:induction false} ScanExact(w: World, c: Config, cache: seq<seq<KV>>, y: Sys, step: Step, budget: int, i: nat, limit: nat)
    requires ValidConfig(c.kv) && budget > 0 && SysInv(w, c, cache, y, []) && Building(c, y, step)
    ensures var r := AdmitScan(c, y, step, budget, i, limit);
            && (r.admitted <==> exists k: nat :: FirstFit(c, y, i, limit, k))
            && (forall k: nat :: FirstFit(c, y, i, limit, k) ==> AdmittedAt(y, step, r, k) && r == AdmissionAt(c, y, step, budget, k))
    decreases limit - i
  {
    hide SysInv, Building, Adopt, AdmissionFits, Start, SameResidents, AdmittedAt, AdmissionAt;
    if i < limit && i < |y.waiting| {
      var id := y.waiting[i];
      WaitingEmpty(w, c, cache, y, id);
      if Fits(c, y, i) {
        AdmitAtKeeps(w, c, cache, y, step, budget, i);
        AdmissionAtIs(c, y, step, budget, i);
        assert FirstFit(c, y, i, limit, i);
        forall k: nat | FirstFit(c, y, i, limit, k) ensures k == i {
          FirstFitUnique(c, y, i, limit, k, i);
        }
      } else if Starving(c, y, i) {
        forall k: nat ensures !FirstFit(c, y, i, limit, k) {
        }
      } else {
        ScanExact(w, c, cache, y, step, budget, i + 1, limit);
        forall k: nat ensures FirstFit(c, y, i, limit, k) <==> FirstFit(c, y, i + 1, limit, k) {
          FirstFitNext(c, y, i, limit, k);
        }
        if AdmitScan(c, y, step, budget, i + 1, limit).admitted {
          var k: nat :| FirstFit(c, y, i + 1, limit, k);
          assert FirstFit(c, y, i, limit, k);
        }
        if k: nat :| FirstFit(c, y, i, limit, k) {
          assert FirstFit(c, y, i + 1, limit, k);
        }
      }
    }
  }

  /** Adopting the cached prefix of the request at position `k` and starting it. */
  function AdmissionAt(c: Config, y: Sys, step: Step, budget: int, k: nat): Admission
    requires ValidConfig(c.kv) && k < |y.waiting|
  {
    match Adopt(c, y, y.waiting[k])
    case Some(y1) => if k < |y1.waiting| then Start(c, y1, step, budget, k) else Admission(false, y, step, budget)
    case None => Admission(false, y, step, budget)
  }

  lemma AdmissionAtIs(c: Config, y: Sys, step: Step, budget: int, k: nat)
    requires ValidConfig(c.kv) && k < |y.waiting| && Adopt(c, y, y.waiting[k]).Some? && k < |Adopt(c, y, y.waiting[k]).value.waiting|
    ensures AdmissionAt(c, y, step, budget, k) == Start(c, Adopt(c, y, y.waiting[k]).value, step, budget, k)
  {
  }

  /** `admit_one` with budget left and a free place. */
  lemma AdmitOneExact(w: World, c: Config, cache: seq<seq<KV>>, y: Sys, step: Step, budget: int)
    requires ValidConfig(c.kv) && budget > 0 && |y.running| < c.maxNumSeqs && y.waiting != [] && SysInv(w, c, cache, y, []) && Building(c, y, step)
    ensures var r := AdmitOne(c, y, step, budget);
            && (r.admitted <==> exists k: nat :: FirstInWindow(c, y, k))
            && (forall k: nat :: FirstInWindow(c, y, k) ==> AdmittedAt(y, step, r, k) && r == AdmissionAt(c, y, step, budget, k))
  {
    hide SysInv, Building, AdmitScan, FirstFit, FirstInWindow, AdmittedAt, AdmissionAt;
    ScanExact(w, c, cache, y, step, budget, 0, AdmitLimit(c, y));
    forall k: nat ensures FirstFit(c, y, 0, AdmitLimit(c, y), k) <==> FirstInWindow(c, y, k) {
      WindowIs(c, y, k);
    }
    if k: nat :| FirstFit(c, y, 0, AdmitLimit(c, y), k) {
      assert FirstInWindow(c, y, k);
    }
    if k: nat :| FirstInWindow(c, y, k) {
      assert FirstFit(c, y, 0, AdmitLimit(c, y), k);
    }
  }

  /** Somebody who stood behind queue position `j` became resident. */
  ghost predicate OvertookAt(y: Sys, y1: Sys, j: nat) {
    exists k: nat :: j < k < |y.waiting| && y1.running == y.running + [y.waiting[k]] && y1.waiting == RemoveAt(y.waiting, k)
  }

  /**
   A request is overtaken by an admission if and only if it does not fit, does not starve, and the scan
   gets past everyone else in front of some later request of the window that fits.
   */
  lemma OvertakenExactly(w: World, c: Config, cache: seq<seq<KV>>, y: Sys, step: Step, budget: int, j: nat)
    requires ValidConfig(c.kv) && budget > 0 && |y.running| < c.maxNumSeqs && j < |y.waiting| && SysInv(w, c, cache, y, []) && Building(c, y, step)
    ensures var r := AdmitOne(c, y, step, budget);
            r.admitted && OvertookAt(y, r.sys, j) <==>
            !Fits(c, y, j) && !Starving(c, y, j) && exists k: nat :: j < k && FirstInWindow(c, y, k)
  {
    hide SysInv, Building, AdmitOne, Fits, Starving, AdmissionAt;
    AdmitOneExact(w, c, cache, y, step, budget);
    var r := AdmitOne(c, y, step, budget);
    if r.admitted && OvertookAt(y, r.sys, j) {
      var k: nat :| FirstInWindow(c, y, k);
      var k1: nat :| j < k1 < |y.waiting| && r.sys.running == y.running + [y.waiting[k1]] && r.sys.waiting == RemoveAt(y.waiting, k1);
      assert AdmittedAt(y, step, r, k);
      RunningNoDup(w, c, cache, y);
      LastSame(y.running, y.waiting[k], y.waiting[k1]);
    }
  }

  lemma LastSame(l: seq<Id>, a: Id, b: Id)
    requires l + [a] == l + [b]
    ensures a == b
  {
    assert (l + [a])[|l|] == a && (l + [b])[|l|] == b;
  }

  // ---- what admission does to residents and queue ----

  /** Waiting one round longer changes nothing else about a queued request. */
  lemma {:induction false} BumpExact(y: Sys, j: nat, k: nat)
    requires NoDup(y.waiting) && k < |y.waiting|
    ensures var s := Lookup(y, y.waiting[k]); Lookup(BumpWaits(y, j), y.waiting[k]) == s.(waitSteps := s.waitSteps + if j <= k then 1 else 0)
    decreases |y.waiting| - j
  {
    if j < |y.waiting| {
      var s := Lookup(y, y.waiting[j]);
      var y1 := SetSeq(y, y.waiting[j], s.(waitSteps := s.waitSteps + 1));
      BumpExact(y1, j + 1, k);
    }
  }

  /** Some resident is not finished. */
  ghost predicate AnyLive(y: Sys) {
    exists i :: 0 <= i < |y.running| && !IsFinished(Lookup(y, y.running[i]))
  }

  /** The same sequences, each for the same request and with the same outcome so far. */
  ghost predicate SameRequests(y: Sys, y1: Sys) {
    && y1.seqs.Keys == y.seqs.Keys
    && (forall x :: x in y.seqs ==> y1.seqs[x].promptLen == y.seqs[x].promptLen && y1.seqs[x].params == y.seqs[x].params && y1.seqs[x].finish == y.seqs[x].finish)
  }

  ghost predicate SameMembers(y: Sys, y1: Sys) {
    |Line(y1)| == |Line(y)| && forall x :: x in Line(y) <==> x in Line(y1)
  }

  /** Requests moved from the queue to the residents, who are otherwise as they were. */
  ghost predicate Joined(y: Sys, y1: Sys) {
    && SameRequests(y, y1) && SameMembers(y, y1) && SameResidents(y, y1) && y1.batchOpen == y.batchOpen
    && |y1.running| >= |y.running| && (|y1.running| > |y.running| ==> AnyLive(y1))
  }

  lemma JoinedTrans(y: Sys, y1: Sys, y2: Sys)
    requires Joined(y, y1) && Joined(y1, y2)
    requires AnyLive(y1) ==> AnyLive(y2)
    ensures Joined(y, y2)
  {
    hide Line, AnyLive;
    SameResidentsTrans(y, y1, y2);
  }

  lemma LiveStays(y: Sys, y1: Sys)
    requires SameResidents(y, y1) && AnyLive(y) && forall x :: x in y.running ==> x in y.seqs
    ensures AnyLive(y1)
  {
    var i :| 0 <= i < |y.running| && !IsFinished(Lookup(y, y.running[i]));
    assert y.running[i] in y.running;
    assert y1.running[i] == y.running[i] && Lookup(y1, y1.running[i]) == Lookup(y, y.running[i]);
  }

  lemma AdmitAtJoins(w: World, c: Config, cache: seq<seq<KV>>, y: Sys, step: Step, budget: int, k: nat)
    requires ValidConfig(c.kv) && k < |y.waiting| && budget > 0 && SysInv(w, c, cache, y, []) && Building(c, y, step)
    requires Adopt(c, y, y.waiting[k]).Some?
    ensures k < |Adopt(c, y, y.waiting[k]).value.waiting|
    ensures var r := Start(c, Adopt(c, y, y.waiting[k]).value, step, budget, k);
            r.admitted && Joined(y, r.sys) && |r.sys.running| == |y.running| + 1 && |r.step.slices| > |step.slices|
  {
    hide SysInv, Building, Adopt, KvOk, RoleOk, Span;
    var id := y.waiting[k];
    AdmitAtKeeps(w, c, cache, y, step, budget, k);
    AdoptFacts(w, c, cache, y, id);
    var r := Start(c, Adopt(c, y, id).value, step, budget, k);
    assert r.sys.seqs == y.seqs[id := r.sys.seqs[id]];
    MoveMembers(y, r.sys, k);
    assert r.sys.running[|y.running|] == id && !IsFinished(Lookup(r.sys, id));
  }

  lemma MoveMembers(y: Sys, y1: Sys, k: nat)
    requires k < |y.waiting| && y1.running == y.running + [y.waiting[k]] && y1.waiting == RemoveAt(y.waiting, k)
    ensures SameMembers(y, y1)
  {
    forall x ensures x in Line(y) <==> x in Line(y1) {
      assert x in Line(y) <==> x in y.running || x in y.waiting;
      assert x in Line(y1) <==> x in y1.running || x in y1.waiting;
      assert y.waiting == y.waiting[..k] + [y.waiting[k]] + y.waiting[k + 1..];
    }
  }

  lemma AdmitOneJoins(w: World, c: Config, cache: seq<seq<KV>>, y: Sys, step: Step, budget: int)
    requires ValidConfig(c.kv) && 0 <= budget && SysInv(w, c, cache, y, []) && Building(c, y, step)
    ensures var r := AdmitOne(c, y, step, budget);
            if r.admitted then Joined(y, r.sys) && |r.sys.running| > |y.running| && |r.step.slices| > |step.slices|
            else r.sys == y && r.step == step && r.budget == budget
  {
    hide SysInv, Building, AdmitScan, FirstInWindow, Joined, AdmittedAt, Start, Adopt;
    if y.waiting != [] && budget > 0 && |y.running| < c.maxNumSeqs {
      ScanKeeps(w, c, cache, y, step, budget, 0, AdmitLimit(c, y));
      AdmitOneExact(w, c, cache, y, step, budget);
      var r := AdmitOne(c, y, step, budget);
      if r.admitted {
        var k: nat :| FirstInWindow(c, y, k);
        FirstFitParts(c, y, k);
        AdmitAtJoins(w, c, cache, y, step, budget, k);
      }
    }
  }

  lemma FirstFitParts(c: Config, y: Sys, k: nat)
    requires ValidConfig(c.kv) && FirstInWindow(c, y, k)
    ensures k < |y.waiting| && Adopt(c, y, y.waiting[k]).Some?
  {
  }

  lemma {:induction false} AdmitAllJoins(w: World, c: Config, cache: seq<seq<KV>>, y: Sys, step: Step, budget: int)
    requires ValidConfig(c.kv) && 0 <= budget && SysInv(w, c, cache, y, []) && Building(c, y, step)
    ensures var (y1, step1, budget1) := AdmitAll(c, y, step, budget);
            && Joined(y, y1)
            && (if AdmitOne(c, y, step, budget).admitted then |y1.running| > |y.running| && |step1.slices| > |step.slices|
                else y1 == y && step1 == step && budget1 == budget)
    decreases |y.waiting|
  {
    hide SysInv, Building, AdmitOne, Joined;
    AdmitOneJoins(w, c, cache, y, step, budget);
    var r := AdmitOne(c, y, step, budget);
    if r.admitted {
      AdmitOneKept(w, c, cache, y, step, budget);
      AdmitAllJoins(w, c, cache, r.sys, r.step, r.budget);
      JoinedOn(w, c, cache, y, r.sys, AdmitAll(c, r.sys, r.step, r.budget).0);
    } else {
      JoinedSame(y);
    }
  }

  lemma AdmitOneKept(w: World, c: Config, cache: seq<seq<KV>>, y: Sys, step: Step, budget: int)
    requires ValidConfig(c.kv) && 0 <= budget && SysInv(w, c, cache, y, []) && Building(c, y, step)
    ensures var r := AdmitOne(c, y, step, budget); SysInv(w, c, cache, r.sys, []) && Building(c, r.sys, r.step) && 0 <= r.budget
  {
    hide SysInv, Building, AdmitScan;
    if y.waiting != [] && budget > 0 && |y.running| < c.maxNumSeqs {
      ScanKeeps(w, c, cache, y, step, budget, 0, AdmitLimit(c, y));
    }
  }

  lemma JoinedOn(w: World, c: Config, cache: seq<seq<KV>>, y: Sys, y1: Sys, y2: Sys)
    requires Joined(y, y1) && Joined(y1, y2) && SysInv(w, c, cache, y1, [])
    ensures Joined(y, y2) && |y2.running| >= |y1.running|
  {
    hide SysInv, SameRequests, SameMembers, SameResidents, AnyLive;
    LineNoDup(w, c, cache, y1);
    if AnyLive(y1) { LiveStays(y1, y2); }
    JoinedTrans(y, y1, y2);
  }

  lemma JoinedSame(y: Sys)
    ensures Joined(y, y)
  {
  }

  lemma {:induction false} BumpJoins(w: World, c: Config, cache: seq<seq<KV>>, y: Sys, j: nat)
    requires SysInv(w, c, cache, y, [])
    ensures Joined(y, BumpWaits(y, j))
    decreases |y.waiting| - j
  {
    hide SysInv, Joined;
    if j < |y.waiting| {
      var id := y.waiting[j];
      BumpOneKeeps(w, c, cache, y, id);
      var y1 := SetSeq(y, id, Lookup(y, id).(waitSteps := Lookup(y, id).waitSteps + 1));
      BumpJoins(w, c, cache, y1, j + 1);
      BumpOneJoins(y, id);
      JoinedOn(w, c, cache, y, y1, BumpWaits(y1, j + 1));
    } else {
      JoinedSame(y);
    }
  }

  lemma BumpOneJoins(y: Sys, id: Id)
    requires id in y.seqs && id !in y.running
    ensures Joined(y, SetSeq(y, id, Lookup(y, id).(waitSteps := Lookup(y, id).waitSteps + 1)))
  {
  }
}
