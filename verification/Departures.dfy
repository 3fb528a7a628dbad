/**
 How a request leaves before its time: cancelled by its client, or found in the queue past its deadline.
 */
module Departures {
  import opened Lists
  import opened Paging
  import opened BlockPool
  import opened Requests
  import opened PrefixCache
  import opened PrefixTree
  import opened CacheOps
  import opened Network
  import opened Contents
  import opened Reference
  import opened Scheduling
  import opened Roles
  import opened Safety

  /** Each block lost exactly the owners that `t` gave it. */
  ghost predicate HandedBack(p: Pool, p1: Pool, t: Table) {
    forall b: nat :: Get(p1.refs, b) + multiset(t.blocks)[b] == Get(p.refs, b)
  }

  /** `id` has left queue and batch for the reason `r`: its sequence is over and owns nothing, and the client was told once. */
  ghost predicate LeftWith(y: Sys, y1: Sys, id: Id, r: Finish) {
    && id in y.seqs && y1.seqs == y.seqs[id := y.seqs[id].(table := EmptyTable, status := Finished, finish := r)]
    && y1.waiting == Filter(y.waiting, x => x != id) && y1.running == Filter(y.running, x => x != id)
    && y1.log == y.log + [Ended(id, r)] && y1.stats == y.stats.(finished := y.stats.finished + 1)
    && y1.batchOpen == y.batchOpen && y1.order == y.order && y1.executed == y.executed && y1.adopted == y.adopted
    && HandedBack(y.pool, y1.pool, y.seqs[id].table)
  }

  /** What a cancellation does: whoever is queued or resident leaves with reason `Abort`, for anyone else nothing happens. */
  ghost predicate Cancelled(y: Sys, y1: Sys, id: Id) {
    && id !in y1.waiting && id !in y1.running
    && if id in y.waiting || id in y.running then LeftWith(y, y1, id, Abort) else y1 == y
  }

  lemma WithoutIsFilter(l: seq<Id>, id: Id)
    requires NoDup(l)
    ensures Without(l, id) == Filter(l, x => x != id)
    ensures id !in Without(l, id)
  {
    WithoutNoDup(l, id);
    SubWithout(l, id);
    SubIsFilter(Without(l, id), l, x => x != id);
  }

  /** Dropping a sequence's table takes exactly its entries off the counts. */
  lemma Counts(w: World, c: Config, cache: seq<seq<KV>>, y: Sys, y1: Sys, id: Id)
    requires id in y.seqs && id in y1.seqs && y1.order == y.order && y1.seqs == y.seqs[id := y1.seqs[id]] && y1.seqs[id].table == EmptyTable
    requires SysInv(w, c, cache, y, []) && SysInv(w, c, cache, y1, [])
    ensures HandedBack(y.pool, y1.pool, y.seqs[id].table)
  {
    hide *;
    InvParts(w, c, cache, y, []);
    InvParts(w, c, cache, y1, []);
    OpenKv(w, cache, y.pool, y.seqs, y.order);
    OpenKv(w, cache, y1.pool, y1.seqs, y1.order);
    OpenCache(w.c, w.universe, y.pool, y.seqs, y.order);
    OpenCache(w.c, w.universe, y1.pool, y1.seqs, y1.order);
    TakenOff(y.pool, y1.pool, y.seqs, y1.seqs, y.order, id);
  }

  lemma TakenOff(p: Pool, p1: Pool, seqs: map<Id, Sequence>, seqs1: map<Id, Sequence>, order: seq<Id>, id: Id)
    requires OrderInv(seqs, order) && id in seqs && id in seqs1 && seqs1 == seqs[id := seqs1[id]] && seqs1[id].table == EmptyTable
    requires CountInv(p, Owned(seqs, order)) && CountInv(p1, Owned(seqs1, order))
    ensures HandedBack(p, p1, seqs[id].table)
  {
    hide Owned, NoDup;
    OwnedSplit(seqs, order, id);
    LiftOwned(seqs, order, id, seqs1[id]);
  }

  /** A cancellation cancels, whoever is hit and in both modes. */
  lemma AbortCancels(w: World, c: Config, cache: seq<seq<KV>>, y: Sys, id: Id)
    requires SysInv(w, c, cache, y, [])
    ensures Cancelled(y, AbortRequest(c, y, id), id)
  {
    hide SysInv, Retire, Filter, HandedBack, NoDup;
    RunningNoDup(w, c, cache, y);
    WithoutIsFilter(y.waiting, id);
    WithoutIsFilter(y.running, id);
    if id in y.waiting || id in y.running {
      InQueues(w, c, cache, y, [], id);
      OneQueue(w, c, y.seqs[id], id in y.waiting, id in y.running);
      WithoutAbsentIf(y.waiting, id);
      WithoutAbsentIf(y.running, id);
      AbortKeeps(w, c, cache, y, id);
      RetireFrame(c, y.(waiting := Without(y.waiting, id)), id, Abort);
      RetireFrame(c, y.(running := Without(y.running, id)), id, Abort);
      Counts(w, c, cache, y, AbortRequest(c, y, id), id);
    }
  }

  lemma OneQueue(w: World, c: Config, s: Sequence, inWaiting: bool, inRunning: bool)
    requires RoleOk(w, c, s, inWaiting, inRunning, false)
    ensures !(inWaiting && inRunning)
  {
  }

  lemma WithoutAbsentIf(l: seq<Id>, id: Id)
    ensures id !in l ==> Without(l, id) == l
  {
    if id !in l { WithoutAbsent(l, id); }
  }

  // ---- deadlines ----

  /** The callbacks for a list of requests that end for the same reason. */
  function Endings(ids: seq<Id>, r: Finish): seq<Event> {
    seq(|ids|, i requires 0 <= i < |ids| => Ended(ids[i], r))
  }

  /** Exactly the queued requests that are late have ended with `Timeout`, in queue order; nobody else is touched. */
  ghost predicate ExpiredFrom(y: Sys, y1: Sys, late: set<Id>) {
    var gone := Filter(y.waiting, x => x in late);
    && y1.waiting == Filter(y.waiting, x => x !in late) && y1.running == y.running && y1.batchOpen == y.batchOpen && y1.order == y.order
    && y1.log == y.log + Endings(gone, Timeout)
    && y1.stats == y.stats.(finished := y.stats.finished + |gone|, timedOut := y.stats.timedOut + |gone|)
    && y1.seqs.Keys == y.seqs.Keys
    && (forall x :: x in y.seqs && x in y.waiting && x in late ==> y1.seqs[x] == y.seqs[x].(status := Finished, finish := Timeout))
    && (forall x :: x in y.seqs && !(x in y.waiting && x in late) ==> y1.seqs[x] == y.seqs[x])
  }

  /** The same while `ids[j..]` are still to leave. */
  ghost predicate LeftSoFar(y: Sys, y1: Sys, ids: seq<Id>, j: nat)
    requires j <= |ids|
  {
    && y1 == y.(pool := y1.pool, seqs := y1.seqs, log := y1.log, stats := y1.stats)
    && y1.log == y.log + Endings(ids[..j], Timeout)
    && y1.stats == y.stats.(finished := y.stats.finished + j, timedOut := y.stats.timedOut + j)
    && y1.seqs.Keys == y.seqs.Keys
    && (forall x :: x in y.seqs && x in ids[..j] ==> y1.seqs[x] == y.seqs[x].(table := EmptyTable, status := Finished, finish := Timeout))
    && (forall x :: x in y.seqs && x !in ids[..j] ==> y1.seqs[x] == y.seqs[x])
  }

  lemma LeaveNext(c: Config, y: Sys, y1: Sys, ids: seq<Id>, j: nat)
    requires j < |ids| && ids[j] in y.seqs && LeftSoFar(y, y1, ids, j)
    ensures LeftSoFar(y, Retire(c, y1.(stats := y1.stats.(timedOut := y1.stats.timedOut + 1)), ids[j], Timeout), ids, j + 1)
  {
    hide Retire;
    var y0 := y1.(stats := y1.stats.(timedOut := y1.stats.timedOut + 1));
    RetireFrame(c, y0, ids[j], Timeout);
    assert ids[..j + 1] == ids[..j] + [ids[j]];
    assert Endings(ids[..j + 1], Timeout) == Endings(ids[..j], Timeout) + [Ended(ids[j], Timeout)];
  }

  lemma {:induction false} LeaveAll(c: Config, y: Sys, y1: Sys, ids: seq<Id>, j: nat)
    requires j <= |ids| && (forall x :: x in ids ==> x in y.seqs) && LeftSoFar(y, y1, ids, j)
    ensures LeftSoFar(y, RetireLate(c, y1, ids, j), ids, |ids|)
    decreases |ids| - j
  {
    hide Retire, LeftSoFar;
    if j < |ids| {
      assert ids[j] in ids;
      LeaveNext(c, y, y1, ids, j);
      LeaveAll(c, y, Retire(c, y1.(stats := y1.stats.(timedOut := y1.stats.timedOut + 1)), ids[j], Timeout), ids, j + 1);
    }
  }

  lemma LateAre(w: World, c: Config, cache: seq<seq<KV>>, y: Sys, late: set<Id>)
    requires SysInv(w, c, cache, y, [])
    ensures Expired(y, y.waiting, late) == Filter(y.waiting, x => x in late)
    ensures Punctual(y, y.waiting, late) == Filter(y.waiting, x => x !in late)
    ensures forall x :: x in Expired(y, y.waiting, late) <==> x in y.waiting && x in late
    ensures forall x :: x in y.waiting ==> x in y.seqs && y.seqs[x].table == EmptyTable
  {
    hide SysInv, Expired, Punctual, IsSub, NoDup;
    RunningNoDup(w, c, cache, y);
    ExpiredIsSub(y, y.waiting, late);
    PunctualIsSub(y, y.waiting, late);
    forall x | x in y.waiting ensures x in y.seqs && y.seqs[x].table == EmptyTable {
      InQueues(w, c, cache, y, [], x);
      QueuedTable(w, c, y.seqs[x], x in y.running);
    }
    SubIsFilter(Expired(y, y.waiting, late), y.waiting, x => x in late);
    SubIsFilter(Punctual(y, y.waiting, late), y.waiting, x => x !in late);
  }

  lemma QueuedTable(w: World, c: Config, s: Sequence, inRunning: bool)
    requires RoleOk(w, c, s, true, inRunning, false)
    ensures s.table == EmptyTable
  {
  }

  /** Expiry ends exactly the late members of the queue. */
  lemma ExpireExact(w: World, c: Config, cache: seq<seq<KV>>, y: Sys, late: set<Id>)
    requires SysInv(w, c, cache, y, [])
    ensures ExpiredFrom(y, ExpireQueue(c, y, late), late)
  {
    hide SysInv, Expired, Punctual, RetireLate, Filter;
    LateAre(w, c, cache, y, late);
    var ids := Expired(y, y.waiting, late);
    var y0 := y.(waiting := Punctual(y, y.waiting, late));
    assert ids[..0] == [];
    LeaveAll(c, y0, y0, ids, 0);
    assert ids[..|ids|] == ids;
  }
}
