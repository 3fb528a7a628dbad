/** Every scheduler transition keeps the invariant. */
module Safety {
  import opened Lists
  import opened Paging
  import opened BlockPool
  import opened Requests
  import opened PrefixCache
  import opened PrefixTree
  import opened CacheOps
  import opened Network
  import opened Contents
  import opened Reference
  import opened Scheduling
  import opened Roles

  // ---- one sequence out of its role ----

  lemma ConfigOf(w: World, c: Config, cache: seq<seq<KV>>, y: Sys, done: seq<Id>)
    requires SysInv(w, c, cache, y, done)
    ensures c.kv == w.c && ValidPolicy(c) && ValidConfig(c.kv)
  {
    hide KvOk, RolesInv;
  }

  lemma LeaveRunning(w: World, c: Config, cache: seq<seq<KV>>, y: Sys, done: seq<Id>, id: Id)
    requires id in y.running && SysInv(w, c, cache, y, done)
    ensures SysBut(w, c, cache, y.(running := Without(y.running, id)), done, id)
  {
    hide KvOk, WaitingOk, ResidentOk, PaddedOk, LeavingOk, OutOk;
    TakeOut(w, c, y.seqs, QueuesOf(y, done), id);
    RoleOf(w, c, y.seqs, QueuesOf(y, done), id);
    WithoutNot(y.waiting, id);
    WithoutNot(done, id);
    hide RolesInv, RolesBut;
  }

  lemma LeaveWaiting(w: World, c: Config, cache: seq<seq<KV>>, y: Sys, done: seq<Id>, id: Id)
    requires id in y.waiting && SysInv(w, c, cache, y, done)
    ensures SysBut(w, c, cache, y.(waiting := Without(y.waiting, id)), done, id)
  {
    hide KvOk, WaitingOk, ResidentOk, PaddedOk, LeavingOk, OutOk;
    TakeOut(w, c, y.seqs, QueuesOf(y, done), id);
    RoleOf(w, c, y.seqs, QueuesOf(y, done), id);
    WithoutNot(y.running, id);
    WithoutNot(done, id);
    hide RolesInv, RolesBut;
  }

  lemma LeaveDone(w: World, c: Config, cache: seq<seq<KV>>, y: Sys, done: seq<Id>, id: Id)
    requires id in done && SysInv(w, c, cache, y, done)
    ensures SysBut(w, c, cache, y, Without(done, id), id)
  {
    hide KvOk, WaitingOk, ResidentOk, PaddedOk, LeavingOk, OutOk;
    TakeOut(w, c, y.seqs, QueuesOf(y, done), id);
    RoleOf(w, c, y.seqs, QueuesOf(y, done), id);
    WithoutNot(y.running, id);
    WithoutNot(y.waiting, id);
    hide RolesInv, RolesBut;
  }

  lemma DropBut(w: World, c: Config, cache: seq<seq<KV>>, y: Sys, done: seq<Id>, id: Id)
    requires id in y.seqs && SysBut(w, c, cache, y, done, id)
    ensures SysBut(w, c, cache, Drop(c, y, id), done, id)
    ensures Drop(c, y, id).seqs == y.seqs[id := y.seqs[id].(table := EmptyTable)]
  {
    hide KvOk, RolesBut, Free;
    FreeOk(w, cache, y.pool, y.seqs, y.order, id);
    ChangeOut(w, c, y.seqs, QueuesOf(y, done), id, y.seqs[id].(table := EmptyTable));
  }

  /** Change fields other than the table; tokens may grow, computed positions may be forgotten. */
  lemma SetBut(w: World, c: Config, cache: seq<seq<KV>>, y: Sys, done: seq<Id>, id: Id, s: Sequence)
    requires ValidConfig(w.c) && id in y.seqs && s.table == y.seqs[id].table && y.seqs[id].tokens <= s.tokens && Kept(w.c, y.seqs[id], s)
    requires InPlay(w.universe, s.tokens)
    requires SysBut(w, c, cache, y, done, id)
    ensures SysBut(w, c, cache, SetSeq(y, id, s), done, id)
  {
    hide RolesBut, Kept;
    KvSet(w, cache, y.pool, y.seqs, y.order, id, s);
    ChangeOut(w, c, y.seqs, QueuesOf(y, done), id, s);
    hide KvOk;
  }

  lemma KvSet(w: World, cache: seq<seq<KV>>, p: Pool, seqs: map<Id, Sequence>, order: seq<Id>, id: Id, s: Sequence)
    requires ValidConfig(w.c) && id in seqs && s.table == seqs[id].table && seqs[id].tokens <= s.tokens && Kept(w.c, seqs[id], s)
    requires InPlay(w.universe, s.tokens)
    requires KvOk(w, cache, p, seqs, order)
    ensures KvOk(w, cache, p, seqs[id := s], order)
  {
    hide *;
    OpenKv(w, cache, p, seqs, order);
    OpenCache(w.c, w.universe, p, seqs, order);
    InPlaySet(w.universe, seqs, id, s);
    KeptOthers(w.c, seqs, id, s);
    FrameOk(w, cache, p, seqs, order, seqs[id := s]);
  }

  lemma InPlaySet(universe: set<seq<Token>>, seqs: map<Id, Sequence>, id: Id, s: Sequence)
    requires AllInPlay(universe, seqs) && InPlay(universe, s.tokens)
    ensures AllInPlay(universe, seqs[id := s])
  {
  }

  lemma SeqInPlay(w: World, c: Config, cache: seq<seq<KV>>, y: Sys, done: seq<Id>, id: Id)
    requires id in y.seqs && SysBut(w, c, cache, y, done, id)
    ensures InPlay(w.universe, y.seqs[id].tokens) && ValidConfig(w.c)
  {
    hide *;
    ButParts(w, c, cache, y, done, id);
    OpenKv(w, cache, y.pool, y.seqs, y.order);
    OpenCache(w.c, w.universe, y.pool, y.seqs, y.order);
    InPlayOf(w.universe, y.seqs, id);
  }

  lemma ButParts(w: World, c: Config, cache: seq<seq<KV>>, y: Sys, done: seq<Id>, id: Id)
    requires SysBut(w, c, cache, y, done, id)
    ensures KvOk(w, cache, y.pool, y.seqs, y.order) && c.kv == w.c && ValidPolicy(c) && ValidConfig(w.c) && RolesBut(w, c, y.seqs, QueuesOf(y, done), id)
  {
    hide KvOk, RolesBut;
  }

  lemma InvParts(w: World, c: Config, cache: seq<seq<KV>>, y: Sys, done: seq<Id>)
    requires SysInv(w, c, cache, y, done)
    ensures KvOk(w, cache, y.pool, y.seqs, y.order) && c.kv == w.c && ValidPolicy(c) && ValidConfig(w.c) && RolesInv(w, c, y.seqs, QueuesOf(y, done))
  {
    hide KvOk, RolesInv;
  }

  /** Status, finish reason, counters: nothing the cache looks at. */
  lemma RelabelBut(w: World, c: Config, cache: seq<seq<KV>>, y: Sys, done: seq<Id>, id: Id, s: Sequence)
    requires id in y.seqs && s.table == y.seqs[id].table && s.tokens == y.seqs[id].tokens && s.computed <= y.seqs[id].computed
    requires WellFormed(y.seqs[id])
    requires SysBut(w, c, cache, y, done, id)
    ensures SysBut(w, c, cache, SetSeq(y, id, s), done, id)
  {
    hide SysBut, SetSeq, InPlay;
    SeqInPlay(w, c, cache, y, done, id);
    KeptSame(w.c, y.seqs[id], s);
    hide Kept;
    SetBut(w, c, cache, y, done, id, s);
  }

  // ---- retiring ----

  /** The tokens so far may leave the engine with reason `r`. */
  ghost predicate MayEnd(w: World, s: Sequence, r: Finish) {
    && WellFormed(s) && InPlay(w.universe, RefOf(w.net, s)) && r != NoFinish && s.tokens <= RefOf(w.net, s)
    && (r == Stop || r == Length ==> s.tokens == RefOf(w.net, s))
  }

  lemma RetireBut(w: World, c: Config, cache: seq<seq<KV>>, y: Sys, done: seq<Id>, id: Id, r: Finish)
    requires id in y.seqs && MayEnd(w, y.seqs[id], r) && SysBut(w, c, cache, y, done, id)
    ensures SysInv(w, c, cache, Retire(c, y, id, r), done)
  {
    hide KvOk, RolesBut, InPlay, Free;
    var y1 := Drop(c, y, id);
    DropBut(w, c, cache, y, done, id);
    var s1 := y1.seqs[id].(status := Finished, finish := r);
    RelabelBut(w, c, cache, y1, done, id, s1);
    var y2 := SetSeq(y1, id, s1);
    assert RoleOk(w, c, s1, false, false, false);
    PutOut(w, c, y2.seqs, QueuesOf(y2, done), id);
  }

  lemma WaitingMayEnd(w: World, c: Config, cache: seq<seq<KV>>, y: Sys, done: seq<Id>, id: Id, r: Finish)
    requires id in y.waiting && (r == Abort || r == Timeout) && SysInv(w, c, cache, y, done)
    ensures id in y.seqs && MayEnd(w, y.seqs[id], r)
  {
    hide KvOk, InPlay, ResidentOk, PaddedOk, LeavingOk, OutOk, RefOf;
    InQueues(w, c, cache, y, done, id);
    LivePrefix(w.net, y.seqs[id]);
  }

  lemma RunningMayEnd(w: World, c: Config, cache: seq<seq<KV>>, y: Sys, done: seq<Id>, id: Id)
    requires id in y.running && SysInv(w, c, cache, y, done)
    ensures id in y.seqs && MayEnd(w, y.seqs[id], Abort)
  {
    hide KvOk, InPlay, WaitingOk, LeavingOk, OutOk, RefOf;
    InQueues(w, c, cache, y, done, id);
    if ResidentOk(w, y.seqs[id]) { LivePrefix(w.net, y.seqs[id]); }
  }

  /** A queued sequence exists and plays its role. */
  lemma InQueues(w: World, c: Config, cache: seq<seq<KV>>, y: Sys, done: seq<Id>, id: Id)
    requires id in y.waiting || id in y.running || id in done
    requires SysInv(w, c, cache, y, done)
    ensures id in y.seqs && RoleOk(w, c, y.seqs[id], id in y.waiting, id in y.running, id in done)
  {
    hide KvOk, RoleOk;
  }

  lemma RetireWaiting(w: World, c: Config, cache: seq<seq<KV>>, y: Sys, done: seq<Id>, id: Id, r: Finish)
    requires id in y.waiting && (r == Abort || r == Timeout) && SysInv(w, c, cache, y, done)
    ensures SysInv(w, c, cache, Retire(c, y.(waiting := Without(y.waiting, id)), id, r), done)
  {
    hide *;
    WaitingMayEnd(w, c, cache, y, done, id, r);
    LeaveWaiting(w, c, cache, y, done, id);
    RetireBut(w, c, cache, y.(waiting := Without(y.waiting, id)), done, id, r);
  }

  lemma AbortKeeps(w: World, c: Config, cache: seq<seq<KV>>, y: Sys, id: Id)
    requires SysInv(w, c, cache, y, [])
    ensures SysInv(w, c, cache, AbortRequest(c, y, id), [])
  {
    hide SysInv, SysBut, Retire, Without;
    if id in y.waiting {
      RetireWaiting(w, c, cache, y, [], id, Abort);
    } else if id in y.running {
      RunningMayEnd(w, c, cache, y, [], id);
      LeaveRunning(w, c, cache, y, [], id);
      RetireBut(w, c, cache, y.(running := Without(y.running, id)), [], id, Abort);
    }
  }

  // ---- adding a request ----

  lemma {:induction false} OwnedAppend(seqs: map<Id, Sequence>, order: seq<Id>, id: Id, s: Sequence)
    requires id !in order && s.table.blocks == []
    ensures Owned(seqs[id := s], order + [id]) == Owned(seqs, order)
  {
    if order == [] {
      assert Owned(seqs[id := s], [id]) == multiset(s.table.blocks) + Owned(seqs[id := s], [id][1..]);
    } else {
      OwnedAppend(seqs, order[1..], id, s);
      assert (order + [id])[1..] == order[1..] + [id];
    }
  }

  lemma NewEntry(w: World, cache: seq<seq<KV>>, p: Pool, seqs: map<Id, Sequence>, order: seq<Id>, id: Id, s: Sequence)
    requires id !in seqs && s.table == EmptyTable && InPlay(w.universe, s.tokens) && KvOk(w, cache, p, seqs, order)
    ensures KvOk(w, cache, p, seqs[id := s], order + [id])
  {
    hide PoolInv, NoCollision, PublishedInv, LabelContents, Shape, LabelsInv, Closed, LruOrder, InPlay;
    assert OrderInv(seqs, order);
    OwnedAppend(seqs, order, id, s);
    assert TableInv(w.c, p, s.table, s.tokens);
    assert EntryLabels(w.c, p, s.table, s.tokens);
    assert SeqContent(w, cache, s);
    assert NoDup(order + [id]);
    hide TableInv, EntryLabels, SeqContent;
  }

  lemma AddKeeps(w: World, c: Config, cache: seq<seq<KV>>, y: Sys, id: Id, prompt: seq<Token>, params: SamplingParams)
    requires id !in y.seqs && prompt != [] && params.maxTokens >= 1 && InPlay(w.universe, RefOutput(w.net, params, prompt))
    requires SysInv(w, c, cache, y, [])
    ensures SysInv(w, c, cache, Add(y, id, prompt, params), [])
  {
    hide KvOk, Continue, InPlay, NoDup;
    var s := NewSequence(prompt, params);
    NewIsLive(w.net, s);
    LivePrefix(w.net, s);
    assert s.tokens[..s.promptLen] == prompt;
    InPlayPrefix(w.universe, prompt, RefOutput(w.net, params, prompt));
    NewEntry(w, cache, y.pool, y.seqs, y.order, id, s);
    NewRole(w, c, y.seqs, QueuesOf(y, []), id, s);
    assert RoleOk(w, c, s, true, false, false);
    InsertBack(y.waiting, id);
    hide RoleOk;
    PutWaiting(w, c, y.seqs[id := s], QueuesOf(y, []), id, y.waiting + [id]);
  }

  lemma NewRole(w: World, c: Config, seqs: map<Id, Sequence>, q: Queues, id: Id, s: Sequence)
    requires RolesInv(w, c, seqs, q) && id !in seqs
    ensures RolesBut(w, c, seqs[id := s], q, id)
  {
    hide RoleOk;
  }

  // ---- eviction ----

  /** A finished resident releases its blocks and leaves; its output was reported when it finished. */
  lemma ReleaseFinishedKeeps(w: World, c: Config, cache: seq<seq<KV>>, y: Sys, i: nat)
    requires i < |y.running| && IsFinished(Lookup(y, y.running[i])) && SysInv(w, c, cache, y, [])
    ensures SysInv(w, c, cache, ReleaseFinished(c, y, i), [])
  {
    hide KvOk, InPlay, WaitingOk, LeavingOk, Free, RolesBut, RefOutput;
    var id := y.running[i];
    InQueues(w, c, cache, y, [], id);
    RemoveAtIs(w, c, cache, y, i);
    LeaveRunning(w, c, cache, y, [], id);
    var y0 := y.(running := RemoveAt(y.running, i));
    DropBut(w, c, cache, y0, [], id);
    var y1 := Drop(c, y0, id);
    assert RoleOk(w, c, y1.seqs[id], false, false, false);
    PutOut(w, c, y1.seqs, QueuesOf(y1, []), id);
  }

  lemma RemoveAtIs(w: World, c: Config, cache: seq<seq<KV>>, y: Sys, i: nat)
    requires i < |y.running| && SysInv(w, c, cache, y, [])
    ensures RemoveAt(y.running, i) == Without(y.running, y.running[i])
  {
    hide KvOk, RoleOk;
    RemoveAtIsWithout(y.running, i);
  }

  /** The youngest resident goes back to the head of the queue with nothing computed. */
  lemma PreemptKeeps(w: World, c: Config, cache: seq<seq<KV>>, y: Sys)
    requires y.running != [] && !IsFinished(Lookup(y, y.running[|y.running| - 1])) && SysInv(w, c, cache, y, [])
    ensures SysInv(w, c, cache, PreemptYoungest(c, y), [])
  {
    hide KvOk, InPlay, WaitingOk, LeavingOk, Free, RolesBut, RefOf, Continue, OutOk;
    var n := |y.running| - 1;
    var id := y.running[n];
    InQueues(w, c, cache, y, [], id);
    RemoveAtIs(w, c, cache, y, n);
    assert RemoveAt(y.running, n) == y.running[..n];
    LeaveRunning(w, c, cache, y, [], id);
    var y0 := y.(running := y.running[..n]);
    DropBut(w, c, cache, y0, [], id);
    var y1 := Drop(c, y0, id);
    var s := y1.seqs[id];
    var s1 := s.(computed := 0, preemptions := s.preemptions + 1, status := Waiting);
    RelabelBut(w, c, cache, y1, [], id, s1);
    var y2 := SetSeq(y1, id, s1);
    RequeueRole(w, c, y.seqs[id], s1);
    NotQueued(w, c, y2.seqs, QueuesOf(y2, []), id);
    InsertBack(y2.waiting, id);
    PutWaiting(w, c, y2.seqs, QueuesOf(y2, []), id, [id] + y2.waiting);
  }

  lemma NotQueued(w: World, c: Config, seqs: map<Id, Sequence>, q: Queues, id: Id)
    requires RolesBut(w, c, seqs, q, id)
    ensures NoDup(q.waiting) && NoDup(q.running) && NoDup(q.done) && id !in q.waiting && id !in q.running && id !in q.done
  {
    hide RoleOk;
  }

  lemma RequeueRole(w: World, c: Config, s: Sequence, s1: Sequence)
    requires RoleOk(w, c, s, false, true, false) && !IsFinished(s)
    requires s1 == s.(table := EmptyTable, computed := 0, preemptions := s.preemptions + 1, status := Waiting)
    ensures RoleOk(w, c, s1, true, false, false)
  {
    hide Continue, InPlay;
  }

  lemma EvictKeeps(w: World, c: Config, cache: seq<seq<KV>>, y: Sys)
    requires SysInv(w, c, cache, y, [])
    ensures SysInv(w, c, cache, Evict(c, y), [])
  {
    hide SysInv, ReleaseFinished, PreemptYoungest;
    match LastFinished(y, |y.running|)
    case Some(i) =>
      ReleaseFinishedKeeps(w, c, cache, y, i);
    case None =>
      if y.running != [] {
        PreemptKeeps(w, c, cache, y);
      }
  }

  // ---- finding slots for the decoding sequences ----

  lemma GrowForKeeps(w: World, c: Config, cache: seq<seq<KV>>, y: Sys, id: Id)
    requires id in y.running && SysInv(w, c, cache, y, []) && !IsFinished(Lookup(y, id))
    ensures ValidConfig(c.kv) && id in y.seqs
    ensures var (y1, ok) := GrowFor(c, y, id);
            && SysInv(w, c, cache, y1, []) && id in y1.seqs
            && y1 == y.(pool := y1.pool, seqs := y.seqs[id := y.seqs[id].(table := y1.seqs[id].table)])
            && y.seqs[id].table.blocks <= y1.seqs[id].table.blocks
            && (ok ==> |y.seqs[id].tokens| <= Span(c.kv.blockSize, |y1.seqs[id].table.blocks|))
            && (!ok ==> y1 == y && Available(y.pool) == 0 && |y.seqs[id].tokens| > Span(c.kv.blockSize, |y.seqs[id].table.blocks|))
  {
    hide *;
    InvParts(w, c, cache, y, []);
    InQueues(w, c, cache, y, [], id);
    var s := y.seqs[id];
    LookupIs(y, id);
    ResidentFacts(w, c, s, id in y.waiting, id in []);
    var (p, t, ok) := EnsureSlot(c.kv, y.pool, s.table, |s.tokens|);
    EnsureSlotOk(w, cache, y.pool, y.seqs, y.order, id, |s.tokens|);
    OpenKv(w, cache, y.pool, y.seqs, y.order);
    EnsureSlotKeeps(w.c, w.universe, y.pool, y.seqs, y.order, id, |s.tokens|);
    GrowRole(w, c, s, t, id in y.waiting, id in []);
    QueuesIs(y, []);
    ChangeInPlace(w, c, y.seqs, QueuesOf(y, []), id, s.(table := t));
    WithTableIs(y.seqs, id, t);
    GrowForIs(c, y, id);
    var y1 := GrowFor(c, y, id).0;
    QueuesIs(y1, []);
    MakeInv(w, c, cache, y1, []);
  }

  lemma GrowForIs(c: Config, y: Sys, id: Id)
    requires ValidConfig(c.kv) && id in y.seqs
    ensures var s := y.seqs[id]; var (p, t, ok) := EnsureSlot(c.kv, y.pool, s.table, |s.tokens|);
            GrowFor(c, y, id) == (y.(pool := p, seqs := y.seqs[id := s.(table := t)]), ok)
            && y.seqs[id := s.(table := s.table)] == y.seqs
  {
    hide EnsureSlot;
  }

  lemma LookupIs(y: Sys, id: Id)
    requires id in y.seqs
    ensures Lookup(y, id) == y.seqs[id]
  {
  }

  lemma QueuesIs(y: Sys, done: seq<Id>)
    ensures QueuesOf(y, done) == Queues(y.waiting, y.running, done)
  {
  }

  lemma MakeInv(w: World, c: Config, cache: seq<seq<KV>>, y: Sys, done: seq<Id>)
    requires KvOk(w, cache, y.pool, y.seqs, y.order) && c.kv == w.c && ValidPolicy(c) && RolesInv(w, c, y.seqs, QueuesOf(y, done))
    ensures SysInv(w, c, cache, y, done)
  {
    hide KvOk, RolesInv;
  }

  lemma ResidentFacts(w: World, c: Config, s: Sequence, inWaiting: bool, inDone: bool)
    requires ValidConfig(w.c) && RoleOk(w, c, s, inWaiting, true, inDone)
    ensures !inWaiting && !inDone && WellFormed(s) && Roomy(w.c, s)
    ensures s.computed < |s.tokens| <= Span(w.c.blockSize, |s.table.blocks|) + 1
    ensures |s.tokens| <= Span(w.c.blockSize, |s.table.blocks| + 1)
    ensures IsFinished(s) ==> !c.continuous
    ensures !IsFinished(s) ==> ResidentOk(w, s)
  {
  }

  lemma GrowRole(w: World, c: Config, s: Sequence, t: Table, inWaiting: bool, inDone: bool)
    requires ValidConfig(w.c) && RoleOk(w, c, s, inWaiting, true, inDone) && s.table.blocks <= t.blocks
    ensures RoleOk(w, c, s.(table := t), inWaiting, true, inDone)
  {
    hide InPlay, Continue;
    SpanMono(w.c.blockSize, |s.table.blocks|, |t.blocks|);
  }

  /** The candidate lists name unfinished residents in running order; the first `i` decodes have their slot. */
  ghost predicate Candidates(c: Config, y: Sys, mid: seq<Id>, dec: seq<Id>, i: nat) {
    && i <= |dec| && IsSub(mid, y.running) && IsSub(dec, y.running)
    && (forall x :: x in mid ==> x in y.seqs && !IsFinished(y.seqs[x]) && !PrefillDone(y.seqs[x]))
    && (forall x :: x in dec ==> x in y.seqs && !IsFinished(y.seqs[x]) && PrefillDone(y.seqs[x]))
    && (forall x :: x in y.running && x in y.seqs && !IsFinished(y.seqs[x]) ==> x in mid || x in dec)
    && (forall j :: 0 <= j < i ==> Placed(c, y, dec[j]))
  }

  ghost predicate Placed(c: Config, y: Sys, id: Id) {
    id in y.seqs && |y.seqs[id].tokens| <= Span(c.kv.blockSize, |y.seqs[id].table.blocks|)
  }

  lemma GrowCandidates(c: Config, y: Sys, y1: Sys, mid: seq<Id>, dec: seq<Id>, i: nat)
    requires ValidConfig(c.kv) && i < |dec| && Candidates(c, y, mid, dec, i)
    requires y1.running == y.running && dec[i] in y.seqs && Placed(c, y1, dec[i])
    requires y1.seqs == y.seqs[dec[i] := y.seqs[dec[i]].(table := y1.seqs[dec[i]].table)]
    requires y.seqs[dec[i]].table.blocks <= y1.seqs[dec[i]].table.blocks
    ensures Candidates(c, y1, mid, dec, i + 1)
  {
    hide IsSub, Span;
  }

  /** The victim disappears from both lists, and never from among the decodes already placed. */
  lemma EvictCandidates(w: World, c: Config, cache: seq<seq<KV>>, y: Sys, mid: seq<Id>, dec: seq<Id>, i: nat)
    requires i < |dec| && SysInv(w, c, cache, y, []) && Candidates(c, y, mid, dec, i)
    ensures Victim(y).Some?
    ensures Candidates(c, Evict(c, y), Without(mid, Victim(y).value), Without(dec, Victim(y).value), i)
  {
    hide *;
    CandidateParts(c, y, mid, dec, i);
    SubMembers(dec, y.running);
    RunningNoDup(w, c, cache, y);
    EvictShape(w, c, cache, y);
    var v := Victim(y).value;
    var y1 := Evict(c, y);
    EvictShapeParts(y, y1, v);
    if IsFinished(y.seqs[v]) {
      var k :| 0 <= k < |y.running| && y.running[k] == v && y1.running == y.running[..k] + y.running[k + 1..];
      WithoutNot(mid, v);
      WithoutNot(dec, v);
      SubRemoveOther(mid, y.running, k);
      SubRemoveOther(dec, y.running, k);
      CandidatesAfter(c, y, y1, mid, dec, mid, dec, i, v);
    } else {
      SubDropLast(mid, y.running);
      SubDropLast(dec, y.running);
      SubNoDup(mid, y.running);
      SubNoDup(dec, y.running);
      WithoutNoDup(mid, v);
      WithoutNoDup(dec, v);
      CandidatesAfter(c, y, y1, mid, dec, Without(mid, v), Without(dec, v), i, v);
    }
  }

  lemma CandidateParts(c: Config, y: Sys, mid: seq<Id>, dec: seq<Id>, i: nat)
    requires Candidates(c, y, mid, dec, i)
    ensures IsSub(mid, y.running) && IsSub(dec, y.running) && i <= |dec|
    ensures forall x :: x in mid ==> x in y.seqs && !IsFinished(y.seqs[x])
    ensures forall x :: x in dec ==> x in y.seqs && !IsFinished(y.seqs[x])
  {
  }

  ghost predicate ReleasedFinished(y: Sys, y1: Sys, v: Id) {
    && y1.waiting == y.waiting && y1.log == y.log && y1.stats == y.stats.(finished := y.stats.finished + 1)
    && exists k :: 0 <= k < |y.running| && y.running[k] == v && y1.running == y.running[..k] + y.running[k + 1..]
  }

  /** Nobody resident was finished, and the youngest went back to the head of the queue. */
  ghost predicate PreemptedLast(y: Sys, y1: Sys, v: Id)
    requires v in y.seqs && v in y1.seqs
  {
    && y.running != [] && v == y.running[|y.running| - 1] && y1.running == y.running[..|y.running| - 1] && y1.waiting == [v] + y.waiting
    && y1.seqs[v] == y.seqs[v].(table := EmptyTable, computed := 0, preemptions := y.seqs[v].preemptions + 1, status := Waiting)
    && y1.log == y.log && y1.stats == y.stats.(recomputed := y.stats.recomputed + y.seqs[v].computed, preemptions := y.stats.preemptions + 1)
    && (forall x :: x in y.running && x in y.seqs ==> !IsFinished(y.seqs[x]))
  }

  /** Who is evicted, and that nobody else is touched. */
  lemma EvictShape(w: World, c: Config, cache: seq<seq<KV>>, y: Sys)
    requires y.running != [] && SysInv(w, c, cache, y, [])
    ensures Victim(y).Some?
    ensures var v := Victim(y).value; var y1 := Evict(c, y);
            && v in y.running && v in y.seqs && v in y1.seqs && v !in y1.running && v !in y.waiting
            && (forall x :: x in y1.seqs <==> x in y.seqs) && (forall x :: x in y.seqs && x != v ==> y1.seqs[x] == y.seqs[x])
            && (forall x :: x in y1.running <==> x in y.running && x != v)
            && (IsFinished(y.seqs[v]) ==> ReleasedFinished(y, y1, v))
            && (!IsFinished(y.seqs[v]) ==> PreemptedLast(y, y1, v))
  {
    hide SysInv, Free;
    RunningNoDup(w, c, cache, y);
    var v := Victim(y).value;
    RunningKnown(w, c, cache, y, v);
    NotWaiting(w, c, cache, y, v);
    match LastFinished(y, |y.running|)
    case Some(k) =>
      RemoveAtIsWithout(y.running, k);
      WithoutNoDup(y.running, v);
      assert Evict(c, y).running == y.running[..k] + y.running[k + 1..];
    case None =>
      var n := |y.running| - 1;
      assert y.running == y.running[..n] + [v];
      forall x | x in y.running && x in y.seqs ensures !IsFinished(y.seqs[x]) {
        var i :| 0 <= i < |y.running| && y.running[i] == x;
      }
  }

  lemma EvictShapeParts(y: Sys, y1: Sys, v: Id)
    requires v in y.seqs && v in y1.seqs
    ensures ReleasedFinished(y, y1, v) ==> exists k :: 0 <= k < |y.running| && y.running[k] == v && y1.running == y.running[..k] + y.running[k + 1..]
    ensures PreemptedLast(y, y1, v) ==> y.running != [] && v == y.running[|y.running| - 1] && y1.running == y.running[..|y.running| - 1]
  {
  }

  lemma NotWaiting(w: World, c: Config, cache: seq<seq<KV>>, y: Sys, id: Id)
    requires id in y.running && SysInv(w, c, cache, y, [])
    ensures id !in y.waiting
  {
    InQueues(w, c, cache, y, [], id);
  }

  lemma RunningNoDup(w: World, c: Config, cache: seq<seq<KV>>, y: Sys)
    requires SysInv(w, c, cache, y, [])
    ensures NoDup(y.running) && NoDup(y.waiting) && ValidConfig(c.kv)
  {
    hide KvOk, RoleOk;
  }

  lemma RunningKnown(w: World, c: Config, cache: seq<seq<KV>>, y: Sys, id: Id)
    requires id in y.running && SysInv(w, c, cache, y, [])
    ensures id in y.seqs && Lookup(y, id) == y.seqs[id]
  {
    InQueues(w, c, cache, y, [], id);
  }

  lemma CandidatesAfter(c: Config, y: Sys, y1: Sys, mid: seq<Id>, dec: seq<Id>, mid1: seq<Id>, dec1: seq<Id>, i: nat, v: Id)
    requires Candidates(c, y, mid, dec, i) && (dec1 == dec || (v in dec && v == dec[|dec| - 1] && dec1 == dec[..|dec| - 1] && i < |dec|))
    requires IsSub(mid1, y1.running) && IsSub(dec1, y1.running)
    requires v in y1.seqs && forall x :: x in y1.seqs && x != v ==> x in y.seqs && y1.seqs[x] == y.seqs[x]
    requires forall x :: x in y.seqs ==> x in y1.seqs
    requires forall x :: x in mid1 <==> x in mid && x != v
    requires forall x :: x in dec1 <==> x in dec && x != v
    requires forall x :: x in y1.running ==> x in y.running && x != v
    ensures Candidates(c, y1, mid1, dec1, i)
  {
    hide IsSub, Span;
    forall j | 0 <= j < i ensures Placed(c, y1, dec1[j]) {
      assert dec1[j] == dec[j] && dec1[j] in dec1;
    }
  }

  lemma {:induction false} PlaceKeeps(w: World, c: Config, cache: seq<seq<KV>>, y: Sys, mid: seq<Id>, dec: seq<Id>, i: nat)
    requires ValidConfig(c.kv) && SysInv(w, c, cache, y, []) && Candidates(c, y, mid, dec, i)
    ensures var (y1, mid1, dec1) := PlaceDecodes(c, y, mid, dec, i);
            SysInv(w, c, cache, y1, []) && Candidates(c, y1, mid1, dec1, |dec1|)
    decreases |y.running|, |dec| - i
  {
    hide SysInv, Candidates, GrowFor, Victim, Evict;
    if i < |dec| {
      CandidateHere(c, y, mid, dec, i);
      GrowForKeeps(w, c, cache, y, dec[i]);
      var (y1, ok) := GrowFor(c, y, dec[i]);
      if ok {
        GrowCandidates(c, y, y1, mid, dec, i);
        PlaceKeeps(w, c, cache, y1, mid, dec, i + 1);
      } else {
        EvictCandidates(w, c, cache, y, mid, dec, i);
        EvictKeeps(w, c, cache, y);
        VictimRunning(y);
        PlaceKeeps(w, c, cache, Evict(c, y), Without(mid, Victim(y).value), Without(dec, Victim(y).value), i);
      }
    } else {
      CandidateLen(c, y, mid, dec, i);
    }
  }

  lemma VictimRunning(y: Sys)
    requires Victim(y).Some?
    ensures Victim(y).value in y.running && y.running != []
  {
  }

  lemma CandidateLen(c: Config, y: Sys, mid: seq<Id>, dec: seq<Id>, i: nat)
    requires Candidates(c, y, mid, dec, i)
    ensures i <= |dec|
  {
  }

  lemma CandidateHere(c: Config, y: Sys, mid: seq<Id>, dec: seq<Id>, i: nat)
    requires i < |dec| && Candidates(c, y, mid, dec, i)
    ensures dec[i] in y.running && dec[i] in y.seqs && !IsFinished(Lookup(y, dec[i])) && PrefillDone(Lookup(y, dec[i]))
  {
    SubMembers(dec, y.running);
  }

  lemma {:induction false} MidIsSub(y: Sys, ids: seq<Id>)
    ensures IsSub(MidPrefill(y, ids), ids)
    ensures forall x :: x in MidPrefill(y, ids) <==> x in ids && !IsFinished(Lookup(y, x)) && !PrefillDone(Lookup(y, x))
  {
    hide IsSub, IsFinished, PrefillDone, Lookup;
    if ids != [] {
      var front, last := ids[..|ids| - 1], ids[|ids| - 1];
      MidIsSub(y, front);
      SubSkip(MidPrefill(y, front), ids);
      assert ids == front + [last];
      var m := MidPrefill(y, front);
      assert MidPrefill(y, ids) == m + (if !IsFinished(Lookup(y, last)) && !PrefillDone(Lookup(y, last)) then [last] else []);
      assert m + [] == m;
    } else {
      EmptySub(ids);
    }
  }

  lemma {:induction false} DecodingIsSub(y: Sys, ids: seq<Id>)
    ensures IsSub(Decoding(y, ids), ids)
    ensures forall x :: x in Decoding(y, ids) <==> x in ids && !IsFinished(Lookup(y, x)) && PrefillDone(Lookup(y, x))
  {
    hide IsSub, IsFinished, PrefillDone, Lookup;
    if ids != [] {
      var front, last := ids[..|ids| - 1], ids[|ids| - 1];
      DecodingIsSub(y, front);
      SubSkip(Decoding(y, front), ids);
      assert ids == front + [last];
      var d := Decoding(y, front);
      assert Decoding(y, ids) == d + (if !IsFinished(Lookup(y, last)) && PrefillDone(Lookup(y, last)) then [last] else []);
      assert d + [] == d;
    } else {
      EmptySub(ids);
    }
  }

  lemma EmptySub(r: seq<Id>)
    ensures IsSub([], r)
  {
  }

  function Started(c: Config, y: Sys): Sys {
    y.(stats := y.stats.(steps := y.stats.steps + 1), batchOpen := y.batchOpen || (!c.continuous && y.running == []))
  }

  lemma StartCandidates(w: World, c: Config, cache: seq<seq<KV>>, y: Sys)
    requires SysInv(w, c, cache, y, [])
    ensures Candidates(c, y, MidPrefill(y, y.running), Decoding(y, y.running), 0)
  {
    hide SysInv, IsSub, PrefillDone, IsFinished;
    MidIsSub(y, y.running);
    DecodingIsSub(y, y.running);
    forall x | x in y.running ensures x in y.seqs && Lookup(y, x) == y.seqs[x] {
      RunningKnown(w, c, cache, y, x);
    }
  }

  lemma SettleKeeps(w: World, c: Config, cache: seq<seq<KV>>, y: Sys)
    requires ValidConfig(c.kv) && SysInv(w, c, cache, y, [])
    ensures var (y1, mid, dec) := Settle(c, y); SysInv(w, c, cache, y1, []) && Candidates(c, y1, mid, dec, |dec|)
  {
    hide KvOk, RolesInv, Candidates, PlaceDecodes, MidPrefill, Decoding;
    var y0 := Started(c, y);
    assert SysInv(w, c, cache, y0, []);
    StartCandidates(w, c, cache, y0);
    PlaceKeeps(w, c, cache, y0, MidPrefill(y0, y0.running), Decoding(y0, y0.running), 0);
  }

  // ---- deadlines ----

  lemma {:induction false} ExpiredIsSub(y: Sys, ids: seq<Id>, late: set<Id>)
    ensures IsSub(Expired(y, ids, late), ids)
    ensures forall x :: x in Expired(y, ids, late) <==> x in ids && IsLate(y, late, x)
  {
    hide IsSub, IsLate;
    if ids != [] {
      var front, last := ids[..|ids| - 1], ids[|ids| - 1];
      ExpiredIsSub(y, front, late);
      SubSkip(Expired(y, front, late), ids);
      assert ids == front + [last];
      var e := Expired(y, front, late);
      assert Expired(y, ids, late) == e + (if IsLate(y, late, last) then [last] else []);
      assert e + [] == e;
    } else {
      EmptySub(ids);
    }
  }

  lemma {:induction false} PunctualIsSub(y: Sys, ids: seq<Id>, late: set<Id>)
    ensures IsSub(Punctual(y, ids, late), ids)
    ensures forall x :: x in Punctual(y, ids, late) <==> x in ids && !IsLate(y, late, x)
  {
    hide IsSub, IsLate;
    if ids != [] {
      var front, last := ids[..|ids| - 1], ids[|ids| - 1];
      PunctualIsSub(y, front, late);
      SubSkip(Punctual(y, front, late), ids);
      assert ids == front + [last];
      var q := Punctual(y, front, late);
      assert Punctual(y, ids, late) == q + (if !IsLate(y, late, last) then [last] else []);
      assert q + [] == q;
    } else {
      EmptySub(ids);
    }
  }

  lemma ExpiredSplit(y: Sys, ids: seq<Id>, late: set<Id>)
    requires NoDup(ids)
    ensures NoDup(Expired(y, ids, late)) && NoDup(Punctual(y, ids, late))
    ensures forall x :: x in Expired(y, ids, late) || x in Punctual(y, ids, late) <==> x in ids
    ensures forall x :: x in Expired(y, ids, late) ==> x !in Punctual(y, ids, late)
  {
    hide IsSub, IsLate, Expired, Punctual;
    ExpiredIsSub(y, ids, late);
    PunctualIsSub(y, ids, late);
    SubNoDup(Expired(y, ids, late), ids);
    SubNoDup(Punctual(y, ids, late), ids);
  }

  /** The late part of the queue becomes the list of sequences about to leave. */
  lemma ToLeaving(w: World, c: Config, seqs: map<Id, Sequence>, waiting: seq<Id>, running: seq<Id>, waiting1: seq<Id>, late: seq<Id>)
    requires RolesInv(w, c, seqs, Queues(waiting, running, []))
    requires NoDup(waiting1) && NoDup(late) && (forall x :: x in late || x in waiting1 <==> x in waiting) && forall x :: x in late ==> x !in waiting1
    ensures RolesInv(w, c, seqs, Queues(waiting1, running, late))
  {
    hide WaitingOk, ResidentOk, PaddedOk, OutOk, DoneOk, InPlay, RefOf;
    forall x | x in seqs ensures RoleOk(w, c, seqs[x], x in waiting1, x in running, x in late) {
      assert RoleOk(w, c, seqs[x], x in waiting, x in running, false);
    }
  }

  /** Residents and what they own are untouched, new ones only come after them. */
  ghost predicate SameResidents(y: Sys, y1: Sys) {
    y.running <= y1.running && forall x :: x in y.running && x in y.seqs ==> x in y1.seqs && y1.seqs[x] == y.seqs[x]
  }

  lemma SameResidentsTrans(y: Sys, y1: Sys, y2: Sys)
    requires SameResidents(y, y1) && SameResidents(y1, y2)
    ensures SameResidents(y, y2)
  {
  }

  lemma RetireFrame(c: Config, y: Sys, id: Id, r: Finish)
    requires id in y.seqs
    ensures var y1 := Retire(c, y, id, r);
            && y1.running == y.running && y1.waiting == y.waiting && y1.batchOpen == y.batchOpen && y1.order == y.order
            && y1.seqs == y.seqs[id := y.seqs[id].(table := EmptyTable, status := Finished, finish := r)]
            && y1.stats == y.stats.(finished := y.stats.finished + 1) && y1.log == y.log + [Ended(id, r)]
            && y1.executed == y.executed && y1.adopted == y.adopted
  {
    hide Free;
  }

  lemma RetireLeaving(w: World, c: Config, cache: seq<seq<KV>>, y: Sys, done: seq<Id>, r: Finish)
    requires done != [] && SysInv(w, c, cache, y, done)
    requires (r == Timeout || r == Abort) || (done[0] in y.seqs && y.seqs[done[0]].status == Running && r == y.seqs[done[0]].finish)
    ensures done[0] in y.seqs && done[0] !in y.running && SysInv(w, c, cache, Retire(c, y, done[0], r), done[1..])
  {
    hide KvOk, InPlay, ResidentOk, PaddedOk, OutOk, RefOf, Retire, RolesInv, RolesBut;
    var id := done[0];
    InQueues(w, c, cache, y, done, id);
    if WaitingOk(w, y.seqs[id]) { LivePrefix(w.net, y.seqs[id]); }
    LeaveDone(w, c, cache, y, done, id);
    assert Without(done, id) == done[1..];
    RetireBut(w, c, cache, y, done[1..], id, r);
  }

  lemma {:induction false} RetireLateKeeps(w: World, c: Config, cache: seq<seq<KV>>, y: Sys, ids: seq<Id>, j: nat)
    requires j <= |ids| && SysInv(w, c, cache, y, ids[j..])
    ensures SysInv(w, c, cache, RetireLate(c, y, ids, j), []) && SameResidents(y, RetireLate(c, y, ids, j))
    ensures RetireLate(c, y, ids, j).running == y.running && RetireLate(c, y, ids, j).waiting == y.waiting
    decreases |ids| - j
  {
    hide SysInv, Retire;
    if j < |ids| {
      var y0 := y.(stats := y.stats.(timedOut := y.stats.timedOut + 1));
      StatsOnly(w, c, cache, y, y0, ids[j..]);
      RetireLeaving(w, c, cache, y0, ids[j..], Timeout);
      RetireFrame(c, y0, ids[j], Timeout);
      var y1 := Retire(c, y0, ids[j], Timeout);
      assert ids[j..][1..] == ids[j + 1..];
      RetireLateKeeps(w, c, cache, y1, ids, j + 1);
    } else {
      assert ids[j..] == [];
    }
  }

  /** Counters, flags and history are outside the invariant. */
  lemma StatsOnly(w: World, c: Config, cache: seq<seq<KV>>, y: Sys, y1: Sys, done: seq<Id>)
    requires SysInv(w, c, cache, y, done)
    requires y1.pool == y.pool && y1.seqs == y.seqs && y1.order == y.order && y1.waiting == y.waiting && y1.running == y.running
    ensures SysInv(w, c, cache, y1, done)
  {
    hide KvOk, RolesInv;
  }

  lemma ExpireKeeps(w: World, c: Config, cache: seq<seq<KV>>, y: Sys, late: set<Id>)
    requires SysInv(w, c, cache, y, [])
    ensures var y1 := ExpireQueue(c, y, late);
            && SysInv(w, c, cache, y1, []) && SameResidents(y, y1) && y1.running == y.running
            && y1.waiting == Punctual(y, y.waiting, late)
  {
    hide *;
    RunningNoDup(w, c, cache, y);
    ExpiredSplit(y, y.waiting, late);
    var ids := Expired(y, y.waiting, late);
    var y0 := y.(waiting := Punctual(y, y.waiting, late));
    InvParts(w, c, cache, y, []);
    QueuesIs(y, []);
    ToLeaving(w, c, y.seqs, y.waiting, y.running, y0.waiting, ids);
    QueuesIs(y0, ids);
    MakeInv(w, c, cache, y0, ids);
    assert ids[0..] == ids;
    RetireLateKeeps(w, c, cache, y0, ids, 0);
    ExpireIs(c, y, late);
    SameStart(y, y0);
    SameResidentsTrans(y, y0, ExpireQueue(c, y, late));
  }

  lemma ExpireIs(c: Config, y: Sys, late: set<Id>)
    ensures ExpireQueue(c, y, late) == RetireLate(c, y.(waiting := Punctual(y, y.waiting, late)), Expired(y, y.waiting, late), 0)
  {
  }

  lemma SameStart(y: Sys, y0: Sys)
    requires y0.running == y.running && y0.seqs == y.seqs
    ensures SameResidents(y, y0)
  {
  }

  // ---- waiting counters ----

  lemma {:induction false} BumpKeeps(w: World, c: Config, cache: seq<seq<KV>>, y: Sys, j: nat)
    requires SysInv(w, c, cache, y, [])
    ensures var y1 := BumpWaits(y, j); SysInv(w, c, cache, y1, []) && SameResidents(y, y1) && y1.running == y.running && y1.waiting == y.waiting
    decreases |y.waiting| - j
  {
    hide SysInv;
    if j < |y.waiting| {
      var id := y.waiting[j];
      BumpOneKeeps(w, c, cache, y, id);
      var y1 := SetSeq(y, id, Lookup(y, id).(waitSteps := Lookup(y, id).waitSteps + 1));
      BumpKeeps(w, c, cache, y1, j + 1);
    }
  }

  lemma BumpOneKeeps(w: World, c: Config, cache: seq<seq<KV>>, y: Sys, id: Id)
    requires id in y.waiting && SysInv(w, c, cache, y, [])
    ensures id in y.seqs && id !in y.running
    ensures SysInv(w, c, cache, SetSeq(y, id, Lookup(y, id).(waitSteps := Lookup(y, id).waitSteps + 1)), [])
  {
    hide *;
    InQueues(w, c, cache, y, [], id);
    LookupIs(y, id);
    var s := y.seqs[id].(waitSteps := y.seqs[id].waitSteps + 1);
    BumpRole(w, c, y.seqs[id], id in y.running, id in []);
    ChangeKeeps(w, c, cache, y, id, s);
  }

  lemma BumpRole(w: World, c: Config, s: Sequence, inRunning: bool, inDone: bool)
    requires RoleOk(w, c, s, true, inRunning, inDone)
    ensures !inRunning && !inDone && WellFormed(s) && RoleOk(w, c, s.(waitSteps := s.waitSteps + 1), true, inRunning, inDone)
  {
    hide InPlay, Continue;
  }

  /** A change in place that the cache does not see. */
  lemma ChangeKeeps(w: World, c: Config, cache: seq<seq<KV>>, y: Sys, id: Id, s: Sequence)
    requires id in y.seqs && s.table == y.seqs[id].table && s.tokens == y.seqs[id].tokens && s.computed <= y.seqs[id].computed
    requires WellFormed(y.seqs[id]) && RoleOk(w, c, s, id in y.waiting, id in y.running, id in [])
    requires SysInv(w, c, cache, y, [])
    ensures SysInv(w, c, cache, SetSeq(y, id, s), [])
  {
    hide KvOk, RoleOk, RolesInv, InPlay, Kept;
    TokensInPlay(w, c, cache, y, [], id);
    KeptSame(w.c, y.seqs[id], s);
    KvSet(w, cache, y.pool, y.seqs, y.order, id, s);
    ChangeInPlace(w, c, y.seqs, QueuesOf(y, []), id, s);
  }

  lemma TokensInPlay(w: World, c: Config, cache: seq<seq<KV>>, y: Sys, done: seq<Id>, id: Id)
    requires id in y.seqs && SysInv(w, c, cache, y, done)
    ensures InPlay(w.universe, y.seqs[id].tokens) && ValidConfig(w.c)
  {
    hide *;
    InvParts(w, c, cache, y, done);
    OpenKv(w, cache, y.pool, y.seqs, y.order);
    OpenCache(w.c, w.universe, y.pool, y.seqs, y.order);
    InPlayOf(w.universe, y.seqs, id);
  }
}
