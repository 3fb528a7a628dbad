/** Applying a step's results keeps the invariant, for every slice in turn. */
module Progressing {
  import opened Lists
  import opened Paging
  import opened BlockPool
  import opened Requests
  import opened PrefixCache
  import opened PrefixTree
  import opened CacheOps
  import opened Network
  import opened Contents
  import opened Reference
  import opened Scheduling
  import opened Roles
  import opened Safety
  import opened Steps

  // ---- counting a slice as computed ----

  function Counted(s: Sequence, sl: Slice): Sequence {
    s.(computed := s.computed + sl.len)
  }

  /** The pass has written this slice's positions. */
  ghost predicate Pending(w: World, c: Config, cache: seq<seq<KV>>, y: Sys, sl: Slice) {
    c.kv == w.c && ValidConfig(w.c) && GoodSlice(c, y, sl) && SeqContent(w, cache, Counted(y.seqs[sl.id], sl))
  }

  lemma CountedOk(w: World, cache: seq<seq<KV>>, p: Pool, seqs: map<Id, Sequence>, order: seq<Id>, id: Id, s1: Sequence)
    requires ValidConfig(w.c) && id in seqs && s1 == seqs[id].(computed := s1.computed) && SeqContent(w, cache, s1)
    requires KvOk(w, cache, p, seqs, order)
    ensures KvOk(w, cache, p, seqs[id := s1], order)
  {
    hide *;
    OpenKv(w, cache, p, seqs, order);
    OpenCache(w.c, w.universe, p, seqs, order);
    InPlaySame(w.universe, seqs, seqs[id := s1]);
    SameKv(w.c, w.universe, p, seqs, order, seqs[id := s1]);
    KeptRest(w, seqs, id);
    ContentsKept(w, cache, p, seqs, p, seqs - {id});
    PutBack(w, cache, seqs, id, s1);
    CloseKv(w, cache, p, seqs[id := s1], order);
  }

  /** `Advance` as one change of the sequence and the pool. */
  lemma AdvanceOk(w: World, c: Config, cache: seq<seq<KV>>, y: Sys, sl: Slice)
    requires Pending(w, c, cache, y, sl) && KvOk(w, cache, y.pool, y.seqs, y.order)
    ensures var y1 := Advance(c, y, sl); var s := y.seqs[sl.id];
            && sl.id in y1.seqs && y1.seqs[sl.id] == Counted(s, sl).(table := y1.seqs[sl.id].table)
            && y1.seqs[sl.id].table.blocks == s.table.blocks
            && y1 == y.(pool := y1.pool, seqs := y.seqs[sl.id := y1.seqs[sl.id]], executed := y.executed + sl.len)
            && KvOk(w, cache, y1.pool, y1.seqs, y1.order)
            && y1.pool.lru == y.pool.lru && y1.pool.free == y.pool.free && y1.pool.refs == y.pool.refs
  {
    hide KvOk, CommitComputed, SeqContent, Span;
    var s1 := Counted(y.seqs[sl.id], sl);
    CountedOk(w, cache, y.pool, y.seqs, y.order, sl.id, s1);
    CommitOk(w, cache, y.pool, y.seqs[sl.id := s1], y.order, sl.id);
    assert y.seqs[sl.id := s1][sl.id := Counted(y.seqs[sl.id], sl).(table := CommitComputed(c.kv, y.pool, s1.table, s1.tokens, s1.computed).1)]
        == y.seqs[sl.id := Counted(y.seqs[sl.id], sl).(table := CommitComputed(c.kv, y.pool, s1.table, s1.tokens, s1.computed).1)];
  }

  /** A chunk that does not reach the last token leaves the sequence resident. */
  lemma ChunkRole(w: World, c: Config, s: Sequence, s1: Sequence, sl: Slice)
    requires RoleOk(w, c, s, false, true, false) && !IsFinished(s) && s.computed + sl.len < |s.tokens|
    requires s1 == Counted(s, sl).(table := s1.table) && s1.table.blocks == s.table.blocks
    ensures RoleOk(w, c, s1, false, true, false)
  {
    hide InPlay, Continue, Span;
  }

  lemma ChunkDone(w: World, c: Config, cache: seq<seq<KV>>, y: Sys, done: seq<Id>, sl: Slice)
    requires Pending(w, c, cache, y, sl) && !sl.needsLogits && SysInv(w, c, cache, y, done)
    ensures SysInv(w, c, cache, Advance(c, y, sl), done)
  {
    hide KvOk, RoleOk, RolesInv, SeqContent, Advance, Span, InPlay;
    AdvanceOk(w, c, cache, y, sl);
    InQueues(w, c, cache, y, done, sl.id);
    RoleExclusive(w, c, y.seqs[sl.id], sl.id in y.waiting, sl.id in done);
    ChunkRole(w, c, y.seqs[sl.id], Advance(c, y, sl).seqs[sl.id], sl);
    ChangeInPlace(w, c, y.seqs, QueuesOf(y, done), sl.id, Advance(c, y, sl).seqs[sl.id]);
  }

  lemma RoleExclusive(w: World, c: Config, s: Sequence, inWaiting: bool, inDone: bool)
    requires RoleOk(w, c, s, inWaiting, true, inDone)
    ensures !inWaiting && !inDone
  {
  }

  // ---- appending the sampled token ----

  /** What appending the reference's next token does to a resident whose tokens are all computed. */
  lemma AppendRole(w: World, c: Config, s: Sequence, t: Table, tok: Token)
    requires RoleOk(w, c, s, false, true, false) && !IsFinished(s) && t.blocks == s.table.blocks
    requires |s.tokens| <= Span(w.c.blockSize, |t.blocks|) && tok == NextToken(w.net, s.params, s.tokens)
    ensures var s2 := s.(computed := |s.tokens|, table := t, tokens := s.tokens + [tok]); var r := FinishOf(s2, tok);
            && (r == NoFinish ==> RoleOk(w, c, s2, false, true, false))
            && (r != NoFinish && c.continuous ==> RoleOk(w, c, s2.(finish := r), false, false, true))
            && (r != NoFinish && !c.continuous ==> RoleOk(w, c, s2.(finish := r, status := Finished), false, true, false))
            && InPlay(w.universe, s2.tokens) && WellFormed(s2)
  {
    hide InPlay, Continue, Span, RefOutput, NextToken;
    var s1 := s.(tokens := s.tokens + [tok]);
    var s2 := s.(computed := |s.tokens|, table := t, tokens := s.tokens + [tok]);
    AppendTracks(w.net, s, s1, tok);
    assert RefOf(w.net, s2) == RefOf(w.net, s1);
    if FinishOf(s2, tok) == NoFinish {
      LivePrefix(w.net, s1);
    }
    assert s2.tokens <= RefOf(w.net, s2);
    InPlayPrefix(w.universe, s2.tokens, RefOf(w.net, s2));
  }

  lemma KvAppend(w: World, cache: seq<seq<KV>>, p: Pool, seqs: map<Id, Sequence>, order: seq<Id>, id: Id, s: Sequence)
    requires ValidConfig(w.c) && id in seqs && s.table == seqs[id].table && seqs[id].tokens <= s.tokens && s.computed == seqs[id].computed <= |seqs[id].tokens|
    requires InPlay(w.universe, s.tokens) && KvOk(w, cache, p, seqs, order)
    ensures KvOk(w, cache, p, seqs[id := s], order)
  {
    hide KvOk, Kept, InPlay;
    KeptSame(w.c, seqs[id], s);
    KvSet(w, cache, p, seqs, order, id, s);
  }

  /** The sequence, the lists and the log after a sampled token was applied. */
  lemma AppendIs(c: Config, y: Sys, used: nat, done: seq<Id>, id: Id, tok: Token)
    requires id in y.seqs
    ensures var s := y.seqs[id].(tokens := y.seqs[id].tokens + [tok]); var r := FinishOf(s, tok);
            var g := Append1(c, Progress(y, used, done), id, tok);
            && g.used == used && g.sys.pool == y.pool && g.sys.order == y.order && g.sys.waiting == y.waiting
            && g.sys.executed == y.executed && g.sys.adopted == y.adopted && g.sys.stats == y.stats && g.sys.batchOpen == y.batchOpen
            && (r == NoFinish ==> g.sys.seqs == y.seqs[id := s] && g.sys.running == y.running && g.done == done)
            && (r != NoFinish && c.continuous ==>
                  g.sys.seqs == y.seqs[id := s.(finish := r)] && g.sys.running == Without(y.running, id) && g.done == done + [id])
            && (r != NoFinish && !c.continuous ==>
                  g.sys.seqs == y.seqs[id := s.(finish := r, status := Finished)] && g.sys.running == y.running && g.done == done)
  {
  }

  lemma TokenDone(w: World, c: Config, cache: seq<seq<KV>>, y: Sys, used: nat, done: seq<Id>, sl: Slice, tok: Token)
    requires Pending(w, c, cache, y, sl) && sl.needsLogits && SysInv(w, c, cache, y, done)
    requires y.seqs[sl.id].tokens != [] && tok == NextToken(w.net, y.seqs[sl.id].params, y.seqs[sl.id].tokens)
    ensures var g := Append1(c, Progress(Advance(c, y, sl), used, done), sl.id, tok); SysInv(w, c, cache, g.sys, g.done)
  {
    hide KvOk, RoleOk, RolesInv, RolesBut, SeqContent, Advance, Span, InPlay, Append1, NextToken;
    var id := sl.id;
    var s := y.seqs[id];
    AdvanceOk(w, c, cache, y, sl);
    var y1 := Advance(c, y, sl);
    InQueues(w, c, cache, y, done, id);
    RoleExclusive(w, c, s, id in y.waiting, id in done);
    AppendRole(w, c, s, y1.seqs[id].table, tok);
    AppendIs(c, y1, used, done, id, tok);
    var g := Append1(c, Progress(y1, used, done), id, tok);
    var s2 := y1.seqs[id].(tokens := y1.seqs[id].tokens + [tok]);
    KvAppend(w, cache, y1.pool, y1.seqs, y1.order, id, g.sys.seqs[id]);
    assert y1.seqs[id := g.sys.seqs[id]] == g.sys.seqs == y.seqs[id := g.sys.seqs[id]];
    if g.done != done {
      LeaveRunning(w, c, cache, y, done, id);
      var q := Queues(y.waiting, Without(y.running, id), done);
      ChangeOut(w, c, y.seqs, q, id, g.sys.seqs[id]);
      NotQueued(w, c, g.sys.seqs, q, id);
      InsertBack(done, id);
      PutDone(w, c, g.sys.seqs, q, id, done + [id]);
    } else {
      ChangeInPlace(w, c, y.seqs, QueuesOf(y, done), id, g.sys.seqs[id]);
    }
  }

  // ---- all slices of a step ----

  ghost predicate Distinct(slices: seq<Slice>) {
    forall a, b :: 0 <= a < b < |slices| ==> slices[a].id != slices[b].id
  }

  /** The sampled tokens are the reference's, slice by slice. */
  ghost predicate Samples(w: World, y: Sys, slices: seq<Slice>, sampled: seq<Token>) {
    forall m :: 0 <= m < |slices| && slices[m].needsLogits ==> SampleAt(w, y, slices, sampled, m)
  }

  ghost predicate SampleAt(w: World, y: Sys, slices: seq<Slice>, sampled: seq<Token>, m: nat)
    requires m < |slices|
  {
    && slices[m].id in y.seqs && y.seqs[slices[m].id].tokens != [] && NumLogits(slices[..m]) < |sampled|
    && sampled[NumLogits(slices[..m])] == NextToken(w.net, y.seqs[slices[m].id].params, y.seqs[slices[m].id].tokens)
  }

  /** After the first `j` slices were applied. */
  ghost predicate Applying(w: World, c: Config, cache: seq<seq<KV>>, y0: Sys, slices: seq<Slice>, j: nat, g: Progress) {
    && j <= |slices| && SysInv(w, c, cache, g.sys, g.done) && g.used == NumLogits(slices[..j])
    && (forall k :: j <= k < |slices| ==> Waits(w, c, cache, y0, slices[k], g.sys))
    && (forall x :: x in g.done ==> x in g.sys.seqs && g.sys.seqs[x].status == Running)
  }

  /** Slice `sl` has not been applied and its sequence is as it was. */
  ghost predicate Waits(w: World, c: Config, cache: seq<seq<KV>>, y0: Sys, sl: Slice, y: Sys) {
    Pending(w, c, cache, y, sl) && sl.id in y0.seqs && sl.id in y.seqs && y.seqs[sl.id] == y0.seqs[sl.id]
  }

  lemma WaitsFrame(w: World, c: Config, cache: seq<seq<KV>>, y0: Sys, sl: Slice, y: Sys, y1: Sys)
    requires Waits(w, c, cache, y0, sl, y) && sl.id in y1.running && sl.id in y1.seqs && y1.seqs[sl.id] == y.seqs[sl.id]
    ensures Waits(w, c, cache, y0, sl, y1)
  {
    hide SeqContent;
  }

  /** Applying one slice touches only its own sequence. */
  lemma SliceDoneShape(c: Config, g: Progress, sl: Slice, sampled: seq<Token>)
    requires sl.id in g.sys.seqs && NoDup(g.sys.running) && !IsFinished(g.sys.seqs[sl.id])
    ensures var g1 := SliceDone(c, g, sl, sampled);
            && sl.id in g1.sys.seqs && g1.sys.seqs == g.sys.seqs[sl.id := g1.sys.seqs[sl.id]]
            && g1.used == g.used + (if sl.needsLogits then 1 else 0)
            && g1.sys.waiting == g.sys.waiting && g1.sys.order == g.sys.order
            && (g1.done == g.done || g1.done == g.done + [sl.id])
            && (g1.done == g.done ==> g1.sys.running == g.sys.running)
            && (g1.done != g.done ==> g1.sys.running == Without(g.sys.running, sl.id) && g1.sys.seqs[sl.id].status == g.sys.seqs[sl.id].status)
  {
    hide CommitComputed;
  }

  lemma {:induction false} SlicesDoneKeeps(w: World, c: Config, cache: seq<seq<KV>>, y0: Sys, slices: seq<Slice>, j: nat, g: Progress, sampled: seq<Token>)
    requires Applying(w, c, cache, y0, slices, j, g) && Distinct(slices) && Samples(w, y0, slices, sampled)
    ensures Applying(w, c, cache, y0, slices, |slices|, SlicesDone(c, g, slices, j, sampled))
    decreases |slices| - j
  {
    hide SysInv, SliceDone, Samples, Distinct, Waits, Pending;
    if j < |slices| {
      ApplyOne(w, c, cache, y0, slices, j, g, sampled);
      SlicesDoneKeeps(w, c, cache, y0, slices, j + 1, SliceDone(c, g, slices[j], sampled), sampled);
    }
  }

  lemma ApplyOne(w: World, c: Config, cache: seq<seq<KV>>, y0: Sys, slices: seq<Slice>, j: nat, g: Progress, sampled: seq<Token>)
    requires j < |slices| && Applying(w, c, cache, y0, slices, j, g) && Distinct(slices) && Samples(w, y0, slices, sampled)
    ensures Applying(w, c, cache, y0, slices, j + 1, SliceDone(c, g, slices[j], sampled))
  {
    hide SysInv, SliceDone, Pending, GoodSlice, NextToken;
    var sl := slices[j];
    var g1 := SliceDone(c, g, sl, sampled);
    assert Waits(w, c, cache, y0, sl, g.sys);
    PendingFacts(w, c, cache, g.sys, g.done, sl);
    SliceDoneShape(c, g, sl, sampled);
    SliceDoneInv(w, c, cache, y0, slices, j, g, sampled);
    NumLogitsNext(slices, j);
    WithoutNoDup(g.sys.running, sl.id);
    forall x | x in g1.done ensures x in g1.sys.seqs && g1.sys.seqs[x].status == Running {
      assert x in g.done || x == sl.id;
    }
    forall k | j + 1 <= k < |slices| ensures Waits(w, c, cache, y0, slices[k], g1.sys) {
      assert Waits(w, c, cache, y0, slices[k], g.sys);
      PendingFacts(w, c, cache, g.sys, g.done, slices[k]);
      WaitsFrame(w, c, cache, y0, slices[k], g.sys, g1.sys);
    }
  }

  lemma NumLogitsNext(slices: seq<Slice>, j: nat)
    requires j < |slices|
    ensures NumLogits(slices[..j + 1]) == NumLogits(slices[..j]) + if slices[j].needsLogits then 1 else 0
  {
    assert slices[..j + 1][..j] == slices[..j];
  }

  lemma PendingFacts(w: World, c: Config, cache: seq<seq<KV>>, y: Sys, done: seq<Id>, sl: Slice)
    requires Pending(w, c, cache, y, sl) && SysInv(w, c, cache, y, done)
    ensures sl.id in y.running && sl.id in y.seqs && !IsFinished(y.seqs[sl.id]) && NoDup(y.running) && y.seqs[sl.id].status == Running && sl.id !in done
  {
    hide KvOk, SeqContent, Live, InPlay;
    InQueues(w, c, cache, y, done, sl.id);
  }

  lemma SliceDoneInv(w: World, c: Config, cache: seq<seq<KV>>, y0: Sys, slices: seq<Slice>, j: nat, g: Progress, sampled: seq<Token>)
    requires j < |slices| && Applying(w, c, cache, y0, slices, j, g) && Samples(w, y0, slices, sampled)
    ensures var g1 := SliceDone(c, g, slices[j], sampled); SysInv(w, c, cache, g1.sys, g1.done)
  {
    hide SysInv, Append1, NextToken, SeqContent, KvOk;
    var sl := slices[j];
    assert Waits(w, c, cache, y0, sl, g.sys);
    SysKv(w, c, cache, g.sys, g.done);
    AdvanceOk(w, c, cache, g.sys, sl);
    hide Advance;
    if sl.needsLogits {
      assert SampleAt(w, y0, slices, sampled, j);
      TokenDone(w, c, cache, g.sys, g.used + 1, g.done, sl, sampled[g.used]);
    } else {
      ChunkDone(w, c, cache, g.sys, g.done, sl);
    }
  }

  lemma SysKv(w: World, c: Config, cache: seq<seq<KV>>, y: Sys, done: seq<Id>)
    requires SysInv(w, c, cache, y, done)
    ensures KvOk(w, cache, y.pool, y.seqs, y.order)
  {
  }

  // ---- retiring what finished ----

  lemma {:induction false} RetireDoneKeeps(w: World, c: Config, cache: seq<seq<KV>>, y: Sys, done: seq<Id>, j: nat)
    requires j <= |done| && SysInv(w, c, cache, y, done[j..])
    requires forall x :: x in done[j..] ==> x in y.seqs && y.seqs[x].status == Running
    ensures var y1 := RetireDone(c, y, done, j); SysInv(w, c, cache, y1, []) && y1.running == y.running && SameResidents(y, y1)
    decreases |done| - j
  {
    hide SysInv, Retire;
    if j < |done| {
      var rest := done[j..];
      assert rest[0] == done[j] && done[j] in rest;
      LeavingNoDup(w, c, cache, y, rest);
      RetireLeaving(w, c, cache, y, rest, y.seqs[done[j]].finish);
      RetireFrame(c, y, done[j], y.seqs[done[j]].finish);
      assert rest[1..] == done[j + 1..];
      var y1 := Retire(c, y, done[j], y.seqs[done[j]].finish);
      forall x | x in done[j + 1..] ensures x in y1.seqs && y1.seqs[x].status == Running {
        assert x in rest && x != done[j];
      }
      RetireDoneKeeps(w, c, cache, y1, done, j + 1);
    } else {
      assert done[j..] == [];
    }
  }

  lemma LeavingNoDup(w: World, c: Config, cache: seq<seq<KV>>, y: Sys, done: seq<Id>)
    requires SysInv(w, c, cache, y, done)
    ensures NoDup(done)
  {
    hide KvOk, RoleOk;
  }

  /** One iteration of the batch release is the release of the first member of the remaining batch. */
  function DrainOne(c: Config, y: Sys, j: nat): Sys
    requires j < |y.running|
  {
    var y1 := Drop(c, y, y.running[j]);
    y1.(stats := y1.stats.(finished := y1.stats.finished + 1))
  }

  lemma DrainStep(w: World, c: Config, cache: seq<seq<KV>>, y: Sys, j: nat)
    requires j < |y.running| && SysInv(w, c, cache, y.(running := y.running[j..]), [])
    requires forall i :: j <= i < |y.running| ==> IsFinished(Lookup(y, y.running[i]))
    ensures var z := y.(running := y.running[j..]); var y2 := DrainOne(c, y, j);
            && y2.running == y.running && z.running[0] == y.running[j] && IsFinished(Lookup(z, z.running[0]))
            && y2.(running := y2.running[j + 1..]) == ReleaseFinished(c, z, 0)
            && SysInv(w, c, cache, ReleaseFinished(c, z, 0), [])
            && (forall i :: j + 1 <= i < |y2.running| ==> IsFinished(Lookup(y2, y2.running[i])))
  {
    hide SysInv, Free;
    var z := y.(running := y.running[j..]);
    assert z.running[0] == y.running[j] && RemoveAt(z.running, 0) == y.running[j + 1..];
    ReleaseFinishedKeeps(w, c, cache, z, 0);
    RunningNoDup(w, c, cache, z);
    var y2 := DrainOne(c, y, j);
    forall i | j + 1 <= i < |y2.running| ensures IsFinished(Lookup(y2, y2.running[i])) {
      assert z.running[i - j] != z.running[0];
    }
  }

  /** Static mode: release the members one by one, as if the batch shrank from the front. */
  lemma {:induction false} DrainKeeps(w: World, c: Config, cache: seq<seq<KV>>, y: Sys, j: nat)
    requires j <= |y.running| && SysInv(w, c, cache, y.(running := y.running[j..]), [])
    requires forall i :: j <= i < |y.running| ==> IsFinished(Lookup(y, y.running[i]))
    ensures SysInv(w, c, cache, DrainBatch(c, y, j), []) && DrainBatch(c, y, j).running == []
    decreases |y.running| - j
  {
    hide SysInv, Drop, ReleaseFinished;
    if j < |y.running| {
      DrainStep(w, c, cache, y, j);
      DrainKeeps(w, c, cache, DrainOne(c, y, j), j + 1);
    } else {
      var y1 := y.(running := [], batchOpen := true);
      assert y.running[j..] == [];
      StatsOnly(w, c, cache, y.(running := y.running[j..]), y1, []);
    }
  }

  lemma OnStepDoneKeeps(w: World, c: Config, cache: seq<seq<KV>>, y: Sys, step: Step, sampled: seq<Token>)
    requires Applying(w, c, cache, y, step.slices, 0, Progress(y, 0, [])) && Distinct(step.slices) && Samples(w, y, step.slices, sampled)
    ensures SysInv(w, c, cache, OnStepDone(c, y, step, sampled), [])
  {
    hide SysInv, SlicesDone, RetireDone, DrainBatch, Samples, Distinct, Waits;
    SlicesDoneKeeps(w, c, cache, y, step.slices, 0, Progress(y, 0, []), sampled);
    var g := SlicesDone(c, Progress(y, 0, []), step.slices, 0, sampled);
    assert g.done[0..] == g.done;
    RetireDoneKeeps(w, c, cache, g.sys, g.done, 0);
    var y1 := RetireDone(c, g.sys, g.done, 0);
    if !c.continuous && y1.running != [] && AllFinished(y1) {
      assert y1.running[0..] == y1.running;
      assert y1.(running := y1.running[0..]) == y1;
      DrainKeeps(w, c, cache, y1, 0);
    }
  }
}
