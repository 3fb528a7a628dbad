/**
 The scheduler's invariant: every sequence plays exactly one role, and its fields fit that role.
 Each transition is shown to keep it by taking one sequence out of its role, changing it, and
 putting it back.
 */
module Roles {
  import opened Lists
  import opened Paging
  import opened BlockPool
  import opened Requests
  import opened PrefixCache
  import opened PrefixTree
  import opened CacheOps
  import opened Network
  import opened Contents
  import opened Reference
  import opened Scheduling

  // ---- what each role requires of a sequence ----

  ghost predicate WaitingOk(w: World, s: Sequence)
    requires WellFormed(s)
  {
    s.status == Waiting && s.table == EmptyTable && s.computed == 0 && Live(w.net, s)
  }

  /** The table has a slot for every token but perhaps the last one sampled. */
  ghost predicate Roomy(c: KvConfig, s: Sequence) {
    && s.table.blocks != [] && s.computed < |s.tokens| <= Span(c.blockSize, |s.table.blocks|) + 1
    && (!PrefillDone(s) ==> |s.tokens| <= Span(c.blockSize, |s.table.blocks|))
  }

  ghost predicate ResidentOk(w: World, s: Sequence)
    requires WellFormed(s)
  {
    s.status == Running && Live(w.net, s) && Roomy(w.c, s)
  }

  /** Static mode keeps finished members resident. */
  ghost predicate PaddedOk(w: World, c: Config, s: Sequence)
    requires WellFormed(s)
  {
    !c.continuous && s.status == Finished && Complete(w.net, s) && Roomy(w.c, s)
  }

  /** Continuous mode: finished in the step being applied, not yet retired. */
  ghost predicate DoneOk(w: World, c: Config, s: Sequence)
    requires WellFormed(s)
  {
    c.continuous && s.status == Running && Complete(w.net, s)
  }

  /** About to be retired: finished in this step, or found past its deadline in the queue. */
  ghost predicate LeavingOk(w: World, c: Config, s: Sequence)
    requires WellFormed(s)
  {
    DoneOk(w, c, s) || WaitingOk(w, s)
  }

  ghost predicate OutOk(w: World, s: Sequence)
    requires WellFormed(s)
  {
    s.status == Finished && s.table == EmptyTable && Over(w.net, s)
  }

  ghost predicate RoleOk(w: World, c: Config, s: Sequence, inWaiting: bool, inRunning: bool, inDone: bool) {
    && WellFormed(s) && InPlay(w.universe, RefOf(w.net, s))
    && !(inWaiting && inRunning) && !(inWaiting && inDone) && !(inRunning && inDone)
    && (inWaiting ==> WaitingOk(w, s))
    && (inRunning ==> ResidentOk(w, s) || PaddedOk(w, c, s))
    && (inDone ==> LeavingOk(w, c, s))
    && (!inWaiting && !inRunning && !inDone ==> OutOk(w, s))
  }

  // ---- the lists ----

  datatype Queues = Queues(waiting: seq<Id>, running: seq<Id>, done: seq<Id>)

  ghost predicate QueuesOk(seqs: map<Id, Sequence>, q: Queues) {
    && NoDup(q.waiting) && NoDup(q.running) && NoDup(q.done)
    && (forall x :: x in q.waiting || x in q.running || x in q.done ==> x in seqs)
  }

  ghost predicate RolesInv(w: World, c: Config, seqs: map<Id, Sequence>, q: Queues) {
    && QueuesOk(seqs, q)
    && (forall x :: x in seqs ==> RoleOk(w, c, seqs[x], x in q.waiting, x in q.running, x in q.done))
  }

  /** Everyone but `id` plays a role, and `id` is in no list. */
  ghost predicate RolesBut(w: World, c: Config, seqs: map<Id, Sequence>, q: Queues, id: Id) {
    && QueuesOk(seqs, q) && id in seqs && id !in q.waiting && id !in q.running && id !in q.done
    && (forall x :: x in seqs && x != id ==> RoleOk(w, c, seqs[x], x in q.waiting, x in q.running, x in q.done))
  }

  lemma RoleOf(w: World, c: Config, seqs: map<Id, Sequence>, q: Queues, id: Id)
    requires RolesInv(w, c, seqs, q) && id in seqs
    ensures RoleOk(w, c, seqs[id], id in q.waiting, id in q.running, id in q.done)
    ensures WellFormed(seqs[id]) && InPlay(w.universe, RefOf(w.net, seqs[id]))
  {
  }

  lemma TakeOut(w: World, c: Config, seqs: map<Id, Sequence>, q: Queues, id: Id)
    requires RolesInv(w, c, seqs, q) && id in seqs
    ensures RolesBut(w, c, seqs, Queues(Without(q.waiting, id), Without(q.running, id), Without(q.done, id)), id)
  {
    hide RoleOk;
    WithoutNoDup(q.waiting, id);
    WithoutNoDup(q.running, id);
    WithoutNoDup(q.done, id);
  }

  /** Changing the sequence that was taken out does not matter to the others. */
  lemma ChangeOut(w: World, c: Config, seqs: map<Id, Sequence>, q: Queues, id: Id, s: Sequence)
    requires RolesBut(w, c, seqs, q, id)
    ensures RolesBut(w, c, seqs[id := s], q, id)
  {
    hide RoleOk;
  }

  lemma PutOut(w: World, c: Config, seqs: map<Id, Sequence>, q: Queues, id: Id)
    requires RolesBut(w, c, seqs, q, id) && RoleOk(w, c, seqs[id], false, false, false)
    ensures RolesInv(w, c, seqs, q)
  {
    hide RoleOk;
  }

  /** `l1` is `l` with `id` inserted somewhere. */
  ghost predicate Inserted(l: seq<Id>, l1: seq<Id>, id: Id) {
    NoDup(l1) && forall x :: x in l1 <==> x in l || x == id
  }

  lemma PutWaiting(w: World, c: Config, seqs: map<Id, Sequence>, q: Queues, id: Id, l: seq<Id>)
    requires RolesBut(w, c, seqs, q, id) && RoleOk(w, c, seqs[id], true, false, false) && Inserted(q.waiting, l, id)
    ensures RolesInv(w, c, seqs, q.(waiting := l))
  {
    hide RoleOk;
  }

  lemma PutRunning(w: World, c: Config, seqs: map<Id, Sequence>, q: Queues, id: Id, l: seq<Id>)
    requires RolesBut(w, c, seqs, q, id) && RoleOk(w, c, seqs[id], false, true, false) && Inserted(q.running, l, id)
    ensures RolesInv(w, c, seqs, q.(running := l))
  {
    hide RoleOk;
  }

  lemma PutDone(w: World, c: Config, seqs: map<Id, Sequence>, q: Queues, id: Id, l: seq<Id>)
    requires RolesBut(w, c, seqs, q, id) && RoleOk(w, c, seqs[id], false, false, true) && Inserted(q.done, l, id)
    ensures RolesInv(w, c, seqs, q.(done := l))
  {
    hide RoleOk;
  }

  /** Replace a sequence in place, in the same role. */
  lemma ChangeInPlace(w: World, c: Config, seqs: map<Id, Sequence>, q: Queues, id: Id, s: Sequence)
    requires RolesInv(w, c, seqs, q) && id in seqs && RoleOk(w, c, s, id in q.waiting, id in q.running, id in q.done)
    ensures RolesInv(w, c, seqs[id := s], q)
  {
    hide RoleOk;
  }

  lemma InsertBack(l: seq<Id>, id: Id)
    requires NoDup(l) && id !in l
    ensures Inserted(l, l + [id], id) && Inserted(l, [id] + l, id)
  {
  }

  lemma RemoveAtIsWithout(l: seq<Id>, i: nat)
    requires NoDup(l) && i < |l|
    ensures RemoveAt(l, i) == Without(l, l[i])
  {
    assert l[i] in l;
    WithoutSplit(l, l[i]);
  }

  lemma WithoutNot(l: seq<Id>, id: Id)
    requires id !in l
    ensures Without(l, id) == l
  {
    WithoutAbsent(l, id);
  }

  // ---- the whole state ----

  function QueuesOf(y: Sys, done: seq<Id>): Queues {
    Queues(y.waiting, y.running, done)
  }

  ghost predicate SysInv(w: World, c: Config, cache: seq<seq<KV>>, y: Sys, done: seq<Id>) {
    && c.kv == w.c && ValidPolicy(c)
    && KvOk(w, cache, y.pool, y.seqs, y.order)
    && RolesInv(w, c, y.seqs, QueuesOf(y, done))
  }

  /** `SysInv` while `id` is out of its role. */
  ghost predicate SysBut(w: World, c: Config, cache: seq<seq<KV>>, y: Sys, done: seq<Id>, id: Id) {
    && c.kv == w.c && ValidPolicy(c)
    && KvOk(w, cache, y.pool, y.seqs, y.order)
    && RolesBut(w, c, y.seqs, QueuesOf(y, done), id)
  }
}
