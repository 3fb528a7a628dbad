/**
 Conservation: requests, terminal callbacks and computed tokens are accounted for in every
 reachable state.
 */
module Ledger {
  import opened Lists
  import opened Paging
  import opened BlockPool
  import opened Requests
  import opened PrefixCache
  import opened PrefixTree
  import opened CacheOps
  import opened Network
  import opened Contents
  import opened Reference
  import opened Scheduling
  import opened Roles
  import opened Safety
  import opened Steps
  import opened Progressing

  /** What the client asked for. */
  datatype Request = Request(prompt: seq<Token>, params: SamplingParams)

  /** The requests so far, and the cancellations that hit a request already reported as finished. */
  datatype Brief = Brief(requests: map<Id, Request>, repeated: multiset<Id>)

  function SumComputed(seqs: map<Id, Sequence>, order: seq<Id>): nat {
    if order == [] then 0
    else SumComputed(seqs, order[..|order| - 1]) + if order[|order| - 1] in seqs then seqs[order[|order| - 1]].computed else 0
  }

  /** Terminal callbacks made for `id`. */
  function Terminals(log: seq<Event>, id: Id): nat {
    if log == [] then 0
    else Terminals(log[..|log| - 1], id) + if log[|log| - 1].Ended? && log[|log| - 1].id == id then 1 else 0
  }

  /** requests added = waiting + resident + leaving + finished */
  ghost predicate Populated(y: Sys, done: seq<Id>) {
    |y.waiting| + |y.running| + |done| + y.stats.finished == |y.order|
  }

  /** slice tokens executed + tokens adopted = tokens currently computed + tokens thrown away by preemption */
  ghost predicate Balanced(y: Sys) {
    SumComputed(y.seqs, y.order) + y.stats.recomputed == y.executed + y.adopted
  }

  /** Exactly the finished sequences have had a terminal callback: one, and one more per repeated cancellation. */
  ghost predicate Reported(y: Sys, brief: Brief) {
    && (forall id :: Terminals(y.log, id) == brief.repeated[id] + if id in y.seqs && IsFinished(y.seqs[id]) then 1 else 0)
    && (forall id :: id in brief.repeated ==> id in y.seqs && IsFinished(y.seqs[id]))
  }

  ghost predicate Serves(s: Sequence, r: Request) {
    s.params == r.params && s.promptLen == |r.prompt| <= |s.tokens| && s.tokens[..s.promptLen] == r.prompt
  }

  /** Every sequence is the one its client asked for. */
  ghost predicate Faithful(y: Sys, brief: Brief) {
    forall id :: id in y.seqs ==> id in brief.requests && Serves(y.seqs[id], brief.requests[id])
  }

  // ---- what the client is told ----

  /** The tokens streamed for `id`, in order. */
  function Streamed(log: seq<Event>, id: Id): seq<Token> {
    if log == [] then []
    else
      var e := log[|log| - 1];
      Streamed(log[..|log| - 1], id) + if e.Emitted? && e.id == id then [e.token] else []
  }

  /** The reason in the last terminal callback for `id`. */
  function LastReason(log: seq<Event>, id: Id): Finish {
    if log == [] then NoFinish
    else
      var e := log[|log| - 1];
      if e.Ended? && e.id == id then e.reason else LastReason(log[..|log| - 1], id)
  }

  /** Nothing is streamed for a request after a terminal callback for it. */
  ghost predicate Quiet(log: seq<Event>) {
    forall i, j :: 0 <= i < j < |log| && log[i].Ended? && log[j].Emitted? ==> log[i].id != log[j].id
  }

  function Generated(s: Sequence): seq<Token> {
    if s.promptLen <= |s.tokens| then s.tokens[s.promptLen..] else []
  }

  /** The generated tokens without a stop token at the end. */
  function Shown(s: Sequence): seq<Token> {
    var gen := Generated(s);
    if gen != [] && IsStop(s.params, gen[|gen| - 1]) then gen[..|gen| - 1] else gen
  }

  /** No stop token but at the end; whether there is one at the end, and the length, are what the finish reason says. */
  ghost predicate ReasonFits(s: Sequence) {
    var gen := Generated(s);
    && (forall k :: 0 <= k < |gen| - 1 ==> !IsStop(s.params, gen[k]))
    && (s.finish == NoFinish ==> gen == [] || !IsStop(s.params, gen[|gen| - 1]))
    && (s.finish == Stop ==> gen != [] && IsStop(s.params, gen[|gen| - 1]))
    && (s.finish == Length ==> gen != [] && !IsStop(s.params, gen[|gen| - 1]) && |gen| >= s.params.maxTokens)
  }

  /** The stream of `id` is what it generated, and the last terminal callback gave the reason it has. */
  ghost predicate TellsOf(y: Sys, id: Id) {
    if id in y.seqs then
      var s := y.seqs[id];
      ReasonFits(s) && Streamed(y.log, id) == Shown(s) && LastReason(y.log, id) == if IsFinished(s) then s.finish else NoFinish
    else Streamed(y.log, id) == [] && LastReason(y.log, id) == NoFinish
  }

  ghost predicate Told(y: Sys) {
    Quiet(y.log) && forall id :: TellsOf(y, id)
  }

  ghost predicate Books(y: Sys, done: seq<Id>, brief: Brief) {
    && NoDup(y.order) && (forall id :: id in y.order <==> id in y.seqs)
    && Populated(y, done) && Balanced(y) && Reported(y, brief) && Faithful(y, brief) && Told(y)
  }

  // ---- one change at a time ----

  lemma {:induction false} SumSame(seqs: map<Id, Sequence>, seqs1: map<Id, Sequence>, order: seq<Id>)
    requires forall id :: id in order ==> id in seqs && id in seqs1 && seqs1[id].computed == seqs[id].computed
    ensures SumComputed(seqs1, order) == SumComputed(seqs, order)
  {
    if order != [] {
      SumSame(seqs, seqs1, order[..|order| - 1]);
    }
  }

  lemma {:induction false} SumSet(seqs: map<Id, Sequence>, order: seq<Id>, id: Id, s: Sequence)
    requires NoDup(order) && id in order && (forall x :: x in order ==> x in seqs)
    ensures SumComputed(seqs[id := s], order) + seqs[id].computed == SumComputed(seqs, order) + s.computed
  {
    var front, last := order[..|order| - 1], order[|order| - 1];
    assert order == front + [last];
    if last == id {
      assert id !in front;
      SumSame(seqs, seqs[id := s], front);
    } else {
      SumSet(seqs, front, id, s);
    }
  }

  lemma TerminalsAppend(log: seq<Event>, e: Event, id: Id)
    ensures Terminals(log + [e], id) == Terminals(log, id) + if e.Ended? && e.id == id then 1 else 0
  {
    assert (log + [e])[..|log|] == log;
  }

  /** The log grew by callbacks for `id` only, `n` of them terminal. */
  ghost predicate LogStep(log: seq<Event>, log1: seq<Event>, id: Id, n: nat) {
    forall x :: Terminals(log1, x) == Terminals(log, x) + if x == id then n else 0
  }

  lemma LogNone(log: seq<Event>, id: Id)
    ensures LogStep(log, log, id, 0)
  {
  }

  lemma LogEnded(log: seq<Event>, id: Id, r: Finish)
    ensures LogStep(log, log + [Ended(id, r)], id, 1)
  {
    forall x { TerminalsAppend(log, Ended(id, r), x); }
  }

  lemma LogEmitted(log: seq<Event>, id: Id, t: Token)
    ensures LogStep(log, log + [Emitted(id, t)], id, 0)
  {
    forall x { TerminalsAppend(log, Emitted(id, t), x); }
  }

  lemma EventAppend(log: seq<Event>, e: Event, id: Id)
    ensures Streamed(log + [e], id) == Streamed(log, id) + if e.Emitted? && e.id == id then [e.token] else []
    ensures LastReason(log + [e], id) == if e.Ended? && e.id == id then e.reason else LastReason(log, id)
  {
    assert (log + [e])[..|log|] == log;
  }

  /** No terminal callback so far. */
  lemma {:induction false} NoTerminal(log: seq<Event>, id: Id, i: nat)
    requires Terminals(log, id) == 0 && i < |log|
    ensures !(log[i].Ended? && log[i].id == id)
  {
    if i < |log| - 1 {
      NoTerminal(log[..|log| - 1], id, i);
    }
  }

  /** The same request with the same output and the same outcome. */
  ghost predicate SameStory(s: Sequence, s1: Sequence) {
    s1.tokens == s.tokens && s1.promptLen == s.promptLen && s1.params == s.params && s1.finish == s.finish && (IsFinished(s1) <==> IsFinished(s))
  }

  /** A change that the client cannot see. */
  lemma NoReport(y: Sys, done: seq<Id>, brief: Brief, y1: Sys, id: Id)
    requires Books(y, done, brief) && id in y.seqs && id in y1.seqs && y1.seqs == y.seqs[id := y1.seqs[id]]
    requires y1.log == y.log && SameStory(y.seqs[id], y1.seqs[id])
    ensures Told(y1) && LogStep(y.log, y1.log, id, 0)
  {
    hide Terminals, SumComputed, NoDup, Reported, Faithful, Quiet, Streamed, LastReason;
    LogNone(y.log, id);
    forall x ensures TellsOf(y1, x) {
      assert TellsOf(y, x);
    }
  }

  /** The end of a request. */
  lemma EndReport(y: Sys, done: seq<Id>, brief: Brief, y1: Sys, id: Id, r: Finish)
    requires Books(y, done, brief) && id in y.seqs && y1.log == y.log + [Ended(id, r)]
    requires y1.seqs == y.seqs[id := y.seqs[id].(table := EmptyTable, status := Finished, finish := r)]
    requires r == Abort || r == Timeout || r == y.seqs[id].finish
    ensures Told(y1) && LogStep(y.log, y1.log, id, 1)
  {
    hide Terminals, SumComputed, NoDup, Reported, Faithful, TellsOf, LogStep;
    LogEnded(y.log, id, r);
    forall x ensures TellsOf(y1, x) {
      EndTells(y, y1, id, r, x);
    }
  }

  lemma EndTells(y: Sys, y1: Sys, id: Id, r: Finish, x: Id)
    requires TellsOf(y, x) && id in y.seqs && y1.log == y.log + [Ended(id, r)]
    requires y1.seqs == y.seqs[id := y.seqs[id].(table := EmptyTable, status := Finished, finish := r)]
    requires r == Abort || r == Timeout || r == y.seqs[id].finish
    ensures TellsOf(y1, x)
  {
    hide Streamed, LastReason;
    EventAppend(y.log, Ended(id, r), x);
  }

  ghost predicate Descends(s: Sequence, s1: Sequence) {
    s1.params == s.params && s1.promptLen == s.promptLen && s.tokens <= s1.tokens
  }

  /** A change of one sequence that balances keeps the books. */
  lemma BooksStep(y: Sys, done: seq<Id>, brief: Brief, y1: Sys, done1: seq<Id>, id: Id, n: nat)
    requires Books(y, done, brief) && id in y.seqs && id in y1.seqs
    requires y1.seqs == y.seqs[id := y1.seqs[id]] && y1.order == y.order && Descends(y.seqs[id], y1.seqs[id])
    requires |y1.waiting| + |y1.running| + |done1| + y1.stats.finished == |y.waiting| + |y.running| + |done| + y.stats.finished
    requires y1.executed + y1.adopted + y.stats.recomputed + y.seqs[id].computed == y.executed + y.adopted + y1.stats.recomputed + y1.seqs[id].computed
    requires LogStep(y.log, y1.log, id, n)
    requires n + (if IsFinished(y.seqs[id]) then 1 else 0) == if IsFinished(y1.seqs[id]) then 1 else 0
    requires Told(y1)
    ensures Books(y1, done1, brief)
  {
    hide Terminals, SumComputed, NoDup, Faithful, Reported, Told;
    SumSet(y.seqs, y.order, id, y1.seqs[id]);
    FaithfulStep(y, brief, y1, id);
    ReportedStep(y, brief, y1, id, n);
  }

  lemma FaithfulStep(y: Sys, brief: Brief, y1: Sys, id: Id)
    requires Faithful(y, brief) && id in y.seqs && id in y1.seqs && y1.seqs == y.seqs[id := y1.seqs[id]] && Descends(y.seqs[id], y1.seqs[id])
    ensures Faithful(y1, brief)
  {
    forall x | x in y1.seqs ensures x in brief.requests && Serves(y1.seqs[x], brief.requests[x]) {
      assert Serves(y.seqs[x], brief.requests[x]);
      if x == id {
        assert y1.seqs[id].tokens[..y.seqs[id].promptLen] == y.seqs[id].tokens[..y.seqs[id].promptLen];
      }
    }
  }

  lemma ReportedStep(y: Sys, brief: Brief, y1: Sys, id: Id, n: nat)
    requires Reported(y, brief) && id in y.seqs && id in y1.seqs && y1.seqs == y.seqs[id := y1.seqs[id]] && LogStep(y.log, y1.log, id, n)
    requires n + (if IsFinished(y.seqs[id]) then 1 else 0) == if IsFinished(y1.seqs[id]) then 1 else 0
    ensures Reported(y1, brief)
  {
    hide Terminals;
  }

  /** Nothing the books look at changed. */
  lemma BooksFrame(y: Sys, done: seq<Id>, brief: Brief, y1: Sys, done1: seq<Id>)
    requires Books(y, done, brief) && y1.seqs == y.seqs && y1.order == y.order && y1.log == y.log
    requires y1.executed == y.executed && y1.adopted == y.adopted && y1.stats.recomputed == y.stats.recomputed
    requires |y1.waiting| + |y1.running| + |done1| + y1.stats.finished == |y.waiting| + |y.running| + |done| + y.stats.finished
    ensures Books(y1, done1, brief)
  {
    hide Terminals, SumComputed, NoDup, Quiet;
    forall id ensures TellsOf(y1, id) {
      assert TellsOf(y, id);
    }
  }

  // ---- the transitions ----

  lemma RetireBooks(c: Config, y: Sys, done: seq<Id>, brief: Brief, y0: Sys, done0: seq<Id>, id: Id, r: Finish)
    requires Books(y, done, brief) && id in y.seqs && !IsFinished(y.seqs[id])
    requires y0 == y.(waiting := y0.waiting, running := y0.running, stats := y0.stats) && y0.stats.finished == y.stats.finished && y0.stats.recomputed == y.stats.recomputed
    requires |y0.waiting| + |y0.running| + |done0| + 1 == |y.waiting| + |y.running| + |done|
    requires r == Abort || r == Timeout || r == y.seqs[id].finish
    ensures Books(Retire(c, y0, id, r), done0, brief)
  {
    hide Books, Retire, LogStep, Told;
    RetireFrame(c, y0, id, r);
    EndReport(y, done, brief, Retire(c, y0, id, r), id, r);
    BooksStep(y, done, brief, Retire(c, y0, id, r), done0, id, 1);
  }

  /** What a cancellation adds to the record. */
  ghost function AfterCancel(y: Sys, brief: Brief, id: Id): Brief {
    if id in y.running && id !in y.waiting && id in y.seqs && IsFinished(y.seqs[id])
    then brief.(repeated := brief.repeated + multiset{id}) else brief
  }

  /** Cancelling a resident that was already reported reports it again and changes nothing else in the books. */
  lemma RepeatBooks(c: Config, y: Sys, brief: Brief, y0: Sys, id: Id)
    requires Books(y, [], brief) && id in y.seqs && IsFinished(y.seqs[id])
    requires y0 == y.(running := y0.running) && |y0.running| + 1 == |y.running|
    ensures Books(Retire(c, y0, id, Abort), [], brief.(repeated := brief.repeated + multiset{id}))
  {
    hide Retire, Terminals, Told;
    RetireFrame(c, y0, id, Abort);
    var y1 := Retire(c, y0, id, Abort);
    EndReport(y, [], brief, y1, id, Abort);
    SumSet(y.seqs, y.order, id, y1.seqs[id]);
    hide SumComputed, NoDup;
    forall x | x in y1.seqs ensures x in brief.requests && Serves(y1.seqs[x], brief.requests[x]) {
      assert Serves(y.seqs[x], brief.requests[x]);
    }
  }

  lemma AbortBooks(w: World, c: Config, cache: seq<seq<KV>>, y: Sys, brief: Brief, id: Id)
    requires SysInv(w, c, cache, y, []) && Books(y, [], brief)
    ensures Books(AbortRequest(c, y, id), [], AfterCancel(y, brief, id))
  {
    hide SysInv, Books, Retire;
    RunningNoDup(w, c, cache, y);
    if id in y.waiting {
      WaitingUnfinished(w, c, cache, y, id);
      WithoutNoDup(y.waiting, id);
      RetireBooks(c, y, [], brief, y.(waiting := Without(y.waiting, id)), [], id, Abort);
    } else if id in y.running {
      RunningKnown(w, c, cache, y, id);
      WithoutNoDup(y.running, id);
      if IsFinished(y.seqs[id]) {
        RepeatBooks(c, y, brief, y.(running := Without(y.running, id)), id);
      } else {
        RetireBooks(c, y, [], brief, y.(running := Without(y.running, id)), [], id, Abort);
      }
    }
  }

  lemma WaitingUnfinished(w: World, c: Config, cache: seq<seq<KV>>, y: Sys, id: Id)
    requires id in y.waiting && SysInv(w, c, cache, y, [])
    ensures id in y.seqs && !IsFinished(y.seqs[id])
  {
    hide KvOk, Live, InPlay;
    InQueues(w, c, cache, y, [], id);
  }

  lemma AddBooks(y: Sys, brief: Brief, id: Id, prompt: seq<Token>, params: SamplingParams)
    requires Books(y, [], brief) && id !in y.seqs
    ensures Books(Add(y, id, prompt, params), [], brief.(requests := brief.requests[id := Request(prompt, params)]))
  {
    hide Terminals, SumComputed, NoDup, Told, Faithful;
    AddSum(y, id, prompt, params);
    AddTold(y, id, prompt, params);
    AddFaithful(y, brief, id, prompt, params);
  }

  lemma AddFaithful(y: Sys, brief: Brief, id: Id, prompt: seq<Token>, params: SamplingParams)
    requires Faithful(y, brief)
    ensures Faithful(Add(y, id, prompt, params), brief.(requests := brief.requests[id := Request(prompt, params)]))
  {
    var y1, requests := Add(y, id, prompt, params), brief.requests[id := Request(prompt, params)];
    forall x | x in y1.seqs ensures x in requests && Serves(y1.seqs[x], requests[x]) {
      if x == id {
        assert prompt[..|prompt|] == prompt;
      } else {
        assert Serves(y.seqs[x], brief.requests[x]);
      }
    }
  }

  lemma AddTold(y: Sys, id: Id, prompt: seq<Token>, params: SamplingParams)
    requires Told(y) && id !in y.seqs
    ensures Told(Add(y, id, prompt, params))
  {
    hide Streamed, LastReason, Quiet;
    forall x ensures TellsOf(Add(y, id, prompt, params), x) {
      assert TellsOf(y, x);
    }
  }

  lemma AddSum(y: Sys, id: Id, prompt: seq<Token>, params: SamplingParams)
    requires NoDup(y.order) && (forall x :: x in y.order <==> x in y.seqs) && id !in y.seqs
    ensures var y1 := Add(y, id, prompt, params);
            NoDup(y1.order) && (forall x :: x in y1.order <==> x in y1.seqs) && SumComputed(y1.seqs, y1.order) == SumComputed(y.seqs, y.order)
  {
    var y1 := Add(y, id, prompt, params);
    assert y1.order[..|y.order|] == y.order;
    SumSame(y.seqs, y1.seqs, y.order);
  }

  lemma EvictBooks(w: World, c: Config, cache: seq<seq<KV>>, y: Sys, brief: Brief)
    requires y.running != [] && SysInv(w, c, cache, y, []) && Books(y, [], brief)
    ensures Books(Evict(c, y), [], brief)
  {
    hide SysInv, Books, Free, LogStep, Told;
    EvictShape(w, c, cache, y);
    var v := Victim(y).value;
    var y1 := Evict(c, y);
    RunningKnown(w, c, cache, y, v);
    match LastFinished(y, |y.running|)
    case Some(k) =>
      assert y1.seqs == y.seqs[v := y1.seqs[v]];
      NoReport(y, [], brief, y1, v);
      BooksStep(y, [], brief, y1, [], v, 0);
    case None =>
      assert y1.seqs == y.seqs[v := y1.seqs[v]];
      NoReport(y, [], brief, y1, v);
      BooksStep(y, [], brief, y1, [], v, 0);
  }

  lemma {:induction false} PlaceBooks(w: World, c: Config, cache: seq<seq<KV>>, y: Sys, mid: seq<Id>, dec: seq<Id>, i: nat, brief: Brief)
    requires ValidConfig(c.kv) && SysInv(w, c, cache, y, []) && Candidates(c, y, mid, dec, i) && Books(y, [], brief)
    ensures Books(PlaceDecodes(c, y, mid, dec, i).0, [], brief)
    decreases |y.running|, |dec| - i
  {
    hide SysInv, Candidates, GrowFor, Victim, Evict, Books, LogStep, Told;
    if i < |dec| {
      CandidateHere(c, y, mid, dec, i);
      GrowForKeeps(w, c, cache, y, dec[i]);
      var (y1, ok) := GrowFor(c, y, dec[i]);
      if ok {
        GrowCandidates(c, y, y1, mid, dec, i);
        NoReport(y, [], brief, y1, dec[i]);
        BooksStep(y, [], brief, y1, [], dec[i], 0);
        PlaceBooks(w, c, cache, y1, mid, dec, i + 1, brief);
      } else {
        EvictCandidates(w, c, cache, y, mid, dec, i);
        EvictKeeps(w, c, cache, y);
        VictimRunning(y);
        EvictBooks(w, c, cache, y, brief);
        PlaceBooks(w, c, cache, Evict(c, y), Without(mid, Victim(y).value), Without(dec, Victim(y).value), i, brief);
      }
    }
  }

  lemma SettleBooks(w: World, c: Config, cache: seq<seq<KV>>, y: Sys, brief: Brief)
    requires ValidConfig(c.kv) && SysInv(w, c, cache, y, []) && Books(y, [], brief)
    ensures Books(Settle(c, y).0, [], brief)
  {
    hide Books, SysInv, Candidates, PlaceDecodes, MidPrefill, Decoding;
    var y0 := Started(c, y);
    StatsOnly(w, c, cache, y, y0, []);
    BooksFrame(y, [], brief, y0, []);
    StartCandidates(w, c, cache, y0);
    PlaceBooks(w, c, cache, y0, MidPrefill(y0, y0.running), Decoding(y0, y0.running), 0, brief);
  }

  lemma {:induction false} ExpiredLengths(y: Sys, ids: seq<Id>, late: set<Id>)
    ensures |Expired(y, ids, late)| + |Punctual(y, ids, late)| == |ids|
  {
    if ids != [] {
      ExpiredLengths(y, ids[..|ids| - 1], late);
    }
  }

  lemma {:induction false} RetireLateBooks(w: World, c: Config, cache: seq<seq<KV>>, y: Sys, ids: seq<Id>, j: nat, brief: Brief)
    requires j <= |ids| && SysInv(w, c, cache, y, ids[j..]) && Books(y, ids[j..], brief)
    requires forall x :: x in ids[j..] ==> x in y.seqs && !IsFinished(y.seqs[x])
    ensures Books(RetireLate(c, y, ids, j), [], brief)
    decreases |ids| - j
  {
    hide SysInv, Retire, Books;
    if j < |ids| {
      var rest := ids[j..];
      assert rest[0] == ids[j] && ids[j] in rest && rest[1..] == ids[j + 1..];
      var y0 := y.(stats := y.stats.(timedOut := y.stats.timedOut + 1));
      StatsOnly(w, c, cache, y, y0, rest);
      LeavingNoDup(w, c, cache, y, rest);
      RetireLeaving(w, c, cache, y0, rest, Timeout);
      RetireFrame(c, y0, ids[j], Timeout);
      RetireBooks(c, y, rest, brief, y0, ids[j + 1..], ids[j], Timeout);
      var y1 := Retire(c, y0, ids[j], Timeout);
      forall x | x in ids[j + 1..] ensures x in y1.seqs && !IsFinished(y1.seqs[x]) {
        assert x in rest && x != ids[j];
      }
      RetireLateBooks(w, c, cache, y1, ids, j + 1, brief);
    } else {
      assert ids[j..] == [];
    }
  }

  lemma ExpireBooks(w: World, c: Config, cache: seq<seq<KV>>, y: Sys, late: set<Id>, brief: Brief)
    requires SysInv(w, c, cache, y, []) && Books(y, [], brief)
    ensures Books(ExpireQueue(c, y, late), [], brief)
  {
    hide *;
    RunningNoDup(w, c, cache, y);
    ExpiredSplit(y, y.waiting, late);
    ExpiredLengths(y, y.waiting, late);
    var ids := Expired(y, y.waiting, late);
    var y0 := y.(waiting := Punctual(y, y.waiting, late));
    InvParts(w, c, cache, y, []);
    QueuesIs(y, []);
    ToLeaving(w, c, y.seqs, y.waiting, y.running, y0.waiting, ids);
    QueuesIs(y0, ids);
    MakeInv(w, c, cache, y0, ids);
    assert ids[0..] == ids;
    BooksFrame(y, [], brief, y0, ids);
    forall x | x in ids ensures x in y0.seqs && !IsFinished(y0.seqs[x]) {
      WaitingUnfinished(w, c, cache, y, x);
    }
    RetireLateBooks(w, c, cache, y0, ids, 0, brief);
    ExpireIs(c, y, late);
  }

  lemma {:induction false} BumpBooks(w: World, c: Config, cache: seq<seq<KV>>, y: Sys, j: nat, brief: Brief)
    requires SysInv(w, c, cache, y, []) && Books(y, [], brief)
    ensures Books(BumpWaits(y, j), [], brief)
    decreases |y.waiting| - j
  {
    hide SysInv, Books, LogStep, Told;
    if j < |y.waiting| {
      var id := y.waiting[j];
      BumpOneKeeps(w, c, cache, y, id);
      var y1 := SetSeq(y, id, Lookup(y, id).(waitSteps := Lookup(y, id).waitSteps + 1));
      NoReport(y, [], brief, y1, id);
      BooksStep(y, [], brief, y1, [], id, 0);
      BumpBooks(w, c, cache, y1, j + 1, brief);
    }
  }

  lemma AdmitAtBooks(w: World, c: Config, cache: seq<seq<KV>>, y: Sys, step: Step, budget: int, i: nat, brief: Brief)
    requires ValidConfig(c.kv) && i < |y.waiting| && budget > 0 && SysInv(w, c, cache, y, []) && Building(c, y, step)
    requires Adopt(c, y, y.waiting[i]).Some? && Books(y, [], brief)
    ensures i < |Adopt(c, y, y.waiting[i]).value.waiting|
    ensures Books(Start(c, Adopt(c, y, y.waiting[i]).value, step, budget, i).sys, [], brief)
  {
    hide SysInv, Building, Adopt, Books, LogStep, KvOk, RoleOk, Span, Told;
    var id := y.waiting[i];
    AdmitAtKeeps(w, c, cache, y, step, budget, i);
    AdoptFacts(w, c, cache, y, id);
    WaitingZero(w, c, cache, y, id);
    var y1 := Adopt(c, y, id).value;
    var r := Start(c, y1, step, budget, i);
    assert r.sys.seqs == y.seqs[id := r.sys.seqs[id]];
    NoReport(y, [], brief, r.sys, id);
    BooksStep(y, [], brief, r.sys, [], id, 0);
  }

  lemma WaitingZero(w: World, c: Config, cache: seq<seq<KV>>, y: Sys, id: Id)
    requires id in y.waiting && SysInv(w, c, cache, y, [])
    ensures id in y.seqs && !IsFinished(y.seqs[id]) && y.seqs[id].computed == 0
  {
    hide KvOk, Live, InPlay;
    InQueues(w, c, cache, y, [], id);
  }

  lemma {:induction false} ScanBooks(w: World, c: Config, cache: seq<seq<KV>>, y: Sys, step: Step, budget: int, i: nat, limit: nat, brief: Brief)
    requires ValidConfig(c.kv) && budget > 0 && SysInv(w, c, cache, y, []) && Building(c, y, step) && Books(y, [], brief)
    ensures Books(AdmitScan(c, y, step, budget, i, limit).sys, [], brief)
    decreases limit - i
  {
    hide SysInv, Building, Adopt, AdmissionFits, Start, Books;
    if i < limit && i < |y.waiting| {
      var id := y.waiting[i];
      WaitingEmpty(w, c, cache, y, id);
      if AdmissionFits(c, y, Lookup(y, id)) && Adopt(c, y, id).Some? {
        AdmitAtBooks(w, c, cache, y, step, budget, i, brief);
      } else {
        ScanBooks(w, c, cache, y, step, budget, i + 1, limit, brief);
      }
    }
  }

  lemma {:induction false} AdmitAllBooks(w: World, c: Config, cache: seq<seq<KV>>, y: Sys, step: Step, budget: int, brief: Brief)
    requires ValidConfig(c.kv) && 0 <= budget && SysInv(w, c, cache, y, []) && Building(c, y, step) && Books(y, [], brief)
    ensures Books(AdmitAll(c, y, step, budget).0, [], brief)
    decreases |y.waiting|
  {
    hide SysInv, Building, AdmitScan, Books;
    var r := AdmitOne(c, y, step, budget);
    if y.waiting != [] && budget > 0 && |y.running| < c.maxNumSeqs {
      ScanKeeps(w, c, cache, y, step, budget, 0, AdmitLimit(c, y));
      ScanBooks(w, c, cache, y, step, budget, 0, AdmitLimit(c, y), brief);
    }
    if r.admitted {
      AdmitAllBooks(w, c, cache, r.sys, r.step, r.budget, brief);
    }
  }

  lemma AdmissionsBooks(w: World, c: Config, cache: seq<seq<KV>>, y: Sys, dec: seq<Id>, step: Step, budget: int, brief: Brief)
    requires ValidConfig(c.kv) && 0 <= budget && |y.running| <= c.maxNumSeqs && SysInv(w, c, cache, y, []) && Building(c, y, step) && Books(y, [], brief)
    ensures Books(Admissions(c, y, dec, step, budget).0, [], brief)
  {
    hide SysInv, Building, AdmitAll, BumpWaits, SameResidents, Books, Retire;
    var y0 := BumpWaits(y, 0);
    BumpKeeps(w, c, cache, y, 0);
    BumpBooks(w, c, cache, y, 0, brief);
    BuildingFrame(c, y, y0, step);
    AdmitAllKeeps(w, c, cache, y0, step, budget);
    AdmitAllBooks(w, c, cache, y0, step, budget, brief);
    var (y1, step1, budget1) := AdmitAll(c, y0, step, budget);
    var y2 := CloseBatch(c, y1, budget1);
    StatsOnly(w, c, cache, y1, y2, []);
    BooksFrame(y1, [], brief, y2, []);
    if y2.waiting != [] && y2.running == [] && dec == [] {
      WaitingUnfinished(w, c, cache, y2, y2.waiting[0]);
      RetireBooks(c, y2, [], brief, y2.(waiting := y2.waiting[1..]), [], y2.waiting[0], Abort);
    }
  }

  lemma ScheduleBooks(w: World, c: Config, cache: seq<seq<KV>>, y: Sys, late: set<Id>, brief: Brief)
    requires ValidConfig(c.kv) && Inv(w, c, cache, y) && Books(y, [], brief)
    ensures Books(Schedule(c, y, late).0, [], brief)
  {
    hide SysInv, Candidates, Building, SameResidents, NewSlices, IdsIn,
      Settle, PrefillSlices, ExpireQueue, Admissions, DecodeSlices, Schedule, Books;
    ScheduleIs(c, y, late);
    SettleKeeps(w, c, cache, y);
    SettleShrinks(c, y);
    SettleBooks(w, c, cache, y, brief);
    var (y1, mid, dec0) := Settle(c, y);
    EmptyBuilding(c, y1);
    NoIds(mid);
    PrefillSlicesOk(w, c, cache, y1, mid, dec0, 0, EmptyStep, c.maxBatchedTokens);
    var (step1, budget1) := PrefillSlices(c, y1, mid, 0, EmptyStep, c.maxBatchedTokens);
    var dec := Truncated(dec0, budget1);
    var y2 := ExpireQueue(c, y1, late);
    ExpireKeeps(w, c, cache, y1, late);
    ExpireBooks(w, c, cache, y1, late, brief);
    BuildingFrame(c, y1, y2, step1);
    if c.continuous || y.batchOpen || y.running == [] {
      AdmissionsBooks(w, c, cache, y2, dec, step1, budget1 - |dec|, brief);
    }
  }

  // ---- applying a step ----

  lemma LogTwice(log: seq<Event>, log1: seq<Event>, log2: seq<Event>, id: Id, m: nat, n: nat)
    requires LogStep(log, log1, id, m) && LogStep(log1, log2, id, n)
    ensures LogStep(log, log2, id, m + n)
  {
  }

  /** What an appended token adds to the log. */
  lemma AppendEvents(c: Config, y: Sys, used: nat, done: seq<Id>, id: Id, tok: Token)
    requires id in y.seqs
    ensures var s := y.seqs[id].(tokens := y.seqs[id].tokens + [tok]); var r := FinishOf(s, tok);
            var log := if IsStop(s.params, tok) then y.log else y.log + [Emitted(id, tok)];
            Append1(c, Progress(y, used, done), id, tok).sys.log == if r == NoFinish || c.continuous then log else log + [Ended(id, r)]
  {
  }

  lemma AppendLog(c: Config, y: Sys, used: nat, done: seq<Id>, id: Id, tok: Token)
    requires id in y.seqs && !IsFinished(y.seqs[id])
    ensures var g := Append1(c, Progress(y, used, done), id, tok);
            id in g.sys.seqs && LogStep(y.log, g.sys.log, id, if IsFinished(g.sys.seqs[id]) then 1 else 0)
  {
    hide LogStep, Append1;
    var s := y.seqs[id].(tokens := y.seqs[id].tokens + [tok]);
    var r := FinishOf(s, tok);
    AppendEvents(c, y, used, done, id, tok);
    AppendIs(c, y, used, done, id, tok);
    LogNone(y.log, id);
    LogEmitted(y.log, id, tok);
    LogEnded(y.log, id, r);
    LogEnded(y.log + [Emitted(id, tok)], id, r);
    LogTwice(y.log, y.log + [Emitted(id, tok)], y.log + [Emitted(id, tok)] + [Ended(id, r)], id, 0, 1);
  }

  /** The sequence with the token and its outcome. */
  lemma AppendedFits(s: Sequence, s1: Sequence, tok: Token)
    requires s.promptLen <= |s.tokens| && s.finish == NoFinish && ReasonFits(s) && s1.tokens == s.tokens + [tok]
    requires s1.promptLen == s.promptLen && s1.params == s.params && s1.finish == FinishOf(s.(tokens := s1.tokens), tok)
    ensures ReasonFits(s1) && Shown(s) == Generated(s)
    ensures Shown(s1) == if IsStop(s.params, tok) then Shown(s) else Shown(s) + [tok]
  {
    assert Generated(s1) == Generated(s) + [tok];
    assert Generated(s1)[..|Generated(s)|] == Generated(s);
  }

  lemma AppendTells(c: Config, y: Sys, used: nat, done: seq<Id>, id: Id, tok: Token, x: Id)
    requires id in y.seqs && !IsFinished(y.seqs[id]) && y.seqs[id].finish == NoFinish && y.seqs[id].promptLen <= |y.seqs[id].tokens|
    requires TellsOf(y, x)
    ensures TellsOf(Append1(c, Progress(y, used, done), id, tok).sys, x)
  {
    hide Append1, Streamed, LastReason, ReasonFits, Shown, FinishOf;
    AppendEvents(c, y, used, done, id, tok);
    AppendIs(c, y, used, done, id, tok);
    EventAppend(y.log, Emitted(id, tok), x);
    var y1 := Append1(c, Progress(y, used, done), id, tok).sys;
    var r := FinishOf(y.seqs[id].(tokens := y.seqs[id].tokens + [tok]), tok);
    EventAppend(y.log, Ended(id, r), x);
    EventAppend(y.log + [Emitted(id, tok)], Ended(id, r), x);
    if x == id {
      AppendedFits(y.seqs[id], y1.seqs[id], tok);
    }
  }

  lemma QuietAppend(log: seq<Event>, id: Id, tok: Token, r: Finish)
    requires Quiet(log) && Terminals(log, id) == 0
    ensures Quiet(log + [Emitted(id, tok)]) && Quiet(log + [Ended(id, r)]) && Quiet(log + [Emitted(id, tok)] + [Ended(id, r)])
  {
    hide Terminals;
    forall i: nat | i < |log| ensures !(log[i].Ended? && log[i].id == id) {
      NoTerminal(log, id, i);
    }
  }

  lemma AppendReport(c: Config, y: Sys, used: nat, done: seq<Id>, brief: Brief, id: Id, tok: Token)
    requires Books(y, done, brief) && id in y.seqs && !IsFinished(y.seqs[id]) && y.seqs[id].finish == NoFinish && y.seqs[id].promptLen <= |y.seqs[id].tokens|
    ensures Told(Append1(c, Progress(y, used, done), id, tok).sys)
  {
    hide Append1, TellsOf, Quiet, Terminals, SumComputed, NoDup, Faithful;
    var y1 := Append1(c, Progress(y, used, done), id, tok).sys;
    forall x ensures TellsOf(y1, x) {
      AppendTells(c, y, used, done, id, tok, x);
    }
    AppendEvents(c, y, used, done, id, tok);
    assert Terminals(y.log, id) == 0;
    QuietAppend(y.log, id, tok, FinishOf(y.seqs[id].(tokens := y.seqs[id].tokens + [tok]), tok));
  }

  lemma PendingOpen(w: World, c: Config, cache: seq<seq<KV>>, y: Sys, done: seq<Id>, sl: Slice)
    requires Pending(w, c, cache, y, sl) && SysInv(w, c, cache, y, done)
    ensures sl.id in y.seqs && y.seqs[sl.id].finish == NoFinish && y.seqs[sl.id].promptLen <= |y.seqs[sl.id].tokens|
  {
    hide KvOk, SeqContent, InPlay;
    InQueues(w, c, cache, y, done, sl.id);
  }

  lemma SliceDoneBooks(w: World, c: Config, cache: seq<seq<KV>>, g: Progress, sl: Slice, sampled: seq<Token>, brief: Brief)
    requires Pending(w, c, cache, g.sys, sl) && SysInv(w, c, cache, g.sys, g.done) && Books(g.sys, g.done, brief)
    ensures var g1 := SliceDone(c, g, sl, sampled); Books(g1.sys, g1.done, brief)
  {
    hide SysInv, Books, LogStep, SeqContent, KvOk, Append1, Advance, Told;
    var y := g.sys;
    var id := sl.id;
    PendingFacts(w, c, cache, y, g.done, sl);
    PendingOpen(w, c, cache, y, g.done, sl);
    SysKv(w, c, cache, y, g.done);
    AdvanceOk(w, c, cache, y, sl);
    var y1 := Advance(c, y, sl);
    NoReport(y, g.done, brief, y1, id);
    BooksStep(y, g.done, brief, y1, g.done, id, 0);
    if sl.needsLogits {
      var tok := if g.used < |sampled| then sampled[g.used] else 0;
      AppendLog(c, y1, g.used + 1, g.done, id, tok);
      AppendReport(c, y1, g.used + 1, g.done, brief, id, tok);
      AppendIs(c, y1, g.used + 1, g.done, id, tok);
      WithoutNoDup(y1.running, id);
      var g1 := Append1(c, Progress(y1, g.used + 1, g.done), id, tok);
      BooksStep(y1, g.done, brief, g1.sys, g1.done, id, if IsFinished(g1.sys.seqs[id]) then 1 else 0);
    }
  }

  lemma {:induction false} SlicesDoneBooks(w: World, c: Config, cache: seq<seq<KV>>, y0: Sys, slices: seq<Slice>, j: nat, g: Progress, sampled: seq<Token>, brief: Brief)
    requires Applying(w, c, cache, y0, slices, j, g) && Distinct(slices) && Samples(w, y0, slices, sampled) && Books(g.sys, g.done, brief)
    ensures var g1 := SlicesDone(c, g, slices, j, sampled); Books(g1.sys, g1.done, brief)
    decreases |slices| - j
  {
    hide SysInv, SliceDone, Samples, Distinct, Pending, Books;
    if j < |slices| {
      ApplyOne(w, c, cache, y0, slices, j, g, sampled);
      assert Waits(w, c, cache, y0, slices[j], g.sys);
      SliceDoneBooks(w, c, cache, g, slices[j], sampled, brief);
      SlicesDoneBooks(w, c, cache, y0, slices, j + 1, SliceDone(c, g, slices[j], sampled), sampled, brief);
    }
  }

  lemma {:induction false} RetireDoneBooks(w: World, c: Config, cache: seq<seq<KV>>, y: Sys, done: seq<Id>, j: nat, brief: Brief)
    requires j <= |done| && SysInv(w, c, cache, y, done[j..]) && Books(y, done[j..], brief)
    requires forall x :: x in done[j..] ==> x in y.seqs && y.seqs[x].status == Running
    ensures Books(RetireDone(c, y, done, j), [], brief)
    decreases |done| - j
  {
    hide SysInv, Retire, Books;
    if j < |done| {
      var rest := done[j..];
      assert rest[0] == done[j] && done[j] in rest && rest[1..] == done[j + 1..];
      LeavingNoDup(w, c, cache, y, rest);
      var r := y.seqs[done[j]].finish;
      RetireLeaving(w, c, cache, y, rest, r);
      RetireFrame(c, y, done[j], r);
      RetireBooks(c, y, rest, brief, y, done[j + 1..], done[j], r);
      var y1 := Retire(c, y, done[j], r);
      forall x | x in done[j + 1..] ensures x in y1.seqs && y1.seqs[x].status == Running {
        assert x in rest && x != done[j];
      }
      RetireDoneBooks(w, c, cache, y1, done, j + 1, brief);
    } else {
      assert done[j..] == [];
    }
  }

  lemma {:induction false} DrainBooks(w: World, c: Config, cache: seq<seq<KV>>, y: Sys, j: nat, brief: Brief)
    requires j <= |y.running| && SysInv(w, c, cache, y.(running := y.running[j..]), [])
    requires forall i :: j <= i < |y.running| ==> IsFinished(Lookup(y, y.running[i]))
    requires Books(y.(running := y.running[j..]), [], brief)
    ensures Books(DrainBatch(c, y, j), [], brief)
    decreases |y.running| - j
  {
    hide SysInv, Drop, Books, ReleaseFinished;
    if j < |y.running| {
      DrainStep(w, c, cache, y, j);
      ReleaseBooks(w, c, cache, y.(running := y.running[j..]), brief);
      DrainBooks(w, c, cache, DrainOne(c, y, j), j + 1, brief);
    } else {
      assert y.running[j..] == [];
      BooksFrame(y.(running := y.running[j..]), [], brief, y.(running := [], batchOpen := true), []);
    }
  }

  lemma ReleaseBooks(w: World, c: Config, cache: seq<seq<KV>>, z: Sys, brief: Brief)
    requires z.running != [] && IsFinished(Lookup(z, z.running[0])) && SysInv(w, c, cache, z, []) && Books(z, [], brief)
    ensures Books(ReleaseFinished(c, z, 0), [], brief)
  {
    hide SysInv, Free, Books, LogStep, Told;
    var id := z.running[0];
    RunningKnown(w, c, cache, z, id);
    NoReport(z, [], brief, ReleaseFinished(c, z, 0), id);
    BooksStep(z, [], brief, ReleaseFinished(c, z, 0), [], id, 0);
  }

  lemma OnStepDoneBooks(w: World, c: Config, cache: seq<seq<KV>>, y: Sys, step: Step, sampled: seq<Token>, brief: Brief)
    requires Applying(w, c, cache, y, step.slices, 0, Progress(y, 0, [])) && Distinct(step.slices) && Samples(w, y, step.slices, sampled)
    requires Books(y, [], brief)
    ensures Books(OnStepDone(c, y, step, sampled), [], brief)
  {
    hide SysInv, SlicesDone, RetireDone, DrainBatch, Samples, Distinct, Waits, Books;
    SlicesDoneKeeps(w, c, cache, y, step.slices, 0, Progress(y, 0, []), sampled);
    SlicesDoneBooks(w, c, cache, y, step.slices, 0, Progress(y, 0, []), sampled, brief);
    var g := SlicesDone(c, Progress(y, 0, []), step.slices, 0, sampled);
    assert g.done[0..] == g.done;
    RetireDoneKeeps(w, c, cache, g.sys, g.done, 0);
    RetireDoneBooks(w, c, cache, g.sys, g.done, 0, brief);
    var y1 := RetireDone(c, g.sys, g.done, 0);
    if !c.continuous && y1.running != [] && AllFinished(y1) {
      assert y1.running[0..] == y1.running;
      assert y1.(running := y1.running[0..]) == y1;
      DrainBooks(w, c, cache, y1, 0, brief);
    }
  }
}
