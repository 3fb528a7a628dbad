/** The main results, stated about every run of the engine from its initial state. */
module Theorems {
  import opened Lists
  import opened Paging
  import opened BlockPool
  import opened Requests
  import opened PrefixCache
  import opened PrefixTree
  import opened CacheOps
  import opened Network
  import opened Contents
  import opened Reference
  import opened Scheduling
  import opened Roles
  import opened Safety
  import opened Departures
  import opened Steps
  import opened Progressing
  import opened Ledger
  import opened Engine
  import opened Fcfs

  /** A configuration, a model and a hash that may be run together. */
  ghost predicate Sound(w: World, c: Config, cache: seq<seq<KV>>) {
    c.kv == w.c && ValidPolicy(c) && NoCollision(w.c, w.universe) && Shape(w, cache)
  }

  ghost predicate Reached(w: World, c: Config, cache: seq<seq<KV>>, inputs: seq<Input>, m: Machine) {
    && Sound(w, c, cache)
    && ValidRun(w, c, Boot(c, cache), inputs) && m == Run(c, w.net, Boot(c, cache), inputs)
  }

  lemma ReachedInv(w: World, c: Config, cache: seq<seq<KV>>, inputs: seq<Input>, m: Machine)
    requires Reached(w, c, cache, inputs, m)
    ensures SysInv(w, c, m.cache, m.sys, []) && |m.sys.running| <= c.maxNumSeqs && Books(m.sys, [], BriefOf(w, c, Boot(c, cache), inputs))
  {
    hide SysInv, Books, Run, Boot, ValidRun, BriefOf, NoCollision, Shape;
    RunKeeps(w, c, cache, inputs);
  }

  /** A sequence's output against what its request generates alone. */
  ghost predicate OutputOk(net: Net, r: Request, s: Sequence) {
    && r.prompt != [] && s.promptLen == |r.prompt|
    && r.prompt <= s.tokens && s.tokens <= RefOutput(net, r.params, r.prompt)
    && (s.finish == Stop || s.finish == Length ==> s.tokens == RefOutput(net, r.params, r.prompt))
    && NumGenerated(s) <= r.params.maxTokens
  }

  /**
   Schedule independence. After any run, under any budget, chunk size, lookahead, watermark, cache
   setting, batching mode, preemption pattern, cancellation and expiry, each sequence's tokens are a
   prefix of what its own request generates alone, and all of it when it ended by Stop or Length.
   */
  lemma ScheduleIndependence(w: World, c: Config, cache: seq<seq<KV>>, inputs: seq<Input>, m: Machine, id: Id)
    requires Reached(w, c, cache, inputs, m) && id in m.sys.seqs
    ensures id in BriefOf(w, c, Boot(c, cache), inputs).requests
    ensures OutputOk(w.net, BriefOf(w, c, Boot(c, cache), inputs).requests[id], m.sys.seqs[id])
  {
    hide Reached, Boot, BriefOf, Run, KvOk, InPlay, NoDup, SumComputed, Terminals, Continue;
    ReachedInv(w, c, cache, inputs, m);
    var s := m.sys.seqs[id];
    assert Serves(s, BriefOf(w, c, Boot(c, cache), inputs).requests[id]);
    RoleOf(w, c, m.sys.seqs, QueuesOf(m.sys, []), id);
    OutputOfRole(w, c, s, id in m.sys.waiting, id in m.sys.running);
    hide SysInv, Books;
  }

  lemma OutputOfRole(w: World, c: Config, s: Sequence, inWaiting: bool, inRunning: bool)
    requires RoleOk(w, c, s, inWaiting, inRunning, false)
    ensures WellFormed(s) && s.tokens <= RefOf(w.net, s) && NumGenerated(s) <= s.params.maxTokens
    ensures s.finish == Stop || s.finish == Length ==> s.tokens == RefOf(w.net, s)
  {
    hide InPlay, RefOf, Continue, Span;
    RefBounded(w.net, s);
    if (inWaiting || inRunning) && Live(w.net, s) {
      LivePrefix(w.net, s);
    }
  }

  /** K/V content agreement: slot(pos) of a resident holds the K/V of exactly tokens[0..pos], in every layer. */
  lemma ContentAgreement(w: World, c: Config, cache: seq<seq<KV>>, inputs: seq<Input>, m: Machine, id: Id, pos: nat, l: nat)
    requires Reached(w, c, cache, inputs, m) && id in m.sys.running && id in m.sys.seqs && pos < m.sys.seqs[id].computed && l < |m.cache|
    ensures ValidConfig(c.kv) && pos < |m.sys.seqs[id].tokens|
    ensures Quot(c.kv.blockSize, pos) < |m.sys.seqs[id].table.blocks|
    ensures At(m.cache[l], Slot(c.kv, m.sys.seqs[id].table.blocks, pos)) == RefKV(w.net, l, m.sys.seqs[id].tokens[..pos + 1])
  {
    hide Reached, CacheInv, LabelContents, Live, InPlay, RefOf, Span;
    ReachedInv(w, c, cache, inputs, m);
    InQueues(w, c, m.cache, m.sys, [], id);
    var s := m.sys.seqs[id];
    assert SeqContent(w, m.cache, s) && Computed(w.c, s, pos);
    PosInTable(w.c, s.table.blocks, pos);
    hide RoleOk, RolesInv, Books;
  }

  /** Exactly one of: free, cached, owned. */
  ghost predicate OneOf(p: Pool, owned: multiset<Block>, b: Block) {
    && (b in p.free || b in p.lru || b in owned)
    && !(b in p.free && b in p.lru) && !(b in p.free && b in owned) && !(b in p.lru && b in owned)
  }

  /** Every block is in exactly one population, and its reference count is its number of table entries. */
  lemma PoolPartition(w: World, c: Config, cache: seq<seq<KV>>, inputs: seq<Input>, m: Machine, b: Block)
    requires Reached(w, c, cache, inputs, m) && b < c.kv.numBlocks
    ensures var owned := Owned(m.sys.seqs, m.sys.order);
            OneOf(m.sys.pool, owned, b) && b < |m.sys.pool.refs| && m.sys.pool.refs[b] == owned[b]
    ensures b in Owned(m.sys.seqs, m.sys.order) <==> exists id :: id in m.sys.running && id in m.sys.seqs && b in m.sys.seqs[id].table.blocks
  {
    hide Reached, NoDup, InPlay, HashIndexInv, TreeInv, TablesInv, NoCollision, Shape, LabelContents, SeqContents, RoleOk, Books, Owned;
    ReachedInv(w, c, cache, inputs, m);
    OwnedEntry(m.sys.seqs, m.sys.order, b);
    forall id | id in m.sys.seqs && b in m.sys.seqs[id].table.blocks ensures id in m.sys.running {
      Resident(w, c, m.cache, m.sys, id);
    }
  }

  /** Nothing is resident, so every block is available again. */
  lemma DrainedPoolIsWhole(w: World, c: Config, cache: seq<seq<KV>>, inputs: seq<Input>, m: Machine)
    requires Reached(w, c, cache, inputs, m) && m.sys.running == []
    ensures Available(m.sys.pool) == c.kv.numBlocks
  {
    hide Reached, SysInv, Books;
    ReachedInv(w, c, cache, inputs, m);
    NobodyResident(w, c, m.cache, m.sys);
  }

  /**
   The published prefix cache is prefix-closed, a lookup counts exactly the published prefixes,
   and nothing published extends the block that would be evicted next.
   */
  lemma PrefixCacheClosed(w: World, c: Config, cache: seq<seq<KV>>, inputs: seq<Input>, m: Machine, toks: seq<Token>, j: nat, k: nat)
    requires Reached(w, c, cache, inputs, m) && InPlay(w.universe, toks) && 1 <= j <= k
    ensures ValidConfig(c.kv)
    ensures PublishedPrefix(c.kv, m.sys.pool, toks, k) ==> PublishedPrefix(c.kv, m.sys.pool, toks, j)
    ensures k <= CachedBlocks(c.kv, m.sys.pool, toks) <==> PublishedPrefix(c.kv, m.sys.pool, toks, k)
    ensures m.sys.pool.lru != [] ==>
              m.sys.pool.lru[0] in m.sys.pool.labels
              && forall b :: b in m.sys.pool.labels ==> !IsChild(c.kv, m.sys.pool.labels[b], m.sys.pool.labels[m.sys.pool.lru[0]])
  {
    hide *;
    ReachedInv(w, c, cache, inputs, m);
    InvParts(w, c, m.cache, m.sys, []);
    var p := m.sys.pool;
    OpenKv(w, m.cache, p, m.sys.seqs, m.sys.order);
    OpenCache(w.c, w.universe, p, m.sys.seqs, m.sys.order);
    PublishedParts(w.c, w.universe, p);
    LookupExact(w.c, w.universe, p, m.sys.seqs, m.sys.order, toks, k);
    if PublishedPrefix(w.c, p, toks, k) {
      PublishedDown(w.c, w.universe, p, toks, j, k);
    }
    if p.lru != [] {
      FrontHashed(w.c, p);
      forall b | b in p.labels ensures !IsChild(w.c, p.labels[b], p.labels[p.lru[0]]) {
        FrontIsLeaf(w.c, p, b);
      }
    }
  }

  lemma FrontHashed(c: KvConfig, p: Pool)
    requires ListsInv(c, p) && HashIndexInv(c, p) && p.lru != []
    ensures p.lru[0] in p.labels
  {
    assert p.lru[0] in p.lru;
  }

  /** Every owner of a published block owns its parent, and a cached child is evicted before its cached parent. */
  lemma ParentsOutlive(w: World, c: Config, cache: seq<seq<KV>>, inputs: seq<Input>, m: Machine, child: Block, parent: Block)
    requires Reached(w, c, cache, inputs, m) && child in m.sys.pool.labels && parent in m.sys.pool.labels
    requires IsChild(c.kv, m.sys.pool.labels[child], m.sys.pool.labels[parent])
    ensures forall id :: id in m.sys.seqs && child in m.sys.seqs[id].table.blocks ==> parent in m.sys.seqs[id].table.blocks
    ensures forall j :: 0 <= j < |m.sys.pool.lru| && m.sys.pool.lru[j] == parent ==> child in m.sys.pool.lru[..j]
  {
    hide Reached, SysInv, Books, NoCollision, PoolInv, HashedEntry, Shape, LabelContents, SeqContents, LabelsInv, EntryLabels, TableInv;
    ReachedInv(w, c, cache, inputs, m);
    InvParts(w, c, m.cache, m.sys, []);
    var y := m.sys;
    OpenKv(w, m.cache, y.pool, y.seqs, y.order);
    OpenCache(w.c, w.universe, y.pool, y.seqs, y.order);
    PublishedParts(w.c, w.universe, y.pool);
    forall id | id in y.seqs && child in y.seqs[id].table.blocks ensures parent in y.seqs[id].table.blocks {
      var t := y.seqs[id].table;
      var i :| 0 <= i < |t.blocks| && t.blocks[i] == child;
      assert TableInv(w.c, y.pool, t, y.seqs[id].tokens) && EntryLabels(w.c, y.pool, t, y.seqs[id].tokens);
      EntryOwnsParent(w.c, w.universe, y.pool, t, y.seqs[id].tokens, i, parent);
    }
  }

  /** The hash index and the non-zero block hashes are mutually inverse, and every table entry stores its block's hash. */
  lemma HashIndexExact(w: World, c: Config, cache: seq<seq<KV>>, inputs: seq<Input>, m: Machine, h: Hash, b: Block)
    requires Reached(w, c, cache, inputs, m)
    ensures h in m.sys.pool.hashToBlock && m.sys.pool.hashToBlock[h] == b <==> h != 0 && b < |m.sys.pool.blockHash| && m.sys.pool.blockHash[b] == h
    ensures forall id, i :: id in m.sys.seqs && 0 <= i < |m.sys.seqs[id].table.blocks| ==>
              && i < |m.sys.seqs[id].table.hashes| && m.sys.seqs[id].table.blocks[i] < |m.sys.pool.blockHash|
              && m.sys.seqs[id].table.hashes[i] == m.sys.pool.blockHash[m.sys.seqs[id].table.blocks[i]]
  {
    hide Reached, SysInv, Books, NoCollision, TreeInv, HashedEntry, Shape, LabelContents, SeqContents, CountInv, NoDup;
    ReachedInv(w, c, cache, inputs, m);
    InvParts(w, c, m.cache, m.sys, []);
    OpenKv(w, m.cache, m.sys.pool, m.sys.seqs, m.sys.order);
    OpenCache(w.c, w.universe, m.sys.pool, m.sys.seqs, m.sys.order);
    assert Get(m.sys.pool.blockHash, b) == if b < |m.sys.pool.blockHash| then m.sys.pool.blockHash[b] else 0;
    forall id | id in m.sys.seqs ensures TableInv(c.kv, m.sys.pool, m.sys.seqs[id].table, m.sys.seqs[id].tokens) {
    }
  }

  /** Every step the engine emits is valid, within the token budget and the resident limit. */
  lemma EveryStepValid(w: World, c: Config, cache: seq<seq<KV>>, inputs: seq<Input>, m: Machine, late: set<Id>)
    requires Reached(w, c, cache, inputs, m)
    ensures ValidConfig(c.kv)
    ensures var (y, step) := Schedule(c, m.sys, late);
            && StepValid(c, y, step) && step.prefillTokens + step.decodeTokens <= c.maxBatchedTokens && |y.running| <= c.maxNumSeqs
            && CanRun(w.net, m.cache, Works(y.seqs, step.slices))
  {
    hide Schedule, StepValid, SysInv, Books, Reached, CanRun, Works;
    ReachedInv(w, c, cache, inputs, m);
    ConfigOf(w, c, m.cache, m.sys, []);
    ScheduleKeeps(w, c, m.cache, m.sys, late);
    var (y, step) := Schedule(c, m.sys, late);
    ForwardReady(w, c, m.cache, y, step);
  }

  /** Conservation of requests, of computed tokens and of terminal callbacks, in both modes. */
  lemma Conservation(w: World, c: Config, cache: seq<seq<KV>>, inputs: seq<Input>, m: Machine, id: Id)
    requires Reached(w, c, cache, inputs, m)
    ensures |m.sys.order| == |m.sys.waiting| + |m.sys.running| + m.sys.stats.finished
    ensures m.sys.executed + m.sys.adopted == SumComputed(m.sys.seqs, m.sys.order) + m.sys.stats.recomputed
    ensures id in m.sys.seqs ==>
              if IsFinished(m.sys.seqs[id]) then Terminals(m.sys.log, id) == 1 + BriefOf(w, c, Boot(c, cache), inputs).repeated[id]
              else Terminals(m.sys.log, id) == 0
    ensures c.continuous && id in m.sys.seqs ==>
              Terminals(m.sys.log, id) == if id in m.sys.waiting || id in m.sys.running then 0 else 1
  {
    hide Reached, Boot, BriefOf, Run, KvOk, InPlay, NoDup, SumComputed, Terminals, Live, RefOf, Over;
    ReachedInv(w, c, cache, inputs, m);
    NoRepeats(w, c, cache, inputs, m);
    if id in m.sys.seqs {
      RoleOf(w, c, m.sys.seqs, QueuesOf(m.sys, []), id);
    }
  }

  /** Continuous mode never has a finished resident, so no cancellation repeats a report. */
  lemma {:induction false} NoRepeats(w: World, c: Config, cache: seq<seq<KV>>, inputs: seq<Input>, m: Machine)
    requires Reached(w, c, cache, inputs, m)
    ensures c.continuous ==> BriefOf(w, c, Boot(c, cache), inputs).repeated == multiset{}
    decreases |inputs|
  {
    if inputs != [] && c.continuous {
      var n := |inputs| - 1;
      var m0 := Run(c, w.net, Boot(c, cache), inputs[..n]);
      hide Boot, Run, Sound;
      assert Reached(w, c, cache, inputs[..n], m0);
      NoRepeats(w, c, cache, inputs[..n], m0);
      ReachedInv(w, c, cache, inputs[..n], m0);
      hide Reached, SysInv, Books;
      match inputs[n]
      case Arrive(_, _, _) =>
      case Tick(_) =>
      case Cancel(id) =>
        if id in m0.sys.running {
          NobodyFinished(w, c, m0.cache, m0.sys, id);
        }
    }
  }

  /** In every reachable state a cancellation takes the request out, reports it once with `Abort` and touches nobody else. */
  lemma CancelExact(w: World, c: Config, cache: seq<seq<KV>>, inputs: seq<Input>, m: Machine, id: Id)
    requires Reached(w, c, cache, inputs, m)
    ensures ValidConfig(c.kv)
    ensures var m1 := Apply(c, w.net, m, Cancel(id)); Cancelled(m.sys, m1.sys, id) && m1.cache == m.cache
  {
    hide Reached, SysInv, Books, AbortRequest, Cancelled;
    ReachedInv(w, c, cache, inputs, m);
    ConfigOf(w, c, m.cache, m.sys, []);
    AbortCancels(w, c, m.cache, m.sys, id);
  }

  /**
   What a client is streamed, in every reachable state: the generated tokens, in order and each once, without a
   stop token at the end; and nothing after the terminal callback.
   */
  lemma ClientStream(w: World, c: Config, cache: seq<seq<KV>>, inputs: seq<Input>, m: Machine, id: Id)
    requires Reached(w, c, cache, inputs, m)
    ensures id !in m.sys.seqs ==> Streamed(m.sys.log, id) == []
    ensures id in m.sys.seqs ==>
              var s := m.sys.seqs[id];
              && s.promptLen <= |s.tokens|
              && (var gen := s.tokens[s.promptLen..];
                  Streamed(m.sys.log, id) ==
                  if gen != [] && !s.params.ignoreEos && gen[|gen| - 1] in s.params.stopIds then gen[..|gen| - 1] else gen)
    ensures forall i, j :: 0 <= i < j < |m.sys.log| && m.sys.log[i].Ended? && m.sys.log[i].id == id && m.sys.log[j].Emitted? ==> m.sys.log[j].id != id
  {
    hide Reached, SysInv, Terminals, SumComputed, NoDup, Streamed, LastReason, ReasonFits, Faithful, Reported;
    ReachedInv(w, c, cache, inputs, m);
    assert TellsOf(m.sys, id);
    if id in m.sys.seqs {
      PromptIn(w, c, m.cache, m.sys, id);
    }
  }

  lemma PromptIn(w: World, c: Config, cache: seq<seq<KV>>, y: Sys, id: Id)
    requires SysInv(w, c, cache, y, []) && id in y.seqs
    ensures y.seqs[id].promptLen <= |y.seqs[id].tokens| && NumGenerated(y.seqs[id]) <= y.seqs[id].params.maxTokens
    ensures y.seqs[id].finish == NoFinish ==> NumGenerated(y.seqs[id]) < y.seqs[id].params.maxTokens && !IsFinished(y.seqs[id])
    ensures !IsFinished(y.seqs[id]) ==> y.seqs[id].finish == NoFinish
  {
    hide KvOk, InPlay, Continue, Span, RefOf;
    RoleOf(w, c, y.seqs, QueuesOf(y, []), id);
    var s := y.seqs[id];
    RefBounded(w.net, s);
    if id in y.waiting || id in y.running {
      if Live(w.net, s) { LivePrefix(w.net, s); }
    }
  }

  /**
   What the finish reason says, in every reachable state. Stop: the last token is a stop token. Length: it is not, and
   there are exactly `max_tokens`. Not finished: no stop token yet, and fewer. The last terminal callback gave that reason.
   */
  lemma FinishReasons(w: World, c: Config, cache: seq<seq<KV>>, inputs: seq<Input>, m: Machine, id: Id)
    requires Reached(w, c, cache, inputs, m) && id in m.sys.seqs && m.sys.seqs[id].promptLen <= |m.sys.seqs[id].tokens|
    ensures var s := m.sys.seqs[id]; var last := |s.tokens| - 1;
            && (forall k :: s.promptLen <= k < last ==> !StopsAt(s.params, s.tokens, k))
            && (s.finish == Stop ==> last >= s.promptLen && StopsAt(s.params, s.tokens, last))
            && (s.finish == Length ==> !StopsAt(s.params, s.tokens, last) && |s.tokens| == s.promptLen + s.params.maxTokens)
            && (s.finish == NoFinish ==> (last >= s.promptLen ==> !StopsAt(s.params, s.tokens, last)) && |s.tokens| < s.promptLen + s.params.maxTokens)
            && (s.finish == NoFinish <==> !IsFinished(s))
    ensures IsFinished(m.sys.seqs[id]) ==> exists i :: EndsAt(m.sys.log, id, m.sys.seqs[id].finish, i)
    ensures !IsFinished(m.sys.seqs[id]) ==> forall i :: 0 <= i < |m.sys.log| ==> !(m.sys.log[i].Ended? && m.sys.log[i].id == id)
  {
    hide Reached, SysInv, SumComputed, NoDup, Streamed, LastReason, Faithful, Quiet, Terminals, EndsAt, BriefOf, StopsAt, ReasonFits;
    ReachedInv(w, c, cache, inputs, m);
    assert TellsOf(m.sys, id);
    PromptIn(w, c, m.cache, m.sys, id);
    ReasonsAre(m.sys.seqs[id]);
    if IsFinished(m.sys.seqs[id]) {
      assert Terminals(m.sys.log, id) > 0;
      LastEnd(m.sys.log, id);
    } else {
      forall i | 0 <= i < |m.sys.log| ensures !(m.sys.log[i].Ended? && m.sys.log[i].id == id) {
        NoTerminal(m.sys.log, id, i);
      }
    }
  }

  lemma ReasonsAre(s: Sequence)
    requires ReasonFits(s) && s.promptLen <= |s.tokens|
    ensures var last := |s.tokens| - 1;
            && (forall k :: s.promptLen <= k < last ==> !StopsAt(s.params, s.tokens, k))
            && (s.finish == NoFinish && last >= s.promptLen ==> !StopsAt(s.params, s.tokens, last))
            && (s.finish == Stop ==> last >= s.promptLen && StopsAt(s.params, s.tokens, last))
            && (s.finish == Length ==> !StopsAt(s.params, s.tokens, last) && |s.tokens| >= s.promptLen + s.params.maxTokens)
  {
    var gen := Generated(s);
    forall k | s.promptLen <= k < |s.tokens| ensures s.tokens[k] == gen[k - s.promptLen] {
    }
  }

  /** The last terminal callback for `id` is at position `i` and gives the reason `r`. */
  ghost predicate EndsAt(log: seq<Event>, id: Id, r: Finish, i: int) {
    0 <= i < |log| && log[i] == Ended(id, r) && forall j :: i < j < |log| ==> !(log[j].Ended? && log[j].id == id)
  }

  lemma {:induction false} LastEnd(log: seq<Event>, id: Id)
    requires Terminals(log, id) > 0
    ensures exists i :: EndsAt(log, id, LastReason(log, id), i)
  {
    var n := |log| - 1;
    if log[n].Ended? && log[n].id == id {
      assert LastReason(log, id) == log[n].reason && log[n] == Ended(id, log[n].reason);
      assert EndsAt(log, id, LastReason(log, id), n);
    } else {
      LastEnd(log[..n], id);
      var i :| EndsAt(log[..n], id, LastReason(log[..n], id), i);
      assert EndsAt(log, id, LastReason(log, id), i);
    }
  }
}
