/**
 Runs with prefix caching. After the prompt [5] has been served its block is idle and published. Two more requests
 for [5] share that block and both write to it; a request for [5, 6] revives it and misses the watermark.
 */
module CachedRun {
  import opened Lists
  import opened Paging
  import opened BlockPool
  import opened Requests
  import opened PrefixCache
  import opened PrefixTree
  import opened CacheOps
  import opened Network
  import opened Contents
  import opened Reference
  import opened Scheduling
  import opened Roles
  import opened Safety
  import opened Steps
  import opened Progressing
  import opened Ledger
  import opened Engine
  import opened Theorems
  import opened Fcfs
  import opened Admitting
  import opened Drain
  import opened Rewrites
  import opened Witnesses

  function Mix(h: Hash, t: seq<Token>): Hash {
    10 * h + 1 + if |t| == 1 && t[0] >= 0 then t[0] else 0
  }

  /** Three blocks of one token, a watermark of two. */
  const Conf: Config := Config(KvConfig(3, 1, true, Mix), true, 2, 8, 8, 1, 64, 2)

  ghost const Played: World := World(Conf.kv, Sevens, {[5, 7], [5, 6, 7]})

  // ---- the hash does not collide on what is in play ----

  lemma Spans()
    ensures Span(1, 0) == 0 && Span(1, 1) == 1 && Span(1, 2) == 2 && Span(1, 3) == 3
  {
  }

  lemma {:induction false} SpanOne(k: nat)
    ensures Span(1, k) == k
  {
    if k > 0 { SpanOne(k - 1); }
  }

  lemma Chains()
    ensures Chain(Conf.kv, [5], 1) == 6 && Chain(Conf.kv, [5, 7], 2) == 68 && Chain(Conf.kv, [5, 6], 2) == 67 && Chain(Conf.kv, [5, 6, 7], 3) == 678
    ensures Chain(Conf.kv, [5, 6], 1) == 6
  {
    Spans();
    assert Piece(Conf.kv, [5], 0) == [5] && Piece(Conf.kv, [5, 6], 0) == [5] && Piece(Conf.kv, [5, 7], 0) == [5] && Piece(Conf.kv, [5, 6, 7], 0) == [5];
    assert Piece(Conf.kv, [5, 6], 1) == [6] && Piece(Conf.kv, [5, 7], 1) == [7] && Piece(Conf.kv, [5, 6, 7], 1) == [6];
    assert Piece(Conf.kv, [5, 6, 7], 2) == [7];
    hide Piece, Span;
    assert Chain(Conf.kv, [5, 6], 1) == 6 && Chain(Conf.kv, [5, 7], 1) == 6 && Chain(Conf.kv, [5, 6, 7], 1) == 6;
    assert Chain(Conf.kv, [5, 6, 7], 2) == 67;
  }

  function HashOf(x: seq<Token>): Hash {
    if x == [5] then 6 else if x == [5, 7] then 68 else if x == [5, 6] then 67 else 678
  }

  lemma InPlayHash(x: seq<Token>, h: Hash, k: nat)
    requires InPlay(Played.universe, x) && LabelAt(Conf.kv, x, h, k)
    ensures (x == [5] || x == [5, 7] || x == [5, 6] || x == [5, 6, 7]) && h == HashOf(x)
  {
    hide Chain, Span;
    SpanOne(k);
    Chains();
    var u :| u in Played.universe && x <= u;
    assert x == u[..|x|];
    assert u == [5, 7] || u == [5, 6, 7];
  }

  lemma PlayedSound()
    ensures Sound(Played, Conf, Blank(Conf.kv))
  {
    hide InPlay, LabelAt;
    forall x, y, h, j: nat, k: nat | InPlay(Played.universe, x) && InPlay(Played.universe, y) && LabelAt(Conf.kv, x, h, j) && LabelAt(Conf.kv, y, h, k)
      ensures x == y
    {
      InPlayHash(x, h, j);
      InPlayHash(y, h, k);
    }
  }

  lemma Outputs()
    ensures InPlay(Played.universe, RefOutput(Sevens, Params(1), [5])) && InPlay(Played.universe, RefOutput(Sevens, Params(1), [5, 6]))
  {
    assert RefOutput(Sevens, Params(1), [5]) == [5, 7];
    assert RefOutput(Sevens, Params(1), [5, 6]) == [5, 6, 7];
  }

  // ---- the first request ----

  const Five: Input := Arrive(0, [5], Params(1))

  function Queued(steps: nat, waits: nat): Sys {
    Sys(FreshPool(Conf.kv), map[0 := NewSequence([5], Params(1)).(waitSteps := waits)],
        [0], [], true, Stats(steps, 0, 0, 0, 0, 0, 0), [0], [], 0, 0)
  }

  lemma AskedReach()
    ensures Reached(Played, Conf, Blank(Conf.kv), [Five], Machine(Queued(0, 0), Blank(Conf.kv)))
  {
    hide Reached, RefOutput, Blank, Sound, InPlay;
    PlayedSound();
    Outputs();
    var m0 := Boot(Conf, Blank(Conf.kv));
    ReachBoot(Played, Conf, Blank(Conf.kv));
    ReachSnoc(Played, Conf, Blank(Conf.kv), [], m0, Five);
    assert [] + [Five] == [Five];
    var y := Apply(Conf, Sevens, m0, Five).sys;
    assert y.seqs == Queued(0, 0).seqs && y.waiting == [0] && y.order == [0];
    assert y == Queued(0, 0);
  }

  lemma Sizes()
    ensures ValidConfig(Conf.kv) && BlocksNeeded(Conf.kv, 1) == 1 && BlocksNeeded(Conf.kv, 2) == 2
    ensures Quot(1, 1) == 1 && Quot(1, 2) == 2
    ensures FreshPool(Conf.kv) == Pool([2, 1, 0], [0, 0, 0], map[], [0, 0, 0], [], map[])
  {
    assert Countdown(0) == [] && Countdown(1) == [0] && Countdown(2) == [1, 0];
    assert Quot(1, 0) == 0;
  }

  lemma QueuedBumps()
    ensures Queued(0, 0).running == [] && BumpWaits(Started(Conf, Queued(0, 0)), 0) == Queued(1, 1)
  {
    hide BumpWaits;
    var y := Started(Conf, Queued(0, 0));
    BumpOneOnly(y, 0);
    assert BumpId(y, 0).seqs == Queued(1, 1).seqs;
  }

  const First: Slice := Slice(0, 0, 1, true, true)

  function Seated(): Sys {
    Seat(Queued(1, 1), 0)
  }

  lemma SeatFirst()
    ensures ValidConfig(Conf.kv) && AdmitAll(Conf, Queued(1, 1), EmptyStep, 8) == (Seated(), Step([First], 1, 0, 1), 7)
  {
    hide AdmitOne, BlocksNeeded, Chain;
    Sizes();
    Chains();
    SeatHead(Conf, Queued(1, 1), EmptyStep, 8);
    assert AddPrefill(EmptyStep, 0, NewSequence([5], Params(1)).(waitSteps := 1), 1) == Step([First], 1, 0, 1);
    NobodyWaits(Conf, Seated(), Step([First], 1, 0, 1), 7);
  }

  lemma NobodyWaits(c: Config, y: Sys, step: Step, budget: int)
    requires ValidConfig(c.kv) && y.waiting == []
    ensures AdmitAll(c, y, step, budget) == (y, step, budget)
  {
  }

  lemma SeatedParts()
    ensures Seated().running == [0] && Seated().waiting == [] && Seated().seqs.Keys == {0} && Seated().batchOpen
    ensures Seated().seqs[0] == NewSequence([5], Params(1)).(waitSteps := 1, table := Table([0], [0], 0), status := Running)
    ensures Seated().pool == Pool([2, 1], [1, 0, 0], map[], [0, 0, 0], [], map[])
  {
    Sizes();
  }

  lemma FirstRound()
    ensures ValidConfig(Conf.kv) && Schedule(Conf, Queued(0, 0), {}) == (Seated(), Step([First], 1, 0, 1))
  {
    hide Schedule, AdmitAll, Seated, Queued;
    Sizes();
    QueuedBumps();
    FreshRound(Conf, Queued(0, 0));
    SeatFirst();
    SeatedParts();
    assert CloseBatch(Conf, Seated(), 7) == Seated();
    assert RejectHead(Conf, Seated(), []) == Seated();
  }

  /** The pool after the first request: block 0 holds [5], published and idle. */
  const Idle: Pool := Pool([2, 1], [0, 0, 0], map[6 := 0], [6, 0, 0], [0], map[0 := [5]])

  ghost predicate Warm(y: Sys) {
    y.pool == Idle && y.running == [] && y.waiting == [] && y.seqs.Keys == {0} && y.batchOpen
  }

  lemma Publishes()
    ensures CommitComputed(Conf.kv, Seated().pool, Table([0], [0], 0), [5], 1) ==
            (Pool([2, 1], [1, 0, 0], map[6 := 0], [6, 0, 0], [], map[0 := [5]]), Table([0], [6], 1))
  {
    hide Seated, Chain, Span;
    SeatedParts();
    Chains();
    Spans();
    var p := Seated().pool;
    assert Piece(Conf.kv, [5], 0) == [5] && PrefixTo(Conf.kv, [5], 1) == [5];
    assert HashBlock(Conf.kv, 0, [5]) == 6 by { assert Mix(0, [5]) == 6; }
    assert Publish(p, 0, 6, [5]) == Pool([2, 1], [1, 0, 0], map[6 := 0], [6, 0, 0], [], map[0 := [5]]);
    assert Table([0], [0], 0).hashes[0 := 6] == [6];
    assert HashFullBlock(Conf.kv, p, Table([0], [0], 0), 0, [5]) ==
           (Pool([2, 1], [1, 0, 0], map[6 := 0], [6, 0, 0], [], map[0 := [5]]), Table([0], [6], 0));
  }

  lemma Releases(p: Pool)
    requires p == Pool([2, 1], [1, 0, 0], map[6 := 0], [6, 0, 0], [], map[0 := [5]])
    ensures Free(Conf.kv, p, Table([0], [6], 1)) == Idle
  {
    assert ReleaseBlock(Conf.kv, p, 0, 6) == Idle;
    assert FreeFrom(Conf.kv, Idle, Table([0], [6], 1), 0) == Idle;
  }

  lemma FirstDone(g: Progress)
    requires g == SliceDone(Conf, Progress(Seated(), 0, []), First, Seven(1))
    ensures g.sys.pool == Pool([2, 1], [1, 0, 0], map[6 := 0], [6, 0, 0], [], map[0 := [5]]) && g.done == [0]
    ensures g.sys.running == [] && g.sys.waiting == [] && g.sys.batchOpen && g.sys.seqs.Keys == {0} && g.sys.seqs[0].table == Table([0], [6], 1)
  {
    hide Seated, Append1, Seven, CommitComputed;
    SeatedParts();
    Publishes();
    AppendIs(Conf, Advance(Conf, Seated(), First), 1, [], 0, 7);
    assert Without([0], 0) == [];
  }

  lemma StepWarms()
    ensures Warm(OnStepDone(Conf, Seated(), Step([First], 1, 0, 1), Seven(1)))
  {
    hide Seated, Seven, SliceDone, Free;
    var g0 := Progress(Seated(), 0, []);
    OneSlice(Conf, g0, First, Seven(1));
    var g1 := SliceDone(Conf, g0, First, Seven(1));
    FirstDone(g1);
    Releases(g1.sys.pool);
    var y2 := Retire(Conf, g1.sys, 0, Lookup(g1.sys, 0).finish);
    assert RetireDone(Conf, y2, [0], 1) == y2;
    assert RetireDone(Conf, g1.sys, [0], 0) == y2;
  }

  const Turned: seq<Input> := [Five, Tick({})]

  lemma WarmReach() returns (m: Machine)
    ensures ValidConfig(Conf.kv) && Reached(Played, Conf, Blank(Conf.kv), Turned, m) && Warm(m.sys)
  {
    hide Reached, Blank, TickOnce, Schedule, OnStepDone, Warm, Queued, Seated, Seven;
    Sizes();
    AskedReach();
    var m0 := Machine(Queued(0, 0), Blank(Conf.kv));
    m := ReachTick(Played, Conf, Blank(Conf.kv), [Five], m0);
    assert [Five] + [Tick({})] == Turned;
    FirstRound();
    StepWarms();
  }

  // ---- the same prompt again, twice ----

  lemma ReuseFive(p: Pool)
    requires p.hashToBlock == map[6 := 0] && Available(p) >= 1
    ensures ValidConfig(Conf.kv) && CachedBlocks(Conf.kv, p, [5]) == 1
    ensures AllocatePrompt(Conf.kv, p, [5]) == (Share(p, 0), Table([0], [6], 1), Some(1))
  {
    hide Chain, Share, Available, AdoptHits;
    Sizes();
    Chains();
    Spans();
    assert Walk(Conf.kv, p, [5], 1) == 0;
    assert CachedBlocks(Conf.kv, p, [5]) == 1;
    assert HitBlock(Conf.kv, p, [5], 0) == 0;
    assert LruHits(Conf.kv, p, [5], 0) == 0 && LruHits(Conf.kv, p, [5], 1) <= 1;
    AdoptsOne(Conf.kv, p, [5]);
    assert TakeFresh(Share(p, 0), Table([0], [6], 1), 0) == (Share(p, 0), Table([0], [6], 1));
  }

  /** The head shares block 0 and is resident. */
  function Rejoin(y: Sys): Sys
    requires y.waiting != []
  {
    var id := y.waiting[0];
    var s := Lookup(y, id);
    y.(pool := Share(y.pool, 0), seqs := y.seqs[id := s.(table := Table([0], [6], 1), computed := 0, status := Running)],
       waiting := y.waiting[1..], running := y.running + [id],
       stats := y.stats.(admitted := y.stats.admitted + 1, maxWait := Max(y.stats.maxWait, s.waitSteps)))
  }

  /** A queue whose head asks for [5], in a pool that holds it. */
  ghost predicate Again(y: Sys) {
    && y.waiting != [] && y.waiting[0] in y.seqs && y.seqs[y.waiting[0]].tokens == [5] && y.seqs[y.waiting[0]].table == EmptyTable
    && y.pool.hashToBlock == map[6 := 0] && Available(y.pool) >= 2 && |y.running| < 2
  }

  lemma RejoinStart(y: Sys, step: Step, budget: int)
    requires Again(y) && budget > 0
    ensures ValidConfig(Conf.kv) && AdmissionFits(Conf, y, y.seqs[y.waiting[0]]) && Adopt(Conf, y, y.waiting[0]).Some?
    ensures var y1 := Adopt(Conf, y, y.waiting[0]).value;
            && 0 < |y1.waiting|
            && Start(Conf, y1, step, budget, 0) == Admission(true, Rejoin(y), AddPrefill(step, y.waiting[0], y.seqs[y.waiting[0]].(computed := 0), 1), budget - 1)
  {
    hide AllocatePrompt, CachedBlocks, Share, Available, BlocksNeeded;
    Sizes();
    ReuseFive(y.pool);
    var id := y.waiting[0];
    var y1 := Adopt(Conf, y, id).value;
    assert y1.seqs[id := Lookup(y1, id).(status := Running)] == Rejoin(y).seqs;
    assert RemoveAt(y1.waiting, 0) == y.waiting[1..];
  }

  lemma RejoinHead(y: Sys, step: Step, budget: int)
    requires Again(y) && budget > 0
    ensures ValidConfig(Conf.kv)
    ensures AdmitOne(Conf, y, step, budget) == Admission(true, Rejoin(y), AddPrefill(step, y.waiting[0], y.seqs[y.waiting[0]].(computed := 0), 1), budget - 1)
  {
    hide Adopt, Start, AdmissionFits, AdmitScan, AddPrefill, Rejoin;
    RejoinStart(y, step, budget);
    TakenAt(Conf, y, step, budget, 0, 1);
  }

  const Left: Slice := Slice(1, 0, 1, true, true)
  const Right: Slice := Slice(2, 0, 1, true, true)

  /** A warm state in which 1 and 2 have asked for [5]. */
  ghost predicate Doubled(y: Sys) {
    && y.pool == Idle && y.running == [] && y.waiting == [1, 2] && y.batchOpen && 1 in y.seqs && 2 in y.seqs
    && y.seqs[1].tokens == [5] && y.seqs[1].table == EmptyTable && y.seqs[2].tokens == [5] && y.seqs[2].table == EmptyTable
  }

  lemma DoubledBumps(y: Sys)
    requires Doubled(y)
    ensures Doubled(BumpWaits(Started(Conf, y), 0))
  {
    hide BumpWaits;
    BumpTwo(Started(Conf, y), 1, 2);
  }

  lemma FirstShare(y: Sys)
    requires Doubled(y)
    ensures Again(y)
    ensures var y1 := Rejoin(y);
            && Again(y1) && y1.running == [1] && y1.waiting == [2] && y1.seqs[2] == y.seqs[2] && 1 in y1.seqs && y1.seqs[1].table == Table([0], [6], 1)
            && y1.pool == Pool([2, 1], [1, 0, 0], map[6 := 0], [6, 0, 0], [], map[0 := [5]])
  {
    assert Without([0], 0) == [];
  }

  lemma BothShare(y: Sys)
    requires Doubled(y)
    ensures y.waiting != [] && Rejoin(y).waiting != []
    ensures var y2 := Rejoin(Rejoin(y));
            && y2.running == [1, 2] && y2.waiting == [] && 1 in y2.seqs && 2 in y2.seqs
            && y2.seqs[1].table == Table([0], [6], 1) && y2.seqs[2].table == Table([0], [6], 1)
            && y2.pool == Pool([2, 1], [2, 0, 0], map[6 := 0], [6, 0, 0], [], map[0 := [5]])
  {
    FirstShare(y);
  }

  lemma SeatBoth(y: Sys)
    requires Doubled(y)
    ensures ValidConfig(Conf.kv) && y.waiting != [] && Rejoin(y).waiting != []
    ensures AdmitAll(Conf, y, EmptyStep, 8) == (Rejoin(Rejoin(y)), Step([Left, Right], 2, 0, 2), 6)
  {
    hide AdmitOne, Again, Rejoin;
    FirstShare(y);
    BothShare(y);
    RejoinHead(y, EmptyStep, 8);
    var step1 := Step([Left], 1, 0, 1);
    assert AddPrefill(EmptyStep, 1, y.seqs[1].(computed := 0), 1) == step1;
    var y1 := Rejoin(y);
    RejoinHead(y1, step1, 7);
    assert AddPrefill(step1, 2, y1.seqs[2].(computed := 0), 1) == Step([Left, Right], 2, 0, 2);
    NobodyWaits(Conf, Rejoin(y1), Step([Left, Right], 2, 0, 2), 6);
  }

  /** The state and step of the round. */
  ghost predicate BothWrite(y: Sys, step: Step) {
    && step == Step([Left, Right], 2, 0, 2) && 1 in y.seqs && 2 in y.seqs
    && y.seqs[1].table.blocks == [0] && y.seqs[2].table.blocks == [0] && 0 in y.pool.labels && Get(y.pool.refs, 0) == 2
  }

  lemma DoubledRound(y: Sys)
    requires Doubled(y)
    ensures ValidConfig(Conf.kv) && BothWrite(Schedule(Conf, y, {}).0, Schedule(Conf, y, {}).1)
  {
    hide Schedule, AdmitAll, Rejoin, BumpWaits;
    Sizes();
    DoubledBumps(y);
    FreshRound(Conf, y);
    var y0 := BumpWaits(Started(Conf, y), 0);
    SeatBoth(y0);
    BothShare(y0);
    var y2 := Rejoin(Rejoin(y0));
    assert CloseBatch(Conf, y2, 6) == y2;
    assert RejectHead(Conf, y2, []) == y2;
  }

  const Doubling: seq<Input> := Turned + [Arrive(1, [5], Params(1))] + [Arrive(2, [5], Params(1))]

  /**
   "A sequence can only append into its own, unshared, partial last block" fails: on this run both slices of a step
   write to block 0, which is full, published and owned by both of them.
   */
  lemma SharedBlockWritten() returns (m: Machine)
    ensures ValidConfig(Conf.kv) && Reached(Played, Conf, Blank(Conf.kv), Doubling, m)
    ensures var (y, step) := Schedule(Conf, m.sys, {});
            && BothWrite(y, step) && WritesPublished(Conf, y, Left) && WritesPublished(Conf, y, Right)
  {
    hide Reached, Blank, Apply, Schedule, InPlay, RefOutput;
    Outputs();
    var m0 := WarmReach();
    var a, b := Arrive(1, [5], Params(1)), Arrive(2, [5], Params(1));
    ReachSnoc(Played, Conf, Blank(Conf.kv), Turned, m0, a);
    var m1 := Apply(Conf, Sevens, m0, a);
    Arrives(m0, a);
    ReachSnoc(Played, Conf, Blank(Conf.kv), Turned + [a], m1, b);
    m := Apply(Conf, Sevens, m1, b);
    Arrives(m1, b);
    DoubledRound(m.sys);
    var (y, step) := Schedule(Conf, m.sys, {});
    WritesFirst(y, Left);
    WritesFirst(y, Right);
  }

  lemma Arrives(m: Machine, input: Input)
    requires ValidConfig(Conf.kv) && input.Arrive?
    ensures Apply(Conf, Sevens, m, input).sys == Add(m.sys, input.id, input.prompt, input.params)
  {
  }

  lemma WritesFirst(y: Sys, sl: Slice)
    requires ValidConfig(Conf.kv) && sl.start == 0 && sl.len == 1 && Lookup(y, sl.id).table.blocks == [0] && 0 in y.pool.labels
    ensures WritesPublished(Conf, y, sl)
  {
    assert Quot(1, 0) == 0;
    assert Get(Lookup(y, sl.id).table.blocks, Quot(Conf.kv.blockSize, 0)) in y.pool.labels;
  }

  // ---- a longer prompt misses the watermark ----

  lemma ReviveFive(p: Pool)
    requires p == Idle
    ensures ValidConfig(Conf.kv) && CachedBlocks(Conf.kv, p, [5, 6]) == 1
    ensures AllocatePrompt(Conf.kv, p, [5, 6]) ==
            (Pool([2], [1, 1, 0], map[6 := 0], [6, 0, 0], [], map[0 := [5]]), Table([0, 1], [6, 0], 1), Some(1))
  {
    hide Chain, AdoptHits, TakeFresh;
    Sizes();
    Chains();
    Spans();
    assert Walk(Conf.kv, p, [5, 6], 1) == 0;
    assert CachedBlocks(Conf.kv, p, [5, 6]) == 1;
    assert HitBlock(Conf.kv, p, [5, 6], 0) == 0;
    assert LruHits(Conf.kv, p, [5, 6], 0) == 0 && LruHits(Conf.kv, p, [5, 6], 1) == 1;
    assert Without([0], 0) == [];
    AdoptsOne(Conf.kv, p, [5, 6]);
    var p1 := Share(p, 0);
    assert p1 == Pool([2, 1], [1, 0, 0], map[6 := 0], [6, 0, 0], [], map[0 := [5]]);
    TakesOne(p1, Table([0], [6], 1));
    assert p1.free[..1] == [2] && Own(p1.(free := [2]), 1) == Pool([2], [1, 1, 0], map[6 := 0], [6, 0, 0], [], map[0 := [5]]);
    assert Append(Table([0], [6], 1), 1, 0) == Table([0, 1], [6, 0], 1);
  }

  /** A warm state in which 1 has asked for [5, 6]. */
  ghost predicate Longer(y: Sys) {
    y.pool == Idle && y.running == [] && y.waiting == [1] && y.batchOpen && 1 in y.seqs && y.seqs[1].tokens == [5, 6] && y.seqs[1].table == EmptyTable
  }

  lemma LongerBumps(y: Sys)
    requires Longer(y)
    ensures Longer(BumpWaits(Started(Conf, y), 0))
  {
    hide BumpWaits;
    BumpOneOnly(Started(Conf, y), 1);
  }

  lemma LongerAdmitted(y: Sys)
    requires Longer(y)
    ensures ValidConfig(Conf.kv) && AdmissionFits(Conf, y, y.seqs[1])
    ensures var (y1, step, budget) := AdmitAll(Conf, y, EmptyStep, 8); y1.running == [1] && y1.waiting == [] && Available(y1.pool) == 1
  {
    hide AllocatePrompt, CachedBlocks, BlocksNeeded, AdmitOne;
    Sizes();
    ReviveFive(y.pool);
    LongerOne(y);
    var r := AdmitOne(Conf, y, EmptyStep, 8);
    NobodyWaits(Conf, r.sys, r.step, r.budget);
  }

  lemma LongerOne(y: Sys)
    requires Longer(y)
    ensures ValidConfig(Conf.kv)
    ensures var r := AdmitOne(Conf, y, EmptyStep, 8); r.admitted && r.sys.running == [1] && r.sys.waiting == [] && Available(r.sys.pool) == 1
  {
    hide AllocatePrompt, CachedBlocks, BlocksNeeded;
    Sizes();
    ReviveFive(y.pool);
  }

  const Lengthening: seq<Input> := Turned + [Arrive(1, [5, 6], Params(1))]

  /**
   "At least `watermark` blocks stay available" fails with prefix caching on: on this run the request passes the
   check for a watermark of 2, is admitted, and leaves one block, because the idle block it revives is not charged.
   */
  lemma WatermarkMissed() returns (m: Machine)
    ensures ValidConfig(Conf.kv) && Reached(Played, Conf, Blank(Conf.kv), Lengthening, m)
    ensures 1 in m.sys.seqs && AdmissionFits(Conf, m.sys, m.sys.seqs[1]) && Watermark(Conf, m.sys) == 2
    ensures var (y, step) := Schedule(Conf, m.sys, {}); y.running == [1] && Available(y.pool) == 1
  {
    hide Reached, Blank, Apply, Schedule, InPlay, RefOutput, AdmissionFits, AdmitAll, BumpWaits;
    Outputs();
    var m0 := WarmReach();
    var a := Arrive(1, [5, 6], Params(1));
    ReachSnoc(Played, Conf, Blank(Conf.kv), Turned, m0, a);
    m := Apply(Conf, Sevens, m0, a);
    Arrives(m0, a);
    assert Longer(m.sys);
    LongerAdmitted(m.sys);
    LongerBumps(m.sys);
    FreshRound(Conf, m.sys);
    LongerAdmitted(BumpWaits(Started(Conf, m.sys), 0));
  }
}
