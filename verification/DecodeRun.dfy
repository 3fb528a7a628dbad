/**
 A run in which a resident in prefill uses up the token budget and a decoding resident gets no slice: decode
 tokens are not reserved first.
 */
module DecodeRun {
  import opened Lists
  import opened Paging
  import opened BlockPool
  import opened Requests
  import opened PrefixCache
  import opened PrefixTree
  import opened CacheOps
  import opened Network
  import opened Contents
  import opened Reference
  import opened Scheduling
  import opened Roles
  import opened Safety
  import opened Steps
  import opened Progressing
  import opened Ledger
  import opened Engine
  import opened Theorems
  import opened Fcfs
  import opened Admitting
  import opened Drain
  import opened Budget
  import opened Witnesses

  /** Four blocks of eight tokens, two tokens per step, chunks of two. */
  const Conf: Config := Config(KvConfig(4, 8, false, (h, t) => 0), true, 2, 2, 2, 1, 64, 0)

  ghost const Played: World := World(Conf.kv, Sevens, {RefOutput(Sevens, Params(3), [1]), RefOutput(Sevens, Params(1), [2, 2, 2, 2])})

  const Asked: seq<Input> := [Arrive(0, [1], Params(3)), Arrive(1, [2, 2, 2, 2], Params(1))]

  const Short: Sequence := NewSequence([1], Params(3))
  const Long: Sequence := NewSequence([2, 2, 2, 2], Params(1))

  function Queued(steps: nat, waits: nat): Sys {
    Sys(FreshPool(Conf.kv), map[0 := Short.(waitSteps := waits), 1 := Long.(waitSteps := waits)],
        [0, 1], [], true, Stats(steps, 0, 0, 0, 0, 0, 0), [0, 1], [], 0, 0)
  }

  lemma PlayedSound()
    ensures Sound(Played, Conf, Blank(Conf.kv))
  {
  }

  lemma AskedReach()
    ensures Reached(Played, Conf, Blank(Conf.kv), Asked, Machine(Queued(0, 0), Blank(Conf.kv)))
  {
    hide Reached, RefOutput, Blank;
    PlayedSound();
    var m0 := Boot(Conf, Blank(Conf.kv));
    ReachBoot(Played, Conf, Blank(Conf.kv));
    ReachSnoc(Played, Conf, Blank(Conf.kv), [], m0, Asked[0]);
    var m1 := Apply(Conf, Sevens, m0, Asked[0]);
    ReachSnoc(Played, Conf, Blank(Conf.kv), [] + [Asked[0]], m1, Asked[1]);
    assert [] + [Asked[0]] + [Asked[1]] == Asked;
    var y := Apply(Conf, Sevens, m1, Asked[1]).sys;
    assert y.seqs == Queued(0, 0).seqs && y.waiting == [0, 1] && y.order == [0, 1];
    assert y == Queued(0, 0);
  }

  lemma Sizes()
    ensures ValidConfig(Conf.kv) && BlocksNeeded(Conf.kv, 1) == 1 && BlocksNeeded(Conf.kv, 2) == 1 && BlocksNeeded(Conf.kv, 4) == 1
    ensures FreshPool(Conf.kv).free == [3, 2, 1, 0]
  {
    assert Countdown(0) == [] && Countdown(1) == [0] && Countdown(2) == [1, 0] && Countdown(3) == [2, 1, 0];
    assert Quot(8, 0) == 0 && Quot(8, 1) == 0 && Quot(8, 3) == 0;
    assert Quot(8, 8) == 1 && Quot(8, 9) == 1 && Quot(8, 11) == 1;
  }

  function Seated(): Sys {
    Seat(Seat(Queued(1, 1), 0), 0)
  }

  const First: Slice := Slice(0, 0, 1, true, true)
  const Second: Slice := Slice(1, 0, 1, false, true)

  lemma SeatBoth()
    ensures ValidConfig(Conf.kv) && AdmitAll(Conf, Queued(1, 1), EmptyStep, 2) == (Seated(), Step([First, Second], 2, 0, 1), 0)
  {
    hide AdmitOne, AddPrefill, BlocksNeeded;
    Sizes();
    var y0 := Queued(1, 1);
    SeatHead(Conf, y0, EmptyStep, 2);
    var y1 := Seat(y0, 0);
    FirstStep();
    SeatHead(Conf, y1, Step([First], 1, 0, 1), 1);
    Spent(Conf, Seat(y1, 0), Step([First, Second], 2, 0, 1));
  }

  lemma FirstStep()
    ensures AddPrefill(EmptyStep, 0, Short.(waitSteps := 1), 1) == Step([First], 1, 0, 1)
    ensures AddPrefill(Step([First], 1, 0, 1), 1, Long.(waitSteps := 1), 1) == Step([First, Second], 2, 0, 1)
  {
  }

  lemma Spent(c: Config, y: Sys, step: Step)
    requires ValidConfig(c.kv)
    ensures AdmitAll(c, y, step, 0) == (y, step, 0)
  {
  }

  lemma QueuedBumps()
    ensures Queued(0, 0).running == [] && BumpWaits(Started(Conf, Queued(0, 0)), 0) == Queued(1, 1)
  {
    hide BumpWaits;
    var y := Started(Conf, Queued(0, 0));
    BumpTwo(y, 0, 1);
    assert BumpId(BumpId(y, 0), 1).seqs == Queued(1, 1).seqs;
  }

  lemma SeatedParts()
    ensures Seated().running == [0, 1] && Seated().waiting == [] && Seated().seqs.Keys == {0, 1}
    ensures Seated().seqs[0] == Short.(waitSteps := 1, table := Table([0], [0], 0), status := Running)
    ensures Seated().seqs[1] == Long.(waitSteps := 1, table := Table([1], [0], 0), status := Running)
  {
    Sizes();
    var y1 := Seat(Queued(1, 1), 0);
    assert y1.pool.free == [3, 2, 1] && y1.waiting == [1] && y1.running == [0];
  }

  lemma FirstRound()
    ensures ValidConfig(Conf.kv) && Schedule(Conf, Queued(0, 0), {}) == (Seated(), Step([First, Second], 2, 0, 1))
  {
    hide Schedule, AdmitAll, Seated, Queued;
    Sizes();
    QueuedBumps();
    FreshRound(Conf, Queued(0, 0));
    SeatBoth();
    SeatedParts();
    assert CloseBatch(Conf, Seated(), 0) == Seated();
    assert RejectHead(Conf, Seated(), []) == Seated();
  }

  /** The short request decodes, the long one is still in prefill. */
  ghost predicate Mixed(y: Sys) {
    && y.running == [0, 1] && y.seqs.Keys == {0, 1} && !IsFinished(y.seqs[0]) && !IsFinished(y.seqs[1])
    && |y.seqs[0].tokens| == 2 && y.seqs[0].computed == 1 && |y.seqs[0].table.blocks| == 1
    && |y.seqs[1].tokens| == 4 && y.seqs[1].computed == 1
  }

  lemma StepIsMixed()
    ensures Mixed(OnStepDone(Conf, Seated(), Step([First, Second], 2, 0, 1), Seven(1)))
  {
    hide Seated, SliceDone, Append1, Seven;
    SeatedParts();
    var g0 := Progress(Seated(), 0, []);
    TwoSlices(Conf, g0, First, Second, Seven(1));
    PlainSlice(Conf, g0, First, Seven(1));
    AppendIs(Conf, Count(Seated(), First), 1, [], 0, 7);
    var g1 := SliceDone(Conf, g0, First, Seven(1));
    PlainSlice(Conf, g1, Second, Seven(1));
    var g2 := SliceDone(Conf, g1, Second, Seven(1));
    assert RetireDone(Conf, g2.sys, [], 0) == g2.sys;
  }

  /** In that state the chunk of the long request is the whole budget. */
  lemma NothingLeft(y: Sys)
    requires ValidConfig(Conf.kv) && Mixed(y)
    ensures Decoders(Conf, y) == [0] && LeftForDecode(Conf, y) == 0
  {
    Sizes();
    var y0 := Started(Conf, y);
    Splits(y0);
    Grows(y0);
    hide MidPrefill, Decoding, GrowFor, PlaceDecodes;
    Places(y0);
    assert Settle(Conf, y) == (y0, [1], [0]);
    hide Settle;
    ChunkTakesAll(y0);
  }

  lemma Splits(y: Sys)
    requires Mixed(y)
    ensures MidPrefill(y, y.running) == [1] && Decoding(y, y.running) == [0]
  {
    assert y.running[..1] == [0] && [0][..0] == [];
    assert MidPrefill(y, []) == [] && Decoding(y, []) == [];
    assert MidPrefill(y, [0]) == [] && Decoding(y, [0]) == [0];
  }

  lemma Grows(y: Sys)
    requires ValidConfig(Conf.kv) && Mixed(y)
    ensures GrowFor(Conf, y, 0) == (y, true)
  {
    hide BlocksNeeded;
    Sizes();
    assert y.seqs[0 := y.seqs[0]] == y.seqs;
  }

  lemma Places(y: Sys)
    requires ValidConfig(Conf.kv) && GrowFor(Conf, y, 0) == (y, true)
    ensures PlaceDecodes(Conf, y, [1], [0], 0) == (y, [1], [0])
  {
    hide GrowFor;
    assert PlaceDecodes(Conf, y, [1], [0], 1) == (y, [1], [0]);
  }

  lemma ChunkTakesAll(y: Sys)
    requires Mixed(y)
    ensures TotalLen(PrefillSlices(Conf, y, [1], 0, EmptyStep, 2).0.slices) == 2
  {
    var s := y.seqs[1];
    var step := AddPrefill(EmptyStep, 1, s, 2);
    assert PrefillSlices(Conf, y, [1], 1, step, 0) == (step, 0);
    assert ChunkLen(Conf, s, 2) == 2;
    assert step.slices[..0] == [];
  }

  lemma MixedReach() returns (m: Machine)
    ensures ValidConfig(Conf.kv) && Reached(Played, Conf, Blank(Conf.kv), Asked + [Tick({})], m) && Mixed(m.sys)
  {
    hide Reached, Blank, TickOnce, Mixed, Schedule, OnStepDone, Queued, Seated, Seven;
    Sizes();
    AskedReach();
    var m0 := Machine(Queued(0, 0), Blank(Conf.kv));
    m := ReachTick(Played, Conf, Blank(Conf.kv), Asked, m0);
    FirstRound();
    StepIsMixed();
  }

  /** A reachable state whose step has no slice for a decoding resident, because a prefill chunk took the budget. */
  lemma DecodeGoesWithout() returns (m: Machine)
    ensures ValidConfig(Conf.kv) && Reached(Played, Conf, Blank(Conf.kv), Asked + [Tick({})], m)
    ensures Decoders(Conf, m.sys) == [0] && !Sliced(Schedule(Conf, m.sys, {}).1.slices, 0)
  {
    hide *;
    m := MixedReach();
    NothingLeft(m.sys);
    DecodeGetsTheRest(Played, Conf, Blank(Conf.kv), Asked + [Tick({})], m, {});
    assert Decoders(Conf, m.sys)[0] == 0;
  }
}
