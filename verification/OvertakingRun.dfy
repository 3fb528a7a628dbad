/**
 A run with lookahead 2 after which the residents followed by the queue are not in arrival order: a request
 that does not fit is overtaken by a smaller one.
 */
module OvertakingRun {
  import opened Lists
  import opened Paging
  import opened BlockPool
  import opened Requests
  import opened PrefixCache
  import opened PrefixTree
  import opened CacheOps
  import opened Network
  import opened Contents
  import opened Reference
  import opened Scheduling
  import opened Roles
  import opened Safety
  import opened Steps
  import opened Progressing
  import opened Ledger
  import opened Engine
  import opened Theorems
  import opened Fcfs
  import opened ArrivalOrder
  import opened Admitting
  import opened Drain
  import opened Witnesses

  /** Two blocks of two tokens, a watermark of one block, a scan window of two. */
  const Conf: Config := Config(KvConfig(2, 2, false, (h, t) => 0), true, 2, 8, 8, 2, 64, 1)

  ghost const Played: World := World(Conf.kv, Sevens, {RefOutput(Sevens, Params(1), [1, 1, 1]), RefOutput(Sevens, Params(2), [2])})

  const Asked: seq<Input> := [Arrive(0, [1, 1, 1], Params(1)), Arrive(1, [2], Params(2))]

  const Large: Sequence := NewSequence([1, 1, 1], Params(1))
  const Small: Sequence := NewSequence([2], Params(2))

  function Queued(steps: nat, waits: nat): Sys {
    Sys(FreshPool(Conf.kv), map[0 := Large.(waitSteps := waits), 1 := Small.(waitSteps := waits)],
        [0, 1], [], true, Stats(steps, 0, 0, 0, 0, 0, 0), [0, 1], [], 0, 0)
  }

  lemma PlayedSound()
    ensures Sound(Played, Conf, Blank(Conf.kv))
  {
  }

  lemma AskedReach()
    ensures Reached(Played, Conf, Blank(Conf.kv), Asked, Machine(Queued(0, 0), Blank(Conf.kv)))
  {
    hide Reached, RefOutput, Blank;
    PlayedSound();
    var m0 := Boot(Conf, Blank(Conf.kv));
    ReachBoot(Played, Conf, Blank(Conf.kv));
    ReachSnoc(Played, Conf, Blank(Conf.kv), [], m0, Asked[0]);
    var m1 := Apply(Conf, Sevens, m0, Asked[0]);
    ReachSnoc(Played, Conf, Blank(Conf.kv), [] + [Asked[0]], m1, Asked[1]);
    assert [] + [Asked[0]] + [Asked[1]] == Asked;
    var y := Apply(Conf, Sevens, m1, Asked[1]).sys;
    assert y.seqs == Queued(0, 0).seqs && y.waiting == [0, 1] && y.order == [0, 1];
    assert y == Queued(0, 0);
  }

  lemma Sizes()
    ensures ValidConfig(Conf.kv) && BlocksNeeded(Conf.kv, 1) == 1 && BlocksNeeded(Conf.kv, 3) == 2
    ensures FreshPool(Conf.kv).free == [1, 0]
  {
    assert Countdown(0) == [] && Countdown(1) == [0];
    assert Quot(2, 0) == 0 && Quot(2, 2) == 1 && Quot(2, 4) == 2;
  }

  lemma QueuedBumps()
    ensures Queued(0, 0).running == [] && BumpWaits(Started(Conf, Queued(0, 0)), 0) == Queued(1, 1)
  {
    hide BumpWaits;
    var y := Started(Conf, Queued(0, 0));
    BumpTwo(y, 0, 1);
    assert BumpId(BumpId(y, 0), 1).seqs == Queued(1, 1).seqs;
  }

  const Taken: Slice := Slice(1, 0, 1, true, true)

  function Seated(): Sys {
    Seat(Queued(1, 1), 1)
  }

  lemma SeatedParts()
    ensures Seated().running == [1] && Seated().waiting == [0] && Seated().order == [0, 1] && Seated().seqs.Keys == {0, 1}
    ensures Seated().seqs[0] == Large.(waitSteps := 1) && |Seated().pool.free| == 1 && Seated().pool.lru == []
    ensures Seated().seqs[1] == Small.(waitSteps := 1, table := Table([0], [0], 0), status := Running)
  {
    Sizes();
  }

  /** The scan passes over the large request, which fails the watermark check, and seats the small one. */
  lemma PassedOver()
    ensures ValidConfig(Conf.kv) && AdmitOne(Conf, Queued(1, 1), EmptyStep, 8) == Admission(true, Seated(), Step([Taken], 1, 0, 1), 7)
  {
    hide Adopt, Start, Seat, BlocksNeeded, AdmitScan;
    Sizes();
    var y := Queued(1, 1);
    assert OneBlock(Conf, y, 1) && AdmissionFits(Conf, y, y.seqs[1]);
    SeatAt(Conf, y, EmptyStep, 8, 1);
    NoFit(Conf, y, EmptyStep, 8, 0, 2);
    TakenAt(Conf, y, EmptyStep, 8, 1, 2);
  }

  lemma NoFit(c: Config, y: Sys, step: Step, budget: int, i: nat, limit: nat)
    requires ValidConfig(c.kv) && i < limit && i < |y.waiting| && Lookup(y, y.waiting[i]).table.blocks == []
    requires !AdmissionFits(c, y, Lookup(y, y.waiting[i])) && !Starving(c, y, i)
    ensures AdmitScan(c, y, step, budget, i, limit) == AdmitScan(c, y, step, budget, i + 1, limit)
  {
    hide Adopt, Start, AdmissionFits;
  }

  lemma StillNoFit(step: Step)
    ensures ValidConfig(Conf.kv) && AdmitOne(Conf, Seated(), step, 7) == Admission(false, Seated(), step, 7)
  {
    hide Adopt, Start, Seated, BlocksNeeded, AdmitScan;
    Sizes();
    SeatedParts();
    NoFit(Conf, Seated(), step, 7, 0, 1);
    ScanOver(Conf, Seated(), step, 7, 1);
  }

  lemma ScanOver(c: Config, y: Sys, step: Step, budget: int, limit: nat)
    requires ValidConfig(c.kv)
    ensures AdmitScan(c, y, step, budget, limit, limit) == Admission(false, y, step, budget)
  {
  }

  lemma FirstRound()
    ensures ValidConfig(Conf.kv) && Schedule(Conf, Queued(0, 0), {}) == (Seated(), Step([Taken], 1, 0, 1))
  {
    hide Schedule, AdmitOne, Seated, Queued;
    Sizes();
    QueuedBumps();
    FreshRound(Conf, Queued(0, 0));
    PassedOver();
    StillNoFit(Step([Taken], 1, 0, 1));
    assert AdmitAll(Conf, Seated(), Step([Taken], 1, 0, 1), 7) == (Seated(), Step([Taken], 1, 0, 1), 7);
    SeatedParts();
    assert CloseBatch(Conf, Seated(), 7) == Seated();
    assert RejectHead(Conf, Seated(), []) == Seated();
  }

  /** The later request is resident, the earlier one still queued, and neither is finished. */
  ghost predicate Overtaken(y: Sys) {
    y.order == [0, 1] && y.running == [1] && y.waiting == [0] && Unfinished(y, 0) && Unfinished(y, 1)
  }

  lemma StepIsOvertaken()
    ensures Overtaken(OnStepDone(Conf, Seated(), Step([Taken], 1, 0, 1), Seven(1)))
  {
    hide Seated, SliceDone, Append1, Seven;
    SeatedParts();
    var g0 := Progress(Seated(), 0, []);
    OneSlice(Conf, g0, Taken, Seven(1));
    PlainSlice(Conf, g0, Taken, Seven(1));
    AppendIs(Conf, Count(Seated(), Taken), 1, [], 1, 7);
    var g1 := SliceDone(Conf, g0, Taken, Seven(1));
    assert RetireDone(Conf, g1.sys, [], 0) == g1.sys;
  }

  lemma OutOfOrder(y: Sys)
    requires Overtaken(y)
    ensures y.running + y.waiting == [1, 0] && Filter(y.order, id => Unfinished(y, id)) == [0, 1]
  {
    assert [0, 1][..1] == [0] && [0][..0] == [];
  }

  /** First come, first served fails with a lookahead of 2, on a reachable state. */
  lemma LookaheadOvertakes() returns (m: Machine)
    ensures ValidConfig(Conf.kv) && Reached(Played, Conf, Blank(Conf.kv), Asked + [Tick({})], m)
    ensures Conf.lookahead == 2 && m.sys.running + m.sys.waiting == [1, 0]
    ensures Filter(m.sys.order, id => Unfinished(m.sys, id)) == [0, 1]
  {
    hide Reached, Blank, TickOnce, Schedule, OnStepDone, Overtaken, Queued, Seated, Seven;
    Sizes();
    AskedReach();
    var m0 := Machine(Queued(0, 0), Blank(Conf.kv));
    m := ReachTick(Played, Conf, Blank(Conf.kv), Asked, m0);
    FirstRound();
    StepIsOvertaken();
    OutOfOrder(m.sys);
  }
}
