/**
 A run in static mode. Two requests are admitted, a third waits, the batch is closed; the first finishes.
 Cancelling the second wedges the batch for ever; cancelling the first reports it twice.
 */
module StaticRun {
  import opened Lists
  import opened Paging
  import opened BlockPool
  import opened Requests
  import opened PrefixCache
  import opened PrefixTree
  import opened CacheOps
  import opened Network
  import opened Contents
  import opened Reference
  import opened Scheduling
  import opened Roles
  import opened Safety
  import opened Steps
  import opened Progressing
  import opened Ledger
  import opened Engine
  import opened Theorems
  import opened Fcfs
  import opened Admitting
  import opened Drain
  import opened Witnesses

  /** Four blocks of four tokens, two places, no prefix caching, no watermark. */
  const Conf: Config := Config(KvConfig(4, 4, false, (h, t) => 0), false, 2, 8, 8, 1, 64, 0)

  ghost const Played: World := World(Conf.kv, Sevens,
    {RefOutput(Sevens, Params(1), [1]), RefOutput(Sevens, Params(3), [2]), RefOutput(Sevens, Params(1), [3])})

  const Asked: seq<Input> := [Arrive(0, [1], Params(1)), Arrive(1, [2], Params(3)), Arrive(2, [3], Params(1))]

  function Queued(steps: nat, waits: nat): Sys {
    Sys(FreshPool(Conf.kv),
        map[0 := NewSequence([1], Params(1)).(waitSteps := waits), 1 := NewSequence([2], Params(3)).(waitSteps := waits), 2 := NewSequence([3], Params(1)).(waitSteps := waits)],
        [0, 1, 2], [], true, Stats(steps, 0, 0, 0, 0, 0, 0), [0, 1, 2], [], 0, 0)
  }

  lemma PlayedSound()
    ensures Sound(Played, Conf, Blank(Conf.kv))
  {
  }

  lemma AskedReach()
    ensures Reached(Played, Conf, Blank(Conf.kv), Asked, Machine(Queued(0, 0), Blank(Conf.kv)))
  {
    hide Reached, RefOutput, Blank;
    PlayedSound();
    var m0 := Boot(Conf, Blank(Conf.kv));
    ReachBoot(Played, Conf, Blank(Conf.kv));
    ReachSnoc(Played, Conf, Blank(Conf.kv), [], m0, Asked[0]);
    var m1 := Apply(Conf, Sevens, m0, Asked[0]);
    ReachSnoc(Played, Conf, Blank(Conf.kv), [] + [Asked[0]], m1, Asked[1]);
    var m2 := Apply(Conf, Sevens, m1, Asked[1]);
    ReachSnoc(Played, Conf, Blank(Conf.kv), [] + [Asked[0]] + [Asked[1]], m2, Asked[2]);
    assert [] + [Asked[0]] + [Asked[1]] + [Asked[2]] == Asked;
    var y := Apply(Conf, Sevens, m2, Asked[2]).sys;
    assert y.seqs == Queued(0, 0).seqs && y.waiting == [0, 1, 2] && y.order == [0, 1, 2];
    assert y == Queued(0, 0);
  }

  // ---- the first turn ----

  function Seated(): Sys {
    Seat(Seat(Queued(1, 1), 0), 0)
  }

  lemma Sizes()
    ensures ValidConfig(Conf.kv) && BlocksNeeded(Conf.kv, 1) == 1 && FreshPool(Conf.kv).free == [3, 2, 1, 0]
  {
    assert Countdown(0) == [] && Countdown(1) == [0] && Countdown(2) == [1, 0] && Countdown(3) == [2, 1, 0];
    assert Quot(4, 0) == 0 && Quot(4, 4) == 1;
  }

  lemma SeatBoth()
    ensures ValidConfig(Conf.kv)
    ensures AdmitAll(Conf, Queued(1, 1), EmptyStep, 8) ==
            (Seated(), AddPrefill(AddPrefill(EmptyStep, 0, NewSequence([1], Params(1)).(waitSteps := 1), 1), 1, NewSequence([2], Params(3)).(waitSteps := 1), 1), 6)
  {
    hide AdmitOne, AddPrefill, BlocksNeeded;
    Sizes();
    var y0 := Queued(1, 1);
    SeatHead(Conf, y0, EmptyStep, 8);
    var y1 := Seat(y0, 0);
    var step1 := AddPrefill(EmptyStep, 0, y0.seqs[0], 1);
    SeatHead(Conf, y1, step1, 7);
    var y2 := Seat(y1, 0);
    var step2 := AddPrefill(step1, 1, y1.seqs[1], 1);
    Full(Conf, y2, step2, 6);
  }

  lemma Full(c: Config, y: Sys, step: Step, budget: int)
    requires ValidConfig(c.kv) && |y.running| >= c.maxNumSeqs
    ensures AdmitOne(c, y, step, budget) == Admission(false, y, step, budget)
    ensures AdmitAll(c, y, step, budget) == (y, step, budget)
  {
  }

  const First: Slice := Slice(0, 0, 1, true, true)
  const Second: Slice := Slice(1, 0, 1, true, true)

  /** The first round seats two requests and closes the batch. */
  lemma FirstRound()
    ensures ValidConfig(Conf.kv) && Schedule(Conf, Queued(0, 0), {}) == (Seated().(batchOpen := false), Step([First, Second], 2, 0, 2))
  {
    hide Schedule, AdmitAll, Seated, Queued;
    Sizes();
    QueuedBumps();
    FreshRound(Conf, Queued(0, 0));
    SeatBoth();
    SeatedParts();
    var y := Seated();
    assert CloseBatch(Conf, y, 6) == y.(batchOpen := false);
    assert RejectHead(Conf, y.(batchOpen := false), []) == y.(batchOpen := false);
    FirstStep();
  }

  lemma FirstStep()
    ensures AddPrefill(AddPrefill(EmptyStep, 0, NewSequence([1], Params(1)).(waitSteps := 1), 1), 1, NewSequence([2], Params(3)).(waitSteps := 1), 1) ==
            Step([First, Second], 2, 0, 2)
  {
    var step := AddPrefill(EmptyStep, 0, NewSequence([1], Params(1)).(waitSteps := 1), 1);
    assert step == Step([First], 1, 0, 1);
  }

  lemma QueuedBumps()
    ensures Queued(0, 0).running == [] && BumpWaits(Started(Conf, Queued(0, 0)), 0) == Queued(1, 1)
  {
    hide BumpWaits;
    var y := Started(Conf, Queued(0, 0));
    BumpThree(y, 0, 1, 2);
    assert BumpId(BumpId(BumpId(y, 0), 1), 2).seqs == Queued(1, 1).seqs;
  }

  lemma SeatedParts()
    ensures Seated().running == [0, 1] && Seated().waiting == [2] && Seated().batchOpen && Seated().seqs.Keys == {0, 1, 2}
    ensures Seated().seqs[0] == NewSequence([1], Params(1)).(waitSteps := 1, table := Table([0], [0], 0), status := Running)
    ensures Seated().seqs[1] == NewSequence([2], Params(3)).(waitSteps := 1, table := Table([1], [0], 0), status := Running)
  {
    Sizes();
    var y1 := Seat(Queued(1, 1), 0);
    assert y1.pool.free == [3, 2, 1] && y1.waiting == [1, 2] && y1.running == [0];
  }

  /** The batch after the first turn: the first request finished in place, the second is live, the third waits outside. */
  ghost predicate HalfDone(y: Sys) {
    && y.running == [0, 1] && y.waiting == [2] && !y.batchOpen && 0 in y.seqs && 1 in y.seqs
    && IsFinished(y.seqs[0]) && !IsFinished(y.seqs[1])
  }

  lemma StepIsHalfDone()
    ensures HalfDone(OnStepDone(Conf, Seated().(batchOpen := false), Step([First, Second], 2, 0, 2), Seven(2)))
  {
    hide Seated, SliceDone, Append1, Seven;
    SeatedParts();
    var y := Seated().(batchOpen := false);
    var g0 := Progress(y, 0, []);
    TwoSlices(Conf, g0, First, Second, Seven(2));
    PlainSlice(Conf, g0, First, Seven(2));
    AppendIs(Conf, Count(y, First), 1, [], 0, 7);
    var g1 := SliceDone(Conf, g0, First, Seven(2));
    PlainSlice(Conf, g1, Second, Seven(2));
    AppendIs(Conf, Count(g1.sys, Second), 2, [], 1, 7);
    var g2 := SliceDone(Conf, g1, Second, Seven(2));
    assert RetireDone(Conf, g2.sys, [], 0) == g2.sys;
    assert g2.sys.running[1] == 1;
  }

  ghost const AfterTurn: seq<Input> := Asked + [Tick({})]

  lemma TurnReach() returns (m: Machine)
    ensures ValidConfig(Conf.kv) && Reached(Played, Conf, Blank(Conf.kv), AfterTurn, m) && HalfDone(m.sys)
  {
    hide Reached, Blank, TickOnce, HalfDone, Schedule, OnStepDone, Queued, Seated, Seven;
    Sizes();
    AskedReach();
    m := ReachTick(Played, Conf, Blank(Conf.kv), Asked, Machine(Queued(0, 0), Blank(Conf.kv)));
    FirstRound();
    StepIsHalfDone();
  }

  // ---- what cancellations do ----

  /**
   The run hangs: after the second request is cancelled, the batch is closed, everybody resident is finished, and
   the third request is still queued after any number of turns.
   */
  lemma ClosedBatchHangs() returns (m: Machine)
    ensures ValidConfig(Conf.kv) && Reached(Played, Conf, Blank(Conf.kv), AfterTurn + [Cancel(1)], m)
    ensures Wedged(Conf, m.sys) && m.sys.waiting == [2]
    ensures forall n: nat :: Turns(Conf, Sevens, m, Never, n).sys.waiting == [2]
  {
    hide Reached, Blank, Wedged, Turns;
    var m0 := TurnReach();
    ReachSnoc(Played, Conf, Blank(Conf.kv), AfterTurn, m0, Cancel(1));
    m := Apply(Conf, Sevens, m0, Cancel(1));
    CancelWedges(m0.sys);
    forall n: nat ensures Turns(Conf, Sevens, m, Never, n).sys.waiting == [2] {
      WedgedForever(Conf, Sevens, m, n);
    }
  }

  lemma CancelWedges(y: Sys)
    requires HalfDone(y)
    ensures Wedged(Conf, AbortRequest(Conf, y, 1)) && AbortRequest(Conf, y, 1).waiting == [2]
  {
    hide Retire;
    assert Without(y.running, 1) == [0] by { assert [1][1..] == []; }
    RetireFrame(Conf, y.(running := [0]), 1, Abort);
    var y1 := AbortRequest(Conf, y, 1);
    assert y1.running == [0] && IsFinished(Lookup(y1, 0));
  }

  /** The other cancellation reports the first request a second time. */
  lemma ReportedTwice() returns (m: Machine)
    ensures Reached(Played, Conf, Blank(Conf.kv), AfterTurn + [Cancel(0)], m)
    ensures Terminals(m.sys.log, 0) == 2
  {
    hide Reached, Blank, Terminals, SumComputed, BriefOf, AbortRequest;
    var m0 := TurnReach();
    ReachSnoc(Played, Conf, Blank(Conf.kv), AfterTurn, m0, Cancel(0));
    m := Apply(Conf, Sevens, m0, Cancel(0));
    Conservation(Played, Conf, Blank(Conf.kv), AfterTurn, m0, 0);
    NoCancels(Played, Conf, Boot(Conf, Blank(Conf.kv)), AfterTurn);
    CancelReports(m0.sys);
  }

  /** Without cancellations nothing is reported again. */
  lemma {:induction false} NoCancels(w: World, c: Config, m: Machine, inputs: seq<Input>)
    requires ValidConfig(c.kv) && forall k :: 0 <= k < |inputs| ==> !inputs[k].Cancel?
    ensures BriefOf(w, c, m, inputs).repeated == multiset{}
  {
    hide Run;
    if inputs != [] {
      NoCancels(w, c, m, inputs[..|inputs| - 1]);
    }
  }

  lemma CancelReports(y: Sys)
    requires HalfDone(y)
    ensures Terminals(AbortRequest(Conf, y, 0).log, 0) == Terminals(y.log, 0) + 1
  {
    hide Retire, Terminals;
    RetireFrame(Conf, y.(running := Without(y.running, 0)), 0, Abort);
    TerminalsAppend(y.log, Ended(0, Abort), 0);
  }
}
