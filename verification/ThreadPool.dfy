/**
 The worker pool's barrier as an interleaving protocol: one caller, `n - 1` workers, a mutex and two
 condition variables. A move is one thread's next atomic action; critical sections are split into
 their individual writes, because `run_part` reads the shared fields without the lock.
 */
module ThreadPool {
  import opened Lists
  import opened Paging

  // ---- the parts ----

  /** The half-open range that part `idx` of `n` runs. */
  function Part(n: nat, count: nat, idx: nat): (r: (nat, nat))
    requires n > 0
    ensures r.0 <= r.1 ==> r.1 <= count
  {
    var per := BlocksFor(n, count);
    (Span(per, idx), if Span(per, idx) + per <= count then Span(per, idx) + per else count)
  }

  function InPart(n: nat, count: nat, idx: nat, x: nat): nat
    requires n > 0
  {
    if Part(n, count, idx).0 <= x < Part(n, count, idx).1 then 1 else 0
  }

  /** How many of the parts `from .. n` hold `x`. */
  function Holders(n: nat, count: nat, from: nat, x: nat): nat
    requires n > 0
    decreases n - from
  {
    if from >= n then 0 else InPart(n, count, from, x) + Holders(n, count, from + 1, x)
  }

  lemma PartOf(n: nat, count: nat, idx: nat, x: nat)
    requires n > 0
    ensures BlocksFor(n, count) == 0 ==> InPart(n, count, idx, x) == 0 && count == 0
    ensures BlocksFor(n, count) > 0 ==> (InPart(n, count, idx, x) == 1 <==> x < count && Quot(BlocksFor(n, count), x) == idx)
  {
    var per := BlocksFor(n, count);
    BlocksForFits(n, count, per);
    if per > 0 {
      FullBlocks(per, x, idx);
      FullBlocks(per, x, idx + 1);
    }
  }

  lemma OwnerInRange(n: nat, count: nat, x: nat)
    requires n > 0 && x < count
    ensures BlocksFor(n, count) > 0 && Quot(BlocksFor(n, count), x) < n
  {
    var per := BlocksFor(n, count);
    BlocksForFits(n, count, per);
    SpanIsMul(n, per);
    SpanIsMul(per, n);
    assert per * n == n * per;
    if per > 0 { FullBlocks(per, x, n); }
  }

  lemma {:induction false} HoldersFrom(n: nat, count: nat, from: nat, x: nat)
    requires n > 0
    ensures Holders(n, count, from, x) ==
            if x < count && BlocksFor(n, count) > 0 && from <= Quot(BlocksFor(n, count), x) < n then 1 else 0
    decreases n - from
  {
    if from < n {
      PartOf(n, count, from, x);
      HoldersFrom(n, count, from + 1, x);
    }
  }

  /** The parts are a partition: every index below `count` is in exactly one, no other index in any. */
  lemma PartsPartition(n: nat, count: nat, x: nat)
    requires n > 0
    ensures Holders(n, count, 0, x) == if x < count then 1 else 0
  {
    HoldersFrom(n, count, 0, x);
    if x < count { OwnerInRange(n, count, x); }
  }

  // ---- the protocol ----

  /** `Wants`, `Reports` wait for the mutex; `Checks`, `Counts` hold it; `Asleep` waits to be notified. */
  datatype WorkerPc = Wants | Checks | Asleep | Works | Reports | Counts | Gone

  datatype Worker = Worker(pc: WorkerPc, seen: nat)

  datatype CallerPc =
    | Idle
    | Enters | SetsCount | SetsBody | SetsRemaining | Bumps | Notifies   // publish a call
    | Runs                                                               // its own part
    | Returns | ChecksDone | Dozes | Clears                              // wait for the workers
    | Stops | SetsStop | NotifiesStop | Joins | Ended                    // the destructor

  /** One execution of the loop body: which call's body, and over which range. */
  datatype Exec = Exec(body: nat, lo: nat, hi: nat)

  /**
   `calls` numbers the calls; the body of call `k` is `k`, and 0 is the null pointer. `goal` is the
   argument of the call in progress. `log` and `finished` are history.
   */
  datatype State = State(
    n: nat,
    owner: Option<nat>,      // of the mutex; 0 is the caller, i the worker `workers[i - 1]`
    generation: nat,
    remaining: int,
    stop: bool,
    count: nat,
    body: nat,
    caller: CallerPc,
    goal: nat,
    workers: seq<Worker>,
    calls: nat,
    log: seq<Exec>,
    finished: seq<(nat, nat)>)

  datatype Move = Begin(count: int) | Shutdown | Caller | Work(i: nat) | Spurious(i: nat) | SpuriousCaller

  function Initial(n: nat): State
    requires n > 0
  {
    State(n, None, 0, 0, false, 0, 0, Idle, 0, seq(n - 1, _ => Worker(Wants, 0)), 0, [], [])
  }

  predicate CallerWantsLock(pc: CallerPc) { pc.Enters? || pc.Returns? || pc.Stops? }
  predicate CallerHolds(pc: CallerPc) { pc.SetsCount? || pc.SetsBody? || pc.SetsRemaining? || pc.Bumps? || pc.ChecksDone? || pc.Clears? || pc.SetsStop? }
  predicate WorkerWantsLock(pc: WorkerPc) { pc.Wants? || pc.Reports? }
  predicate WorkerHolds(pc: WorkerPc) { pc.Checks? || pc.Counts? }

  predicate Enabled(s: State, m: Move) {
    match m
    case Begin(_) => s.caller.Idle?
    case Shutdown => s.caller.Idle?
    case Caller =>
      (match s.caller
       case Idle | Ended | Dozes => false
       case Joins => forall i :: 0 <= i < |s.workers| ==> s.workers[i].pc.Gone?
       case _ => CallerWantsLock(s.caller) ==> s.owner.None?)
    case Work(i) =>
      i < |s.workers| && !s.workers[i].pc.Asleep? && !s.workers[i].pc.Gone? && (WorkerWantsLock(s.workers[i].pc) ==> s.owner.None?)
    case Spurious(i) => i < |s.workers| && s.workers[i].pc.Asleep?
    case SpuriousCaller => s.caller.Dozes?
  }

  /** Wake everybody that sleeps on the start condition. */
  function WakeAll(ws: seq<Worker>): (r: seq<Worker>)
    ensures |r| == |ws|
    ensures forall i :: 0 <= i < |ws| ==> r[i] == if ws[i].pc.Asleep? then ws[i].(pc := Wants) else ws[i]
  {
    seq(|ws|, i requires 0 <= i < |ws| => if ws[i].pc.Asleep? then ws[i].(pc := Wants) else ws[i])
  }

  function RunPart(s: State, idx: nat): State
    requires s.n > 0
  {
    var (lo, hi) := Part(s.n, s.count, idx);
    if lo < hi then s.(log := s.log + [Exec(s.body, lo, hi)]) else s
  }

  function CallerStep(s: State): State
    requires s.n > 0
  {
    match s.caller
    case Enters => s.(owner := Some(0), caller := SetsCount)
    case SetsCount => s.(count := s.goal, caller := SetsBody)
    case SetsBody => s.(body := s.calls, caller := SetsRemaining)
    case SetsRemaining => s.(remaining := s.n - 1, caller := Bumps)
    case Bumps => s.(generation := s.generation + 1, owner := None, caller := Notifies)
    case Notifies => s.(workers := WakeAll(s.workers), caller := Runs)
    case Runs => RunPart(s, 0).(caller := Returns)
    case Returns => s.(owner := Some(0), caller := ChecksDone)
    case ChecksDone => if s.remaining == 0 then s.(caller := Clears) else s.(owner := None, caller := Dozes)
    case Clears => s.(body := 0, owner := None, caller := Idle, finished := s.finished + [(s.calls, s.goal)])
    case Stops => s.(owner := Some(0), caller := SetsStop)
    case SetsStop => s.(stop := true, generation := s.generation + 1, owner := None, caller := NotifiesStop)
    case NotifiesStop => s.(workers := WakeAll(s.workers), caller := Joins)
    case Joins => s.(caller := Ended)
    case Idle => s
    case Dozes => s
    case Ended => s
  }

  function SetWorker(s: State, i: nat, w: Worker): State {
    if i < |s.workers| then s.(workers := s.workers[i := w]) else s
  }

  function WorkerStep(s: State, i: nat): State
    requires s.n > 0 && i < |s.workers|
  {
    var w := s.workers[i];
    match w.pc
    case Wants => SetWorker(s, i, w.(pc := Checks)).(owner := Some(i + 1))
    case Checks =>
      if s.generation == w.seen then SetWorker(s, i, w.(pc := Asleep)).(owner := None)
      else SetWorker(s, i, Worker(if s.stop then Gone else Works, s.generation)).(owner := None)
    case Works => SetWorker(RunPart(s, i + 1), i, w.(pc := Reports))
    case Reports => SetWorker(s, i, w.(pc := Counts)).(owner := Some(i + 1))
    case Counts =>
      SetWorker(s, i, w.(pc := Wants)).(
        remaining := s.remaining - 1, owner := None,
        caller := if s.remaining == 1 && s.caller.Dozes? then Returns else s.caller)
    case Asleep => s
    case Gone => s
  }

  /** A call; without workers, or with at most one index, it runs in place. */
  function BeginCall(s: State, count: int): State {
    var k := s.calls + 1;
    if count <= 0 then s.(calls := k, finished := s.finished + [(k, 0)])
    else if s.n == 1 || count == 1 then s.(calls := k, log := s.log + [Exec(k, 0, count)], finished := s.finished + [(k, count)])
    else s.(calls := k, goal := count, caller := Enters)
  }

  function Step(s: State, m: Move): State
    requires s.n > 0
  {
    match m
    case Begin(count) => BeginCall(s, count)
    case Shutdown => if s.n == 1 then s.(caller := Ended) else s.(caller := Stops)
    case Caller => CallerStep(s)
    case Work(i) => if i < |s.workers| then WorkerStep(s, i) else s
    case Spurious(i) => if i < |s.workers| then SetWorker(s, i, s.workers[i].(pc := Wants)) else s
    case SpuriousCaller => s.(caller := Returns)
  }

  function Run(n: nat, moves: seq<Move>): (s: State)
    requires n > 0
    ensures s.n == n
  {
    if moves == [] then Initial(n) else Step(Run(n, moves[..|moves| - 1]), moves[|moves| - 1])
  }

  /** Every move was possible when it was made. */
  ghost predicate Legal(n: nat, moves: seq<Move>)
    requires n > 0
  {
    moves == [] || (Legal(n, moves[..|moves| - 1]) && Enabled(Run(n, moves[..|moves| - 1]), moves[|moves| - 1]))
  }

  // ---- the invariant ----

  /** The caller has published a call and has not yet seen it done. */
  predicate Active(pc: CallerPc) { pc.Notifies? || pc.Runs? || pc.Returns? || pc.ChecksDone? || pc.Dozes? }

  predicate Stopping(pc: CallerPc) { pc.NotifiesStop? || pc.Joins? || pc.Ended? }

  /** Inside a call, from its start to its return. */
  predicate InCall(pc: CallerPc) {
    pc.Enters? || pc.SetsCount? || pc.SetsBody? || pc.SetsRemaining? || pc.Bumps? || Active(pc) || pc.Clears?
  }

  predicate Busy(w: Worker) { w.pc.Works? || w.pc.Reports? || w.pc.Counts? }

  /** The worker still has to count itself off for this generation. */
  predicate Owes(w: Worker, generation: nat) { w.seen != generation || Busy(w) }

  function Owing(ws: seq<Worker>, generation: nat): nat {
    if ws == [] then 0 else Owing(ws[..|ws| - 1], generation) + if Owes(ws[|ws| - 1], generation) then 1 else 0
  }

  ghost predicate LockInv(s: State) {
    && (CallerHolds(s.caller) <==> s.owner == Some(0))
    && (forall i {:trigger s.workers[i]} :: 0 <= i < |s.workers| ==> (WorkerHolds(s.workers[i].pc) <==> s.owner == Some(i + 1)))
    && (s.owner.Some? ==> s.owner.value <= |s.workers|)
  }

  ghost predicate WorkerOk(s: State, w: Worker) {
    && (Busy(w) ==> w.seen == s.generation && Active(s.caller))
    && (w.pc.Gone? ==> s.stop && w.seen == s.generation)
    && (w.pc.Asleep? && w.seen != s.generation ==> s.caller.Notifies? || s.caller.NotifiesStop?)
    && (!Active(s.caller) && !Stopping(s.caller) ==> w.seen == s.generation)
    && (Stopping(s.caller) && w.seen == s.generation ==> w.pc.Gone?)
  }

  ghost predicate CountsInv(s: State) {
    && s.n > 0 && |s.workers| == s.n - 1 && (s.stop <==> Stopping(s.caller) && s.n > 1)
    && (s.n == 1 ==> s.caller.Idle? || s.caller.Ended?)
    && (Active(s.caller) ==> s.remaining == Owing(s.workers, s.generation))
    && (s.caller.Bumps? ==> s.remaining == s.n - 1)
    && (s.caller.Clears? ==> s.remaining == 0)
    && (s.caller.Dozes? ==> s.remaining > 0)
  }

  ghost predicate ProtocolInv(s: State) {
    LockInv(s) && CountsInv(s) && forall i {:trigger s.workers[i]} :: 0 <= i < |s.workers| ==> WorkerOk(s, s.workers[i])
  }

  // ---- counting who still owes ----

  lemma {:induction false} OwingSet(ws: seq<Worker>, i: nat, w: Worker, g: nat)
    requires i < |ws|
    ensures Owing(ws[i := w], g) + (if Owes(ws[i], g) then 1 else 0) == Owing(ws, g) + if Owes(w, g) then 1 else 0
  {
    var m := |ws| - 1;
    assert ws[i := w][..m] == if i < m then ws[..m][i := w] else ws[..m];
    if i < m {
      OwingSet(ws[..m], i, w, g);
    }
  }

  lemma {:induction false} OwingSame(ws: seq<Worker>, ws1: seq<Worker>, g: nat)
    requires |ws1| == |ws| && forall i :: 0 <= i < |ws| ==> (Owes(ws1[i], g) <==> Owes(ws[i], g))
    ensures Owing(ws1, g) == Owing(ws, g)
  {
    if ws != [] {
      OwingSame(ws[..|ws| - 1], ws1[..|ws| - 1], g);
    }
  }

  lemma {:induction false} OwingAll(ws: seq<Worker>, g: nat)
    requires forall i :: 0 <= i < |ws| ==> Owes(ws[i], g)
    ensures Owing(ws, g) == |ws|
  {
    if ws != [] {
      OwingAll(ws[..|ws| - 1], g);
    }
  }

  lemma {:induction false} OwingZero(ws: seq<Worker>, g: nat)
    requires Owing(ws, g) == 0
    ensures forall i :: 0 <= i < |ws| ==> !Owes(ws[i], g)
  {
    if ws != [] {
      OwingZero(ws[..|ws| - 1], g);
      forall i | 0 <= i < |ws| ensures !Owes(ws[i], g) {
        if i < |ws| - 1 { assert ws[..|ws| - 1][i] == ws[i]; }
      }
    }
  }

  lemma {:induction false} OwingSome(ws: seq<Worker>, g: nat) returns (i: nat)
    requires Owing(ws, g) > 0
    ensures i < |ws| && Owes(ws[i], g)
  {
    if Owes(ws[|ws| - 1], g) {
      i := |ws| - 1;
    } else {
      i := OwingSome(ws[..|ws| - 1], g);
    }
  }

  // ---- every move keeps the protocol invariant ----

  ghost predicate WorkersOk(s: State) {
    forall i {:trigger s.workers[i]} :: 0 <= i < |s.workers| ==> WorkerOk(s, s.workers[i])
  }

  lemma CallerKeepsLock(s: State)
    requires LockInv(s) && s.n > 0 && Enabled(s, Caller) && (CallerHolds(s.caller) ==> s.owner == Some(0))
    ensures LockInv(CallerStep(s))
  {
    hide Part;
  }

  lemma CallerKeepsWorkers(s: State)
    requires ProtocolInv(s) && Enabled(s, Caller)
    ensures WorkersOk(CallerStep(s))
  {
    hide Part, LockInv;
    if s.caller.ChecksDone? && s.remaining == 0 {
      OwingZero(s.workers, s.generation);
    }
  }

  lemma CallerKeepsCounts(s: State)
    requires ProtocolInv(s) && Enabled(s, Caller)
    ensures CountsInv(CallerStep(s))
  {
    hide Part, LockInv;
    var s1 := CallerStep(s);
    match s.caller
    case Bumps => OwingAll(s1.workers, s1.generation);
    case Notifies => OwingSame(s.workers, s1.workers, s.generation);
    case _ =>
  }

  lemma WorkerKeepsLock(s: State, i: nat)
    requires s.n > 0 && LockInv(s) && Enabled(s, Work(i))
    ensures LockInv(WorkerStep(s, i))
  {
    hide Part;
  }

  lemma WorkerKeepsWorkers(s: State, i: nat)
    requires ProtocolInv(s) && Enabled(s, Work(i))
    ensures WorkersOk(WorkerStep(s, i))
  {
    hide Part, LockInv, Owing;
    var s1 := WorkerStep(s, i);
    assert WorkerOk(s, s.workers[i]);
    assert WorkerOk(s1, s1.workers[i]);
    forall j | 0 <= j < |s1.workers| && j != i ensures WorkerOk(s1, s1.workers[j]) {
      assert s1.workers[j] == s.workers[j];
    }
  }

  lemma OwingOne(ws: seq<Worker>, g: nat, i: nat)
    requires i < |ws| && Owes(ws[i], g)
    ensures Owing(ws, g) >= 1
  {
    if Owing(ws, g) == 0 { OwingZero(ws, g); }
  }

  lemma WorkerKeepsCounts(s: State, i: nat)
    requires ProtocolInv(s) && Enabled(s, Work(i))
    ensures CountsInv(WorkerStep(s, i))
  {
    hide Part, LockInv, Owing;
    var w := s.workers[i];
    assert WorkerOk(s, w);
    var s1 := WorkerStep(s, i);
    OwingSet(s.workers, i, s1.workers[i], s.generation);
    if w.pc.Counts? {
      OwingOne(s.workers, s.generation, i);
    }
  }

  lemma OtherKeeps(s: State, m: Move)
    requires ProtocolInv(s) && Enabled(s, m) && !m.Caller? && !m.Work?
    ensures ProtocolInv(Step(s, m))
  {
    hide Part, CallerStep, WorkerStep;
    if m.Spurious? {
      OwingSet(s.workers, m.i, s.workers[m.i].(pc := Wants), s.generation);
    }
  }

  lemma StepKeeps(s: State, m: Move)
    requires ProtocolInv(s) && Enabled(s, m)
    ensures ProtocolInv(Step(s, m))
  {
    hide LockInv, CountsInv, WorkerOk, CallerStep, WorkerStep, BeginCall;
    match m
    case Caller =>
      LockParts(s);
      CallerKeepsLock(s);
      CallerKeepsWorkers(s);
      CallerKeepsCounts(s);
      assert WorkersOk(Step(s, m));
    case Work(i) =>
      LockParts(s);
      WorkerKeepsLock(s, i);
      WorkerKeepsWorkers(s, i);
      WorkerKeepsCounts(s, i);
      assert WorkersOk(Step(s, m));
    case _ =>
      OtherKeeps(s, m);
  }

  lemma LockParts(s: State)
    requires LockInv(s) && CountsInv(s)
    ensures s.n > 0 && (CallerHolds(s.caller) ==> s.owner == Some(0))
  {
  }

  // ---- which indices have been run ----

  /** How often body `k` was run on index `x`. */
  function Hits(log: seq<Exec>, k: nat, x: nat): nat {
    if log == [] then 0
    else
      var e := log[|log| - 1];
      Hits(log[..|log| - 1], k, x) + if e.body == k && e.lo <= x < e.hi then 1 else 0
  }

  lemma HitsAppend(log: seq<Exec>, e: Exec, k: nat, x: nat)
    ensures Hits(log + [e], k, x) == Hits(log, k, x) + if e.body == k && e.lo <= x < e.hi then 1 else 0
  {
    assert (log + [e])[..|log|] == log;
  }

  /** The caller's own part of the call in progress has been run. */
  predicate CallerDone(pc: CallerPc) { pc.Returns? || pc.ChecksDone? || pc.Dozes? || pc.Clears? }

  predicate WorkerDone(s: State, w: Worker) {
    (Active(s.caller) || s.caller.Clears?) && w.seen == s.generation && !w.pc.Works?
  }

  /** Of the parts of the first `k` workers that have been run, how many hold `x`. */
  function DoneParts(s: State, k: nat, x: nat): nat
    requires s.n > 0 && k <= |s.workers|
  {
    if k == 0 then 0 else DoneParts(s, k - 1, x) + if WorkerDone(s, s.workers[k - 1]) then InPart(s.n, s.goal, k, x) else 0
  }

  function Done(s: State, x: nat): nat
    requires s.n > 0
  {
    (if CallerDone(s.caller) then InPart(s.n, s.goal, 0, x) else 0) + DoneParts(s, |s.workers|, x)
  }

  lemma {:induction false} DoneSame(s: State, s1: State, k: nat, x: nat)
    requires s.n == s1.n > 0 && s.goal == s1.goal && k <= |s.workers| && k <= |s1.workers|
    requires forall i :: 0 <= i < k ==> (WorkerDone(s, s.workers[i]) <==> WorkerDone(s1, s1.workers[i]))
    ensures DoneParts(s1, k, x) == DoneParts(s, k, x)
  {
    if k > 0 {
      DoneSame(s, s1, k - 1, x);
    }
  }

  /** One more worker is done. */
  lemma {:induction false} DoneOne(s: State, s1: State, i: nat, k: nat, x: nat)
    requires s.n == s1.n > 0 && s.goal == s1.goal && k <= |s.workers| == |s1.workers| && i < k
    requires !WorkerDone(s, s.workers[i]) && WorkerDone(s1, s1.workers[i])
    requires forall j :: 0 <= j < |s.workers| && j != i ==> (WorkerDone(s, s.workers[j]) <==> WorkerDone(s1, s1.workers[j]))
    ensures DoneParts(s1, k, x) == DoneParts(s, k, x) + InPart(s.n, s.goal, i + 1, x)
  {
    hide InPart, WorkerDone;
    if k - 1 == i {
      DoneSame(s, s1, k - 1, x);
    } else {
      DoneOne(s, s1, i, k - 1, x);
    }
  }

  lemma {:induction false} DoneNone(s: State, k: nat, x: nat)
    requires s.n > 0 && k <= |s.workers| && forall i :: 0 <= i < k ==> !WorkerDone(s, s.workers[i])
    ensures DoneParts(s, k, x) == 0
  {
    if k > 0 {
      DoneNone(s, k - 1, x);
    }
  }

  lemma {:induction false} DoneAll(s: State, k: nat, x: nat)
    requires s.n > 0 && k <= |s.workers| == s.n - 1 && forall i :: 0 <= i < |s.workers| ==> WorkerDone(s, s.workers[i])
    ensures DoneParts(s, k, x) + Holders(s.n, s.goal, k + 1, x) == Holders(s.n, s.goal, 1, x)
  {
    hide InPart;
    if k > 0 {
      DoneAll(s, k - 1, x);
    }
  }

  /** The shared fields belong to the call in progress from the moment they are read by anybody. */
  ghost predicate FieldsInv(s: State) {
    && (s.caller.SetsBody? || s.caller.SetsRemaining? || s.caller.Bumps? || Active(s.caller) || s.caller.Clears? ==> s.count == s.goal)
    && (s.caller.SetsRemaining? || s.caller.Bumps? || Active(s.caller) ==> s.body == s.calls)
  }

  ghost predicate Completed(log: seq<Exec>, f: (nat, nat)) {
    forall x: nat :: Hits(log, f.0, x) == if x < f.1 then 1 else 0
  }

  ghost predicate HistoryInv(s: State)
    requires s.n > 0
  {
    && (forall k: nat, x: nat :: k > s.calls ==> Hits(s.log, k, x) == 0)
    && (forall j :: 0 <= j < |s.finished| ==> s.finished[j].0 <= s.calls && (InCall(s.caller) ==> s.finished[j].0 < s.calls) && Completed(s.log, s.finished[j]))
    && (InCall(s.caller) ==> forall x: nat :: Hits(s.log, s.calls, x) == Done(s, x))
  }

  ghost predicate PoolInv(s: State) {
    ProtocolInv(s) && FieldsInv(s) && HistoryInv(s)
  }

  lemma FieldsKeeps(s: State, m: Move)
    requires ProtocolInv(s) && FieldsInv(s) && Enabled(s, m)
    ensures FieldsInv(Step(s, m))
  {
    hide Part, LockInv, Owing, WorkerOk;
  }

  /** Running a part adds one hit to each of its indices and changes nothing else in the log. */
  lemma RunPartHits(s: State, idx: nat, k: nat, x: nat)
    requires s.n > 0
    ensures Hits(RunPart(s, idx).log, k, x) == Hits(s.log, k, x) + if k == s.body then InPart(s.n, s.count, idx, x) else 0
  {
    hide Part;
    var (lo, hi) := Part(s.n, s.count, idx);
    HitsAppend(s.log, Exec(s.body, lo, hi), k, x);
  }

  /** The log is as it was and so is what it should hold. */
  lemma HistorySame(s: State, s1: State)
    requires s.n == s1.n > 0 && |s1.workers| == |s.workers| && HistoryInv(s) && s1.log == s.log && s1.calls == s.calls && s1.finished == s.finished
    requires InCall(s1.caller) ==> InCall(s.caller) && s1.goal == s.goal && (CallerDone(s1.caller) <==> CallerDone(s.caller))
    requires InCall(s1.caller) ==> forall i :: 0 <= i < |s.workers| ==> (WorkerDone(s1, s1.workers[i]) <==> WorkerDone(s, s.workers[i]))
    ensures HistoryInv(s1)
  {
    hide Hits, InPart, WorkerDone, Completed, DoneParts;
    if InCall(s1.caller) {
      forall x: nat ensures Hits(s1.log, s1.calls, x) == Done(s1, x) {
        DoneSame(s, s1, |s.workers|, x);
      }
    }
  }

  /** One part of the call in progress was run and is now counted as done. */
  lemma HistoryPart(s: State, s1: State, idx: nat)
    requires s.n == s1.n > 0 && |s1.workers| == |s.workers| && HistoryInv(s) && Active(s.caller) && Active(s1.caller) && s.body == s.calls && s.count == s.goal
    requires s1.log == RunPart(s, idx).log && s1.calls == s.calls && s1.finished == s.finished && s1.goal == s.goal
    requires forall x: nat :: Done(s1, x) == Done(s, x) + InPart(s.n, s.goal, idx, x)
    ensures HistoryInv(s1)
  {
    hide Hits, InPart, Done, RunPart;
    forall k: nat, x: nat ensures Hits(s1.log, k, x) == Hits(s.log, k, x) + if k == s.calls then InPart(s.n, s.goal, idx, x) else 0 {
      RunPartHits(s, idx, k, x);
    }
    forall j | 0 <= j < |s.finished| ensures Completed(s1.log, s1.finished[j]) {
      assert Completed(s.log, s.finished[j]);
    }
  }

  lemma CallerHistory(s: State)
    requires PoolInv(s) && Enabled(s, Caller)
    ensures HistoryInv(CallerStep(s))
  {
    hide Hits, InPart, LockInv, Owing, Part, HistoryInv, DoneParts;
    var s1 := CallerStep(s);
    CallerKeepsCounts(s);
    if s.caller.Runs? {
      forall x: nat ensures Done(s1, x) == Done(s, x) + InPart(s.n, s.goal, 0, x) {
        DoneSame(s, s1, |s.workers|, x);
      }
      HistoryPart(s, s1, 0);
    } else if s.caller.Clears? {
      CallReturns(s);
    } else {
      if s.caller.ChecksDone? && s.remaining == 0 { OwingZero(s.workers, s.generation); }
      HistorySame(s, s1);
    }
  }

  /** When the caller is about to return, every index below the argument has been run once, and no other. */
  lemma CallReturns(s: State)
    requires PoolInv(s) && s.caller.Clears?
    ensures Completed(s.log, (s.calls, s.goal)) && HistoryInv(CallerStep(s))
  {
    hide Hits, InPart, LockInv, Owing, Part, DoneParts;
    forall x: nat ensures Hits(s.log, s.calls, x) == if x < s.goal then 1 else 0 {
      assert Hits(s.log, s.calls, x) == Done(s, x);
      assert forall i :: 0 <= i < |s.workers| ==> WorkerDone(s, s.workers[i]);
      DoneAll(s, |s.workers|, x);
      PartsPartition(s.n, s.goal, x);
    }
  }

  lemma WorkerHistory(s: State, i: nat)
    requires PoolInv(s) && Enabled(s, Work(i))
    ensures HistoryInv(WorkerStep(s, i))
  {
    hide Hits, InPart, LockInv, Owing, Part, HistoryInv, DoneParts;
    var s1 := WorkerStep(s, i);
    assert WorkerOk(s, s.workers[i]);
    if s.workers[i].pc.Works? {
      forall x: nat ensures Done(s1, x) == Done(s, x) + InPart(s.n, s.goal, i + 1, x) {
        DoneOne(s, s1, i, |s.workers|, x);
      }
      HistoryPart(s, s1, i + 1);
    } else {
      HistorySame(s, s1);
    }
  }

  lemma CompletedLater(log: seq<Exec>, e: Exec, f: (nat, nat))
    requires Completed(log, f) && e.body != f.0
    ensures Completed(log + [e], f)
  {
    hide Hits;
    forall x: nat ensures Hits(log + [e], f.0, x) == if x < f.1 then 1 else 0 {
      HitsAppend(log, e, f.0, x);
    }
  }

  /** A call that runs in place. */
  lemma InlineHistory(s: State, count: nat)
    requires s.n > 0 && s.caller.Idle? && HistoryInv(s) && count > 0
    ensures HistoryInv(s.(calls := s.calls + 1, log := s.log + [Exec(s.calls + 1, 0, count)], finished := s.finished + [(s.calls + 1, count)]))
  {
    hide Hits;
    var k := s.calls + 1;
    var e := Exec(k, 0, count);
    var log := s.log + [e];
    forall b: nat, x: nat ensures Hits(log, b, x) == Hits(s.log, b, x) + if b == k && x < count then 1 else 0 {
      HitsAppend(s.log, e, b, x);
    }
    forall j | 0 <= j < |s.finished| ensures Completed(log, s.finished[j]) {
      CompletedLater(s.log, e, s.finished[j]);
    }
    assert Completed(log, (k, count));
  }

  lemma BeginHistory(s: State, count: int)
    requires PoolInv(s) && s.caller.Idle?
    ensures HistoryInv(BeginCall(s, count))
  {
    hide InPart, LockInv, Owing, Part, Hits;
    var s1 := BeginCall(s, count);
    if count <= 0 {
      assert Completed(s.log, (s1.calls, 0));
    } else if s.n == 1 || count == 1 {
      InlineHistory(s, count);
    } else {
      forall x: nat ensures Done(s1, x) == 0 {
        DoneNone(s1, |s1.workers|, x);
      }
    }
  }

  lemma PoolKeeps(s: State, m: Move)
    requires PoolInv(s) && Enabled(s, m)
    ensures PoolInv(Step(s, m))
  {
    hide ProtocolInv, FieldsInv, CallerStep, WorkerStep, BeginCall, HistoryInv;
    ProtocolParts(s);
    StepKeeps(s, m);
    FieldsKeeps(s, m);
    ProtocolParts(Step(s, m));
    match m
    case Begin(count) => BeginHistory(s, count);
    case Caller => CallerHistory(s);
    case Work(i) => WorkerHistory(s, i);
    case _ => QuietHistory(s, m);
  }

  lemma ProtocolParts(s: State)
    requires ProtocolInv(s)
    ensures s.n > 0
  {
  }

  lemma QuietHistory(s: State, m: Move)
    requires PoolInv(s) && Enabled(s, m) && (m.Shutdown? || m.Spurious? || m.SpuriousCaller?)
    ensures HistoryInv(Step(s, m))
  {
    hide Hits, InPart, LockInv, Owing, Part, HistoryInv, CallerStep, WorkerStep;
    HistorySame(s, Step(s, m));
  }

  lemma {:induction false} RunInv(n: nat, moves: seq<Move>)
    requires n > 0 && Legal(n, moves)
    ensures PoolInv(Run(n, moves))
  {
    hide Step, Enabled;
    if moves == [] {
      InitialInv(n);
    } else {
      RunInv(n, moves[..|moves| - 1]);
      PoolKeeps(Run(n, moves[..|moves| - 1]), moves[|moves| - 1]);
    }
  }

  lemma InitialInv(n: nat)
    requires n > 0
    ensures PoolInv(Initial(n))
  {
  }

  // ---- progress ----

  /** The moves that the threads make by themselves. */
  predicate Internal(m: Move) { m.Caller? || m.Work? }

  function WorkerRank(w: Worker, generation: nat): nat {
    match w.pc
    case Gone => 0
    case Asleep => if w.seen == generation then 0 else 8
    case Checks => if w.seen == generation then 1 else 6
    case Wants => if w.seen == generation then 2 else 7
    case Counts => 3
    case Reports => 4
    case Works => 5
  }

  function WorkerRanks(ws: seq<Worker>, generation: nat): nat {
    if ws == [] then 0 else WorkerRanks(ws[..|ws| - 1], generation) + WorkerRank(ws[|ws| - 1], generation)
  }

  /** `wait`: somebody still owes. Waking can raise each worker's rank by 2, a new generation by 8. */
  function CallerRank(pc: CallerPc, n: nat, wait: bool): nat {
    match pc
    case Idle => 0
    case Ended => 0
    case Clears => 3
    case ChecksDone => if wait then 8 else 4
    case Returns => if wait then 9 else 5
    case Dozes => 7
    case Runs => 10
    case Notifies => 11 + Span(n, 2)
    case Bumps => 12 + Span(n, 10)
    case SetsRemaining => 13 + Span(n, 10)
    case SetsBody => 14 + Span(n, 10)
    case SetsCount => 15 + Span(n, 10)
    case Enters => 16 + Span(n, 10)
    case Joins => 1
    case NotifiesStop => 2 + Span(n, 2)
    case SetsStop => 3 + Span(n, 10)
    case Stops => 4 + Span(n, 10)
  }

  function Measure(s: State): nat {
    CallerRank(s.caller, s.n, s.remaining > 0) + WorkerRanks(s.workers, s.generation)
  }

  lemma {:induction false} RanksSet(ws: seq<Worker>, i: nat, w: Worker, g: nat)
    requires i < |ws|
    ensures WorkerRanks(ws[i := w], g) + WorkerRank(ws[i], g) == WorkerRanks(ws, g) + WorkerRank(w, g)
  {
    var m := |ws| - 1;
    assert ws[i := w][..m] == if i < m then ws[..m][i := w] else ws[..m];
    if i < m {
      RanksSet(ws[..m], i, w, g);
    }
  }

  lemma {:induction false} RanksRise(ws: seq<Worker>, ws1: seq<Worker>, g: nat, g1: nat, d: nat)
    requires |ws1| == |ws| && forall i :: 0 <= i < |ws| ==> WorkerRank(ws1[i], g1) <= WorkerRank(ws[i], g) + d
    ensures WorkerRanks(ws1, g1) <= WorkerRanks(ws, g) + Span(d, |ws|)
  {
    hide WorkerRank;
    if ws != [] {
      RanksRise(ws[..|ws| - 1], ws1[..|ws| - 1], g, g1, d);
    }
  }

  lemma SpanFlip(n: nat, d: nat)
    requires n > 0 && d > 0
    ensures Span(d, n - 1) < Span(n, d)
  {
    SpanIsMul(d, n - 1);
    SpanIsMul(n, d);
    assert d * n == n * d && (n - 1) * d == n * d - d;
  }

  lemma CallerLowers(s: State)
    requires PoolInv(s) && Enabled(s, Caller)
    ensures Measure(CallerStep(s)) < Measure(s)
  {
    hide HistoryInv, LockInv, Owing, Part, WorkerRanks, Span;
    var s1 := CallerStep(s);
    SpanFlip(s.n, 2);
    SpanFlip(s.n, 8);
    SpanSum(s.n);
    match s.caller
    case Bumps => RanksRise(s.workers, s1.workers, s.generation, s1.generation, 8);
    case SetsStop => RanksRise(s.workers, s1.workers, s.generation, s1.generation, 8);
    case Notifies => RanksRise(s.workers, s1.workers, s.generation, s1.generation, 2);
    case NotifiesStop => RanksRise(s.workers, s1.workers, s.generation, s1.generation, 2);
    case _ =>
  }

  lemma SpanSum(n: nat)
    ensures Span(n, 10) == Span(n, 2) + Span(n, 8)
  {
    SpanIsMul(n, 10);
    SpanIsMul(n, 2);
    SpanIsMul(n, 8);
  }

  lemma WorkerLowers(s: State, i: nat)
    requires PoolInv(s) && Enabled(s, Work(i))
    ensures Measure(WorkerStep(s, i)) < Measure(s)
  {
    hide HistoryInv, LockInv, Owing, Part, WorkerRanks, Span;
    var s1 := WorkerStep(s, i);
    assert WorkerOk(s, s.workers[i]);
    RanksSet(s.workers, i, s1.workers[i], s.generation);
    if s.workers[i].pc.Counts? {
      OwingOne(s.workers, s.generation, i);
    }
  }

  /** Every move of a thread lowers the measure, so no schedule can run forever. */
  lemma MovesLower(n: nat, moves: seq<Move>, m: Move)
    requires n > 0 && Legal(n, moves + [m]) && Internal(m)
    ensures Measure(Run(n, moves + [m])) < Measure(Run(n, moves))
  {
    assert (moves + [m])[..|moves|] == moves;
    RunInv(n, moves);
    hide PoolInv, CallerStep, WorkerStep;
    if m.Caller? {
      CallerLowers(Run(n, moves));
    } else {
      WorkerLowers(Run(n, moves), m.i);
    }
  }

  /** However the threads are scheduled from a state on, they make at most `Measure` moves before they all wait. */
  lemma {:induction false} BoundedMoves(n: nat, moves: seq<Move>, more: seq<Move>)
    requires n > 0 && Legal(n, moves + more) && forall i :: 0 <= i < |more| ==> Internal(more[i])
    ensures Legal(n, moves) && |more| + Measure(Run(n, moves + more)) <= Measure(Run(n, moves))
    decreases |more|
  {
    hide Measure, Run;
    if more == [] {
      assert moves + more == moves;
    } else {
      var k := |more| - 1;
      var front := moves + more[..k];
      assert moves + more == front + [more[k]] && (moves + more)[..|moves + more| - 1] == front;
      BoundedMoves(n, moves, more[..k]);
      MovesLower(n, front, more[k]);
    }
  }

  // ---- the theorems ----

  /** Mutual exclusion: at most one thread holds the mutex at a time. */
  lemma MutualExclusion(n: nat, moves: seq<Move>, i: nat, j: nat)
    requires n > 0 && Legal(n, moves)
    ensures var s := Run(n, moves);
            && (i < |s.workers| && CallerHolds(s.caller) ==> !WorkerHolds(s.workers[i].pc))
            && (i < j < |s.workers| && WorkerHolds(s.workers[i].pc) ==> !WorkerHolds(s.workers[j].pc))
  {
    hide HistoryInv, FieldsInv, WorkerOk, CountsInv;
    RunInv(n, moves);
  }

  /** While the caller rewrites the shared fields, no worker is between reading them and reporting. */
  lemma NoTornReads(n: nat, moves: seq<Move>, i: nat)
    requires n > 0 && Legal(n, moves) && i < |Run(n, moves).workers|
    ensures var s := Run(n, moves);
            s.workers[i].pc.Works? ==> Active(s.caller) && s.count == s.goal && s.body == s.calls && s.workers[i].seen == s.generation
  {
    hide HistoryInv, LockInv, CountsInv;
    RunInv(n, moves);
    assert WorkerOk(Run(n, moves), Run(n, moves).workers[i]);
  }

  /** Every call that has returned has run its body exactly once on each index below its argument, and on no other. */
  lemma ExactlyOnce(n: nat, moves: seq<Move>, j: nat, x: nat)
    requires n > 0 && Legal(n, moves) && j < |Run(n, moves).finished|
    ensures var s := Run(n, moves); Hits(s.log, s.finished[j].0, x) == if x < s.finished[j].1 then 1 else 0
  {
    hide ProtocolInv, FieldsInv, Hits;
    RunInv(n, moves);
    assert Completed(Run(n, moves).log, Run(n, moves).finished[j]);
  }

  /** A call returns only when no worker is still inside it. */
  lemma ReturnsLast(n: nat, moves: seq<Move>, i: nat)
    requires n > 0 && Legal(n, moves) && i < |Run(n, moves).workers| && Run(n, moves).caller.Clears?
    ensures var s := Run(n, moves); s.remaining == 0 && !Busy(s.workers[i]) && s.workers[i].seen == s.generation
  {
    hide HistoryInv, LockInv;
    RunInv(n, moves);
    assert WorkerOk(Run(n, moves), Run(n, moves).workers[i]);
  }

  lemma HolderMoves(s: State) returns (m: Move)
    requires LockInv(s) && s.owner.Some?
    ensures Internal(m) && Enabled(s, m)
  {
    if s.owner == Some(0) {
      m := Caller;
    } else {
      m := Work(s.owner.value - 1);
      assert WorkerHolds(s.workers[s.owner.value - 1].pc);
    }
  }

  /**
   No deadlock: whenever a call or the shutdown is in progress, some thread can move by itself. With
   `MovesLower` this means that every call returns and every shutdown ends, in every interleaving.
   */
  lemma NoDeadlock(n: nat, moves: seq<Move>) returns (m: Move)
    requires n > 0 && Legal(n, moves) && !Run(n, moves).caller.Idle? && !Run(n, moves).caller.Ended?
    ensures Internal(m) && Enabled(Run(n, moves), m)
  {
    var s := Run(n, moves);
    RunInv(n, moves);
    hide HistoryInv, FieldsInv, Run, Legal;
    if s.owner.Some? {
      m := HolderMoves(s);
    } else if s.caller.Dozes? {
      var i := OwingSome(s.workers, s.generation);
      assert WorkerOk(s, s.workers[i]);
      m := Work(i);
    } else if s.caller.Joins? && exists i :: 0 <= i < |s.workers| && !s.workers[i].pc.Gone? {
      var i :| 0 <= i < |s.workers| && !s.workers[i].pc.Gone?;
      assert WorkerOk(s, s.workers[i]);
      m := Work(i);
    } else {
      m := Caller;
    }
  }
}
