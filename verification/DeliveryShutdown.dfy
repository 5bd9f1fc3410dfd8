/** After `Close` has stopped the bus, the engine comes to an end: every step it takes brings it closer. */
module DeliveryShutdown {
  import opened Delivery
  import opened DeliveryOwnership
  import opened DeliveryTheorems
  import opened DeliveryRuns
  import opened DeliveryProgress

  function PhaseRank(phase: Phase): (n: nat)
    ensures 2 <= n <= 10
  {
    match phase
    case Scheduling => 2
    case Delaying => 3
    case Leaving(_) => 4
    case Returned(_) => 6
    case Sending => 7
    case Ready => 8
    case Checking => 9
    case Waiting => 10
    case Holding => 10
  }

  function WorkerRank(w: Worker): (n: nat) {
    match w
    case Exited => 0
    case Idle => 1
    case Busy(phase, _, _) => PhaseRank(phase)
  }

  function WorkersRank(workers: seq<Worker>): (n: nat) {
    if workers == [] then 0 else WorkerRank(workers[0]) + WorkersRank(workers[1..])
  }

  function SchedulerRank(x: Scheduler): (n: nat) {
    match x
    case Ended => 0
    case Resting => 1
    case Pushing(_) => 1
    case Judging(_) => 2
  }

  /** `queued` events are still to be flushed. */
  function FlushRank(f: Flush, queued: nat): (n: nat) {
    match f
    case Flushed => 0
    case Draining => 1 + 11 * queued
    case Flushing(phase, _, _) => 1 + 11 * queued + PhaseRank(phase)
    case Cleared => 2 + 11 * queued
    case NotStarted => 3 + 11 * queued
  }

  /** How much the engine still has to do. */
  function Rank(s: State): (n: nat) {
    WorkersRank(s.workers) + SchedulerRank(s.scheduler) + FlushRank(s.flush, |s.line.items|) + |s.locks.removing|
  }

  /** A step of a worker, the scheduler, the flush or an exhaustion removal. */
  predicate EngineStep(step: Step) {
    step.ByWorker? || step.ByScheduler? || step.ByFlush? || (step.ByLocks? && step.lock.RemovalEnds?)
  }

  /** One step leads from `s` to `s'`; `engine` says whose it was. */
  ghost predicate Moves(s: State, s': State, engine: bool) {
    exists step :: Next(s, s', step) && EngineStep(step) == engine
  }

  ghost predicate MovesAt(run: seq<State>, engine: seq<bool>, i: nat)
    requires i < |engine| && |run| == |engine| + 1
  {
    Moves(run[i], run[i + 1], engine[i])
  }

  /** `engine[i]` tells whether the engine made step `i` of the run. */
  ghost predicate Labels(run: seq<State>, engine: seq<bool>) {
    |run| == |engine| + 1 && forall i :: 0 <= i < |engine| ==> MovesAt(run, engine, i)
  }

  /** The number of engine steps from position `from` to position `last`. */
  function EngineSteps(engine: seq<bool>, from: nat, last: nat): (n: nat)
    requires from <= last <= |engine|
  {
    if last == from then 0 else EngineSteps(engine, from, last - 1) + if engine[last - 1] then 1 else 0
  }

  lemma {:induction false} WorkersRankAfter(workers: seq<Worker>, w: nat, x: Worker)
    requires w < |workers|
    ensures WorkersRank(workers[w := x]) == WorkersRank(workers) - WorkerRank(workers[w]) + WorkerRank(x)
  {
    if w > 0 {
      WorkersRankAfter(workers[1..], w - 1, x);
      assert workers[w := x][1..] == workers[1..][w - 1 := x];
    } else {
      assert workers[w := x][1..] == workers[1..];
    }
  }

  /** A worker's own rank and the removals it may have started. */
  function RankOf(s: State, w: nat): (n: nat)
    requires w < |s.workers|
  {
    WorkerRank(s.workers[w]) + |s.locks.removing|
  }

  /** A worker of a stopped bus only moves towards its exit. */
  lemma WorkerComesCloser(s: State, s': State, w: nat, action: WorkerAction)
    requires s.sendClosed && s.retries.closed && WorkerNext(s, s', w, action)
    ensures RankOf(s', w) < RankOf(s, w)
  {
    match action
    case Check(current) => CheckComesCloser(s, s', w, current);
    case BeginSend => BeginComesCloser(s, s', w);
    case EndSend(outcome) => EndComesCloser(s, s', w, outcome);
    case Judge(current) => JudgeComesCloser(s, s', w, current);
    case TurnComes => assert TurnComesStep(s, s', w);
    case Leave => assert LeaveStep(s, s', w);
    case _ =>
  }

  lemma ExhaustAddsOne(s: State, client: nat)
    ensures |Exhaust(s, client).locks.removing| <= |s.locks.removing| + 1
  {
    if client in s.locks.removing {
      assert s.locks.removing + {client} == s.locks.removing;
    }
  }

  lemma CheckComesCloser(s: State, s': State, w: nat, current: bool)
    requires CheckStep(s, s', w, current)
    ensures w < |s'.workers| && RankOf(s', w) < RankOf(s, w)
  {
    ExhaustAddsOne(s, s.workers[w].event.client);
  }

  lemma BeginComesCloser(s: State, s': State, w: nat)
    requires BeginSendStep(s, s', w)
    ensures w < |s'.workers| && RankOf(s', w) < RankOf(s, w)
  {}

  lemma EndComesCloser(s: State, s': State, w: nat, outcome: Outcome)
    requires EndSendStep(s, s', w, outcome)
    ensures w < |s'.workers| && RankOf(s', w) < RankOf(s, w)
  {}

  lemma JudgeComesCloser(s: State, s': State, w: nat, current: bool)
    requires JudgeStep(s, s', w, current)
    ensures w < |s'.workers| && RankOf(s', w) < RankOf(s, w)
  {
    ExhaustAddsOne(s, s.workers[w].event.client);
  }

  lemma WorkersShrink(s: State, s': State, w: nat, action: WorkerAction)
    requires s.sendClosed && s.retries.closed && WorkerNext(s, s', w, action)
    ensures s'.stopped == s.stopped && Rank(s') < Rank(s)
  {
    WorkerComesCloser(s, s', w, action);
    LineOnlyShrinks(s, s', w, action);
    WorkersRankAfter(s.workers, w, s'.workers[w]);
  }

  lemma FlushOpensShrinks(s: State, s': State, action: FlushAction)
    requires FlushNext(s, s', action) && (action.Start? || action.Drain? || action.Take? || action.Complete?)
    ensures s'.stopped == s.stopped && Rank(s') < Rank(s)
  {
    match action
    case Start => assert FlushStartStep(s, s');
    case Drain =>
    case Take => assert FlushTakeStep(s, s');
    case Complete => assert FlushEndStep(s, s');
  }

  lemma FlushSendsShrinks(s: State, s': State, action: FlushAction)
    requires FlushNext(s, s', action) && (action.FlushBegin? || action.FlushReturn? || action.FlushLeave?)
    ensures s'.stopped == s.stopped && Rank(s') < Rank(s)
  {
    match action
    case FlushBegin => FlushBeginShrinks(s, s');
    case FlushReturn(outcome) => FlushReturnShrinks(s, s', outcome);
    case FlushLeave => FlushLeaveShrinks(s, s');
  }

  lemma FlushBeginShrinks(s: State, s': State)
    requires FlushBeginStep(s, s')
    ensures s'.stopped == s.stopped && Rank(s') < Rank(s)
  {}

  lemma FlushReturnShrinks(s: State, s': State, outcome: Outcome)
    requires FlushReturnStep(s, s', outcome)
    ensures s'.stopped == s.stopped && Rank(s') < Rank(s)
  {}

  lemma FlushLeaveShrinks(s: State, s': State)
    requires FlushLeaveStep(s, s')
    ensures s'.stopped == s.stopped && Rank(s') < Rank(s)
  {}

  lemma FlushShrinks(s: State, s': State, action: FlushAction)
    requires FlushNext(s, s', action)
    ensures s'.stopped == s.stopped && Rank(s') < Rank(s)
  {
    match action
    case FlushTurn => assert FlushTurnStep(s, s');
    case FlushCheck(current) => assert FlushCheckStep(s, s', current);
    case FlushBegin => FlushSendsShrinks(s, s', action);
    case FlushReturn(_) => FlushSendsShrinks(s, s', action);
    case FlushLeave => FlushSendsShrinks(s, s', action);
    case _ => FlushOpensShrinks(s, s', action);
  }

  lemma OthersDoNotGrow(s: State, s': State, action: OtherAction)
    requires OtherNext(s, s', action)
    ensures Rank(s') <= Rank(s) && (s.stopped ==> s'.stopped)
  {
    match action
    case RemoveQueued(c, r) =>
      if !Drained(s.flush) {
        assert |s'.line.items| <= |s.line.items|;
      }
    case _ =>
  }

  /** Every step of the stopped engine uses some of what is left; nothing the rest of the bus does adds to it. */
  lemma ShutdownShrinks(s: State, s': State, engine: bool)
    requires s.stopped && ClosingInv(s) && Moves(s, s', engine)
    ensures s'.stopped
    ensures Rank(s') <= Rank(s) - if engine then 1 else 0
  {
    var step :| Next(s, s', step) && EngineStep(step) == engine;
    match step
    case ByWorker(w, action) => WorkersShrink(s, s', w, action);
    case ByScheduler(action) => SchedulerShrinks(s, s', action);
    case ByPublisher(p, action) => PublishersDoNotGrow(s, s', p, action);
    case ByFlush(action) => FlushShrinks(s, s', action);
    case ByOthers(action) => OthersDoNotGrow(s, s', action);
    case ByLocks(action) => LocksShrink(s, s', action);
  }

  lemma SchedulerShrinks(s: State, s': State, action: SchedulerAction)
    requires s.sendClosed && s.retries.closed && SchedulerNext(s, s', action)
    ensures s'.stopped == s.stopped && Rank(s') < Rank(s)
  {}

  lemma PublishersDoNotGrow(s: State, s': State, p: nat, action: PublisherAction)
    requires s.sendClosed && PublisherNext(s, s', p, action)
    ensures s'.stopped == s.stopped && Rank(s') == Rank(s)
  {}

  lemma LocksShrink(s: State, s': State, action: LockAction)
    requires LockNext(s, s', action)
    ensures s'.stopped == s.stopped && Rank(s') <= Rank(s) - if action.RemovalEnds? then 1 else 0
  {}

  lemma RunShrinks(run: seq<State>, engine: seq<bool>, i: nat)
    requires IsRun(run) && Labels(run, engine) && i < |engine| && run[i].stopped
    ensures run[i + 1].stopped
    ensures Rank(run[i + 1]) <= Rank(run[i]) - if engine[i] then 1 else 0
  {
    RunInv(run, i);
    assert MovesAt(run, engine, i);
    ShutdownShrinks(run[i], run[i + 1], engine[i]);
  }

  /**
    Shutdown terminates: from a stopped state on, a run contains no more than
    `Rank` steps of workers, scheduler, flush and removals, whatever else happens.
  */
  lemma {:induction false} ShutdownTerminates(run: seq<State>, engine: seq<bool>, from: nat, last: nat)
    requires IsRun(run) && Labels(run, engine) && from <= last < |run| && run[from].stopped
    ensures run[last].stopped
    ensures EngineSteps(engine, from, last) + Rank(run[last]) <= Rank(run[from])
    decreases last
  {
    if from < last {
      ShutdownTerminates(run, engine, from, last - 1);
      RunShrinks(run, engine, last - 1);
    }
  }

  // ------------------------------------------------------- and always goes on

  /** The step is possible now, or once the clock has gone on. */
  ghost predicate Possible(s: State, s': State, later: int, step: Step) {
    s.now <= later && Next(s.(now := later), s', step)
  }

  /** With this step whoever holds the mutex of generation `g` comes out of its call on the connection. */
  predicate ClearsMutex(s: State, g: nat, step: Step) {
    || (step == ByLocks(HeartbeatEnd(g)) && g in s.locks.heartbeats)
    || (step.ByWorker? && step.worker.EndSend? && step.w < |s.workers| && Sends(s.workers[step.w], g))
    || (step.ByFlush? && step.flush.FlushReturn? && FlushIn(s, Sending) && s.flush.event.client == g)
  }

  /** With this step the expiration loop, inside a lock, goes on, or gets the mutex it wants cleared. */
  predicate ExpiryActs(s: State, step: Step) {
    var x := s.locks.expiry;
    && (x.Scanning? || x.Aging? || x.Retiring?)
    && if WantedIsFree(s) then
         && step.ByLocks? && step.lock.Expire?
         && (x.Scanning? ==> if x.rest == [] then step.lock.expiry.ScanEnd? else step.lock.expiry.ScanNext?)
         && (x.Aging? ==> step.lock.expiry.Age?)
         && (x.Retiring? ==> step.lock.expiry.Remove?)
       else ClearsMutex(s, WantedBy(x).value, step)
  }

  /** With this step the holder of the bus lock, the expiration loop, goes on. */
  predicate ClearsBus(s: State, step: Step) {
    !BusFree(s) && ExpiryActs(s, step)
  }

  /** With this step the holder of the lifecycle lock of `id` goes on, or what it waits for does. */
  predicate ClearsLifecycle(s: State, id: nat, step: Step) {
    && id in s.locks.lifecycle
    && match s.locks.lifecycle[id]
       case Running => if BusFree(s) then step == ByLocks(LeaveLifecycle(id, true)) else ClearsBus(s, step)
       case AtMutex(g) => if MutexFree(s, g) then step == ByLocks(HaveMutex(id)) else ClearsMutex(s, g, step)
       case AtQueue(p) => step == ByPublisher(p, GiveUp)
       case AtExpiry => ExpiryActs(s, step)
  }

  /**
    The removal of `g` ends, or what it waits for goes on: the lifecycle lock of
    its ID, the bus lock, the mutex of `g`.
  */
  predicate ServesRemoval(s: State, g: nat, step: Step) {
    && g < |s.locks.ids|
    && if s.locks.ids[g] in s.locks.lifecycle then ClearsLifecycle(s, s.locks.ids[g], step)
       else if !BusFree(s) then ClearsBus(s, step)
       else if !MutexFree(s, g) then ClearsMutex(s, g, step)
       else step == ByLocks(RemovalEnds(g, true))
  }

  /** The expiration loop goes on, or what it waits for does: a mutex, or the next lifecycle lock. */
  predicate ServesExpiry(s: State, step: Step) {
    var x := s.locks.expiry;
    if !x.Wanting? then ExpiryActs(s, step)
    else if x.ids != [] && x.ids[0] in s.locks.lifecycle then ClearsLifecycle(s, x.ids[0], step)
    else step.ByLocks? && step.lock.Expire? && (step.lock.expiry.Sleep? || step.lock.expiry.Enter? || step.lock.expiry.FindNone?)
  }

  /** What holds worker `w` up goes on: the mutex or the bus lock it waits for. */
  predicate ServesWorker(s: State, w: nat, step: Step) {
    && w < |s.workers| && s.workers[w].Busy?
    && var Busy(phase, e, _) := s.workers[w];
       || (phase.Ready? && ClearsMutex(s, e.client, step))
       || (AsksBus(phase) && ClearsBus(s, step))
  }

  /** Workers and scheduler have ended, and the flush waits for the other goroutines. */
  predicate OnlyFlushLeft(s: State) {
    s.stopped && s.scheduler.Ended? && s.flush.NotStarted? && forall w :: 0 <= w < |s.workers| ==> s.workers[w].Exited?
  }

  /**
    The step is one of the engine, or one with which something goes on that
    somebody in the engine is waiting for: a worker, the scheduler, a removal, or
    the flush, which waits for heartbeats and the expiration loop.
  */
  ghost predicate Serves(s: State, step: Step) {
    || EngineStep(step)
    || (exists w: nat :: ServesWorker(s, w, step))
    || (s.scheduler.Judging? && ClearsBus(s, step))
    || (exists g :: g in s.locks.removing && ServesRemoval(s, g, step))
    || (OnlyFlushLeft(s) && ServesExpiry(s, step))
    || (OnlyFlushLeft(s) && exists g :: g in s.locks.heartbeats && step == ByLocks(HeartbeatEnd(g)))
  }

  /** Nobody outside the engine holds a lock it may wait for. */
  predicate NobodyHolds(l: Locks) {
    l.heartbeats == {} && l.expiry.Asleep? && l.lifecycle == map[]
  }

  /**
    Until shutdown is complete something is always possible that it needs: a step
    of a worker, the scheduler, the flush or a removal, or a step of whoever
    holds what one of these is waiting for. When nobody outside the engine holds
    a lock, it is a step of the engine.
  */
  lemma ShutdownMoves(run: seq<State>, n: nat, current: bool) returns (s': State, later: int, step: Step)
    requires IsRun(run) && n < |run| && run[n].stopped && !run[n].flush.Flushed?
    ensures Possible(run[n], s', later, step) && Serves(run[n], step)
    ensures NobodyHolds(run[n].locks) ==> EngineStep(step)
  {
    RunInv(run, n);
    var s := run[n];
    if !s.scheduler.Ended? {
      s', later, step := SchedulerMoves(s, current);
    } else if w :| 0 <= w < |s.workers| && !s.workers[w].Exited? {
      var mover := NoStall(run, n, w, current);
      s', later, step := WorkerMoves(s, mover, current);
    } else if s.flush.NotStarted? {
      s', later, step := FlushStarts(s);
    } else {
      if FlushIn(s, Waiting) {
        FlushNeverWaits(run, n);
      }
      s', later, step := FlushMoves(s, current);
    }
  }

  lemma WorkerMoves(s: State, w: nat, current: bool) returns (s': State, later: int, step: Step)
    requires LocksInv(s) && (CanMove(s, w, current) || HeldUp(s, w)) && (NobodyElse(s) ==> CanMove(s, w, current))
    ensures Possible(s, s', later, step) && Serves(s, step)
    ensures NobodyHolds(s.locks) ==> EngineStep(step)
  {
    if CanMove(s, w, current) {
      s', later, step := MoverMoves(s, w, current);
    } else {
      s', later, step := HolderMoves(s, w);
      assert ServesWorker(s, w, step);
    }
  }

  lemma MoverMoves(s: State, w: nat, current: bool) returns (s': State, later: int, step: Step)
    requires CanMove(s, w, current)
    ensures Possible(s, s', later, step) && EngineStep(step)
  {
    var t, s1, action :| s.now <= t && Answers(action, current) && WorkerNext(s.(now := t), s1, w, action);
    s', later, step := s1, t, ByWorker(w, action);
  }

  lemma HolderMoves(s: State, w: nat) returns (s': State, later: int, step: Step)
    requires LocksInv(s) && HeldUp(s, w)
    ensures Possible(s, s', later, step) && ServesWorker(s, w, step)
  {
    if s.workers[w].phase.Ready? {
      s', later, step := MutexHolderComesOut(s, s.workers[w].event.client);
    } else {
      s', later, step := ExpiryGoesOn(s);
    }
  }

  lemma LockMoves(s: State, l': Locks, action: LockAction) returns (s': State, later: int, step: Step)
    requires LockStep(s, l', action)
    ensures Possible(s, s', later, step) && step == ByLocks(action)
  {
    s', later, step := s.(locks := l'), s.now, ByLocks(action);
    assert s.(now := later) == s;
  }

  /** Whoever is inside a call on the connection of a generation comes out of it. */
  lemma MutexHolderComesOut(s: State, client: nat) returns (s': State, later: int, step: Step)
    requires !MutexFree(s, client)
    ensures Possible(s, s', later, step) && ClearsMutex(s, client, step)
  {
    if client in s.locks.heartbeats {
      s', later, step := LockMoves(s, s.locks.(heartbeats := s.locks.heartbeats - {client}), HeartbeatEnd(client));
    } else if FlushIn(s, Sending) && s.flush.event.client == client {
      s', later, step := FlushReturns(s);
    } else {
      var w :| 0 <= w < |s.workers| && Sends(s.workers[w], client);
      s', later, step := SendReturns(s, w);
    }
  }

  lemma SendReturns(s: State, w: nat) returns (s': State, later: int, step: Step)
    requires WorkerIn(s, w, Sending)
    ensures Possible(s, s', later, step) && step == ByWorker(w, EndSend(Failed))
  {
    later, step := s.now, ByWorker(w, EndSend(Failed));
    s' := MoveOn(AfterSend(s, s.workers[w].event.client, Failed), w, Returned(true));
    assert EndSendStep(s, s', w, Failed);
    assert WorkerNext(s, s', w, EndSend(Failed));
  }

  lemma FlushReturns(s: State) returns (s': State, later: int, step: Step)
    requires FlushIn(s, Sending)
    ensures Possible(s, s', later, step) && step == ByFlush(FlushReturn(Failed))
  {
    later := s.now;
    s' := AfterSend(s, s.flush.event.client, Failed).(flush := s.flush.(phase := Leaving(false)));
    step := ByFlush(FlushReturn(Failed));
    assert FlushReturnStep(s, s', Failed);
  }

  /** The expiration loop gets the mutex it wants, or whoever has that mutex comes out of its call. */
  lemma ExpiryGoesOn(s: State) returns (s': State, later: int, step: Step)
    requires LocksInv(s) && (s.locks.expiry.Scanning? || s.locks.expiry.Aging? || s.locks.expiry.Retiring?)
    ensures Possible(s, s', later, step) && ExpiryActs(s, step)
  {
    var l, x := s.locks, s.locks.expiry;
    if !WantedIsFree(s) {
      s', later, step := MutexHolderComesOut(s, WantedBy(x).value);
    } else {
      match x
      case Scanning(rest, writer) =>
        if rest == [] {
          s', later, step := LockMoves(s, l.(expiry := Wanting([])), Expire(ScanEnd([])));
        } else {
          s', later, step := LockMoves(s, l.(expiry := Scanning(rest[1..], writer)), Expire(ScanNext));
        }
      case Aging(ids, _) => s', later, step := LockMoves(s, NextToExpire(l, ids), Expire(Age(false)));
      case Retiring(ids, _) => s', later, step := LockMoves(s, NextToExpire(l, ids), Expire(Remove));
    }
  }

  lemma SchedulerMoves(s: State, current: bool) returns (s': State, later: int, step: Step)
    requires s.stopped && ClosingInv(s) && LocksInv(s) && !s.scheduler.Ended?
    ensures Possible(s, s', later, step) && Serves(s, step)
    ensures NobodyHolds(s.locks) ==> EngineStep(step)
  {
    later := s.now;
    if !s.scheduler.Judging? {
      s', step := s.(scheduler := Ended), ByScheduler(End);
    } else if BusFree(s) {
      s' := s.(scheduler := if current then Pushing(s.scheduler.event) else Resting);
      step := ByScheduler(JudgeDue(current));
    } else {
      s', later, step := ExpiryGoesOn(s);
    }
  }

  /** Before the flush can start, removals, heartbeats and the expiration loop have to end. */
  lemma FlushStarts(s: State) returns (s': State, later: int, step: Step)
    requires LocksInv(s) && OnlyFlushLeft(s)
    ensures Possible(s, s', later, step) && Serves(s, step)
    ensures NobodyHolds(s.locks) ==> EngineStep(step)
  {
    if g :| g in s.locks.removing {
      s', later, step := RemovalGoesOn(s, g);
    } else if g :| g in s.locks.heartbeats {
      s', later, step := LockMoves(s, s.locks.(heartbeats := s.locks.heartbeats - {g}), HeartbeatEnd(g));
    } else if !s.locks.expiry.Asleep? {
      s', later, step := ExpirationGoesOn(s);
    } else {
      later := s.now;
      s', step := s.(flush := Cleared, retries := s.retries.(items := multiset{})), ByFlush(Start);
      assert FlushStartStep(s, s');
    }
  }

  lemma ExpirationGoesOn(s: State) returns (s': State, later: int, step: Step)
    requires LocksInv(s) && !s.locks.expiry.Asleep?
    ensures Possible(s, s', later, step) && ServesExpiry(s, step)
  {
    var l, x := s.locks, s.locks.expiry;
    if !x.Wanting? {
      s', later, step := ExpiryGoesOn(s);
    } else if x.ids == [] {
      s', later, step := LockMoves(s, l.(expiry := Asleep), Expire(Sleep));
    } else if x.ids[0] in l.lifecycle {
      s', later, step := LifecycleHolderGoesOn(s, x.ids[0]);
    } else {
      s', later, step := LockMoves(s, l.(expiry := Wanting(x.ids[1..])), Expire(FindNone));
    }
  }

  /** A removal waits for the lifecycle lock of its ID; whoever holds that lock, and waits, can go on. */
  lemma RemovalGoesOn(s: State, g: nat) returns (s': State, later: int, step: Step)
    requires LocksInv(s) && g in s.locks.removing
    ensures Possible(s, s', later, step) && ServesRemoval(s, g, step)
    ensures NobodyHolds(s.locks) ==> EngineStep(step)
  {
    var l := s.locks;
    if l.ids[g] in l.lifecycle {
      s', later, step := LifecycleHolderGoesOn(s, l.ids[g]);
    } else if !BusFree(s) {
      s', later, step := ExpiryGoesOn(s);
    } else if !MutexFree(s, g) {
      s', later, step := MutexHolderComesOut(s, g);
    } else {
      s', later, step := LockMoves(s, l.(removing := l.removing - {g}), RemovalEnds(g, true));
    }
  }

  lemma LifecycleHolderGoesOn(s: State, id: nat) returns (s': State, later: int, step: Step)
    requires LocksInv(s) && id in s.locks.lifecycle
    ensures Possible(s, s', later, step) && ClearsLifecycle(s, id, step)
  {
    var l := s.locks;
    match l.lifecycle[id]
    case Running =>
      if BusFree(s) {
        s', later, step := LockMoves(s, l.(lifecycle := l.lifecycle - {id}), LeaveLifecycle(id, true));
      } else {
        s', later, step := ExpiryGoesOn(s);
      }
    case AtMutex(h) =>
      if MutexFree(s, h) {
        s', later, step := LockMoves(s, l.(lifecycle := l.lifecycle[id := Running]), HaveMutex(id));
      } else {
        s', later, step := MutexHolderComesOut(s, h);
      }
    case AtQueue(p) =>
      later, step := s.now, ByPublisher(p, GiveUp);
      s' := s.(publishers := s.publishers - {p}, locks := Resume(l, s.publishers[p].client));
      assert PublisherGivesUpStep(s, s', p);
    case AtExpiry => s', later, step := ExpiryGoesOn(s);
  }

  lemma FlushMoves(s: State, current: bool) returns (s': State, later: int, step: Step)
    requires HeldInv(s) && ClosingInv(s) && !s.flush.NotStarted? && !s.flush.Flushed?
    requires FlushIn(s, Waiting) ==> s.flush.event.sendOrder <= s.line.books[s.flush.event.client].nextTurn
    ensures Possible(s, s', later, step) && EngineStep(step)
  {
    later := s.now;
    match s.flush
    case Cleared => s', step := s.(flush := Draining), ByFlush(Drain);
    case Draining => s', later, step := FlushTakes(s);
    case Flushing(phase, e, ticket) =>
      match phase {
        case Waiting => s', later, step := FlushTurns(s);
        case Checking => s', later, step := FlushChecks(s, current);
        case Ready => s', later, step := FlushBegins(s);
        case Sending => s', later, step := FlushReturns(s);
        case Leaving(_) =>
          s', step := FinishTicket(s, e, ticket).(flush := Draining), ByFlush(FlushLeave);
          assert FlushLeaveStep(s, s');
      }
  }

  lemma FlushTakes(s: State) returns (s': State, later: int, step: Step)
    requires s.flush.Draining?
    ensures Possible(s, s', later, step) && EngineStep(step)
  {
    later := s.now;
    if s.line.items == [] {
      s', step := s.(flush := Flushed), ByFlush(Complete);
      assert FlushEndStep(s, s');
    } else {
      var e := s.line.items[0];
      s' := s.(flush := Flushing(Waiting, e, Wanted), line := s.line.(items := s.line.items[1..]),
                              place := s.place[e.id := AtFlush]);
      step := ByFlush(Take);
      assert FlushTakeStep(s, s');
    }
  }

  lemma FlushTurns(s: State) returns (s': State, later: int, step: Step)
    requires FlushIn(s, Waiting) && s.flush.event.client < |s.line.books|
    requires s.flush.event.sendOrder <= s.line.books[s.flush.event.client].nextTurn
    ensures Possible(s, s', later, step) && EngineStep(step)
  {
    var e := s.flush.event;
    later, step := s.now, ByFlush(FlushTurn);
    s' := s.(flush := if e.sendOrder == s.line.books[e.client].nextTurn then Flushing(Checking, e, Granted) else Draining);
    assert FlushTurnStep(s, s');
  }

  /** The flush never waits for the bus lock: the expiration loop is over. */
  lemma FlushChecks(s: State, current: bool) returns (s': State, later: int, step: Step)
    requires ClosingInv(s) && FlushIn(s, Checking)
    ensures Possible(s, s', later, step) && EngineStep(step)
  {
    later, step := s.now, ByFlush(FlushCheck(current));
    s' := s.(flush := s.flush.(phase := if current && s.flush.event.attempts < s.cfg.attempts then Ready else Leaving(false)));
    assert FlushCheckStep(s, s', current);
  }

  /** The flush never waits for a mutex: heartbeats and workers are over. */
  lemma FlushBegins(s: State) returns (s': State, later: int, step: Step)
    requires ClosingInv(s) && FlushIn(s, Ready)
    ensures Possible(s, s', later, step) && EngineStep(step)
  {
    later, step := s.now, ByFlush(FlushBegin);
    var e := s.flush.event;
    var e' := e.(attempts := e.attempts + 1);
    s' := if e.client in s.inactive then s.(flush := s.flush.(phase := Leaving(false)))
          else Record(s, e', Used).(flush := Flushing(Sending, e', Used));
    assert MutexFree(s, e.client);
    assert FlushBeginStep(s, s');
  }

  // ---------------------------------------------------- nothing enters any more

  /** From `s` to `s'` nothing was pushed and nothing scheduled. */
  ghost predicate TakesNothing(s: State, s': State) {
    && s'.sendClosed && s'.retries.closed && s'.retries.items <= s.retries.items
    && |s.pushed| <= |s'.pushed|
    && (forall g :: 0 <= g < |s.pushed| ==> s'.pushed[g] == s.pushed[g])
    && (forall g :: |s.pushed| <= g < |s'.pushed| ==> s'.pushed[g] == [])
  }

  lemma ClosedWorkerStep(s: State, s': State, w: nat, action: WorkerAction)
    requires s.retries.closed && WorkerNext(s, s', w, action)
    ensures s'.retries == s.retries && s'.pushed == s.pushed
  {}

  lemma ClosedFlushStep(s: State, s': State, action: FlushAction)
    requires s.sendClosed && s.retries.closed && FlushNext(s, s', action)
    ensures TakesNothing(s, s')
  {
    match action
    case Start => assert FlushStartStep(s, s');
    case FlushBegin => assert FlushBeginStep(s, s');
    case FlushLeave => assert FlushLeaveStep(s, s');
    case _ =>
  }

  lemma ClosedOtherStep(s: State, s': State, action: OtherAction)
    requires s.sendClosed && s.retries.closed && OtherNext(s, s', action)
    ensures TakesNothing(s, s')
  {
    match action
    case OpenClient(complete, id) => assert OpenClientStep(s, s', complete, id);
    case RemoveRetries(client, replayableOnly) => assert RemoveRetriesStep(s, s', client, replayableOnly);
    case _ =>
  }

  lemma ClosedStep(s: State, s': State, step: Step)
    requires s.sendClosed && s.retries.closed && Next(s, s', step)
    ensures TakesNothing(s, s')
  {
    match step
    case ByWorker(w, action) => ClosedWorkerStep(s, s', w, action);
    case ByScheduler(_) =>
    case ByPublisher(_, _) =>
    case ByFlush(action) => ClosedFlushStep(s, s', action);
    case ByOthers(action) => ClosedOtherStep(s, s', action);
    case ByLocks(_) =>
  }

  /** Once both queues are closed, no push and no schedule ever succeeds. */
  lemma {:induction false} ClosedTakesNothing(run: seq<State>, n: nat, m: nat)
    requires IsRun(run) && n <= m < |run| && run[n].sendClosed && run[n].retries.closed
    ensures TakesNothing(run[n], run[m])
  {
    if n < m {
      var before := m - 1;
      ClosedTakesNothing(run, n, before);
      assert run[before + 1] == run[m] && StepAt(run, before);
      ClosedFollows(run[before], run[m]);
      TakesNothingTwice(run[n], run[before], run[m]);
    }
  }

  lemma ClosedFollows(s: State, s': State)
    requires s.sendClosed && s.retries.closed && Follows(s, s')
    ensures TakesNothing(s, s')
  {
    var step :| Next(s, s', step);
    ClosedStep(s, s', step);
  }

  lemma TakesNothingTwice(a: State, b: State, c: State)
    requires TakesNothing(a, b) && TakesNothing(b, c)
    ensures TakesNothing(a, c)
  {}
}
