/**
  Which workers can go on, and that some always can, or is held up by a call or
  a lock holder that can itself go on.
*/
module DeliveryProgress {
  import opened Options
  import opened Line
  import opened Retries
  import opened Tickets
  import opened Delivery
  import opened DeliveryOrder
  import opened DeliveryOwnership
  import opened DeliveryTheorems
  import opened DeliveryRuns
  import Turn = TurnOrder

  /** The step fits what `isCurrentEvent` returns, if it asks. */
  predicate Answers(action: WorkerAction, current: bool) {
    match action
    case Check(c) => c == current
    case Judge(c) => c == current
    case HoldDrop(c) => c == current
    case _ => true
  }

  /**
    Worker `w` has a step that waits for no turn, no lock and no queue capacity:
    at most for the clock to reach a due time, or for its own call of
    `Connection.Send` to return.
  */
  ghost predicate CanMove(s: State, w: nat, current: bool) {
    exists later, s', action ::
      s.now <= later && Answers(action, current) && WorkerNext(s.(now := later), s', w, action)
  }

  /** A worker with something to do: it holds an event, or there is one to pop, or it should exit. */
  predicate HasWork(s: State, w: nat) {
    w < |s.workers| && (s.workers[w].Busy? || (s.workers[w].Idle? && (s.sendClosed || s.line.items != [])))
  }

  /** `isCurrentEvent` is about to be called, which takes the bus lock. */
  predicate AsksBus(phase: Phase) {
    phase.Checking? || phase == Returned(true) || phase.Holding?
  }

  // --------------------------------------------------------- who can go on

  /** It is not yet the turn of the event the worker has popped. */
  predicate TurnIsAhead(s: State, e: ClientEvent) {
    e.client < |s.line.books| && s.line.books[e.client].nextTurn < e.sendOrder
  }

  /** The worker waits: for its turn, for the mutex of its event's client, or for the bus lock. */
  predicate Waits(s: State, w: nat) {
    && w < |s.workers| && s.workers[w].Busy?
    && var Busy(phase, e, _) := s.workers[w];
       || (phase.Waiting? && TurnIsAhead(s, e))
       || (phase.Ready? && !MutexFree(s, e.client))
       || (AsksBus(phase) && !BusFree(s))
  }

  /** A worker can go on exactly if it has something to do and waits for none of the three. */
  lemma WorkerMovesExactly(run: seq<State>, n: nat, w: nat, current: bool)
    requires IsRun(run) && n < |run|
    ensures CanMove(run[n], w, current) <==> HasWork(run[n], w) && !Waits(run[n], w)
  {
    RunInv(run, n);
    MovesExactly(run[n], w, current);
  }

  lemma MovesExactly(s: State, w: nat, current: bool)
    requires HeldInv(s)
    ensures CanMove(s, w, current) <==> HasWork(s, w) && !Waits(s, w)
  {
    if CanMove(s, w, current) {
      var later, s', action :| s.now <= later && Answers(action, current) && WorkerNext(s.(now := later), s', w, action);
      MoverWaitsForNothing(s, later, s', w, action);
    } else if HasWork(s, w) && !Waits(s, w) {
      FreeMoves(s, w, current);
    }
  }

  lemma MoverWaitsForNothing(s: State, later: int, s': State, w: nat, action: WorkerAction)
    requires WorkerNext(s.(now := later), s', w, action)
    ensures HasWork(s, w) && !Waits(s, w)
  {
    var t := s.(now := later);
    assert forall g :: MutexFree(t, g) <==> MutexFree(s, g);
    assert BusFree(t) <==> BusFree(s);
    match action
    case Check(current) => assert CheckStep(t, s', w, current);
    case BeginSend => assert BeginSendStep(t, s', w);
    case Judge(current) => assert JudgeStep(t, s', w, current);
    case TurnComes => assert TurnComesStep(t, s', w);
    case HoldDue => assert HoldDueStep(t, s', w);
    case HoldDrop(current) => assert HoldDropStep(t, s', w, current);
    case _ =>
  }

  lemma FreeMoves(s: State, w: nat, current: bool)
    requires HeldInv(s) && HasWork(s, w) && !Waits(s, w)
    ensures CanMove(s, w, current)
  {
    if s.workers[w].Idle? {
      IdleMoves(s, w, current);
    } else if s.workers[w].phase.Waiting? {
      assert HeldAt(LedgerOf(s), s.workers[w].event, AtWorker(w));
      TurnMoves(s, w, current);
    } else {
      BusyMoves(s, w, current);
    }
  }

  // ------------------------------------------------------------- some worker

  /** The expiration loop, which holds the bus lock, can go on, or wants a mutex that a heartbeat holds. */
  predicate BusHolderIsNext(s: State) {
    var g := WantedBy(s.locks.expiry);
    !BusFree(s) && (g.None? || MutexFree(s, g.value) || g.value in s.locks.heartbeats)
  }

  /**
    Worker `w` is held up from outside: by a heartbeat being sent through its own
    event's generation, or by the holder of the bus lock it needs, which can go
    on or is itself held up by a heartbeat.
  */
  predicate HeldUp(s: State, w: nat) {
    && w < |s.workers| && s.workers[w].Busy?
    && var Busy(phase, e, _) := s.workers[w];
       || (phase.Ready? && e.client in s.locks.heartbeats)
       || (AsksBus(phase) && BusHolderIsNext(s))
  }

  /** No heartbeat is being sent, and the bus lock is free. */
  predicate NobodyElse(s: State) {
    s.locks.heartbeats == {} && BusFree(s)
  }

  /**
    No deadlock: as long as any worker has something to do, some worker can go
    on, or is held up from outside by a heartbeat or by the expiration loop that
    can go on. Without those it is always a worker. Both queues may be full, and
    publishers, the scheduler and removals may be blocked.
  */
  lemma NoStall(run: seq<State>, n: nat, w: nat, current: bool) returns (mover: nat)
    requires IsRun(run) && n < |run| && HasWork(run[n], w)
    ensures CanMove(run[n], mover, current) || HeldUp(run[n], mover)
    ensures NobodyElse(run[n]) ==> CanMove(run[n], mover, current)
  {
    RunInv(run, n);
    mover := SomeWorkerMoves(run[n], w, current);
  }

  /** In particular a non-empty open send queue is never stuck. */
  lemma QueueNeverStuck(run: seq<State>, n: nat, current: bool) returns (mover: nat)
    requires IsRun(run) && n < |run| && !run[n].sendClosed && run[n].line.items != []
    ensures CanMove(run[n], mover, current) || HeldUp(run[n], mover)
    ensures NobodyElse(run[n]) ==> CanMove(run[n], mover, current)
  {
    RunInv(run, n);
    assert !run[n].workers[0].Exited?;
    mover := SomeWorkerMoves(run[n], 0, current);
  }

  lemma SomeWorkerMoves(s: State, w: nat, current: bool) returns (mover: nat)
    requires Inv(s) && HasWork(s, w)
    ensures CanMove(s, mover, current) || HeldUp(s, mover)
    ensures NobodyElse(s) ==> CanMove(s, mover, current)
  {
    assert s.flush.NotStarted?;
    mover := w;
    if s.workers[w].Idle? {
      IdleMoves(s, w, current);
    } else {
      if s.workers[w].phase.Waiting? {
        mover := FrontWorker(s, w);
      }
      if s.workers[mover].phase.Waiting? {
        TurnMoves(s, mover, current);
      } else {
        mover := BusyMovesOrIsHeldUp(s, mover, current);
      }
    }
  }

  lemma BusyMovesOrIsHeldUp(s: State, w: nat, current: bool) returns (mover: nat)
    requires HeldInv(s) && s.flush.NotStarted?
    requires w < |s.workers| && s.workers[w].Busy? && !s.workers[w].phase.Waiting?
    ensures CanMove(s, mover, current) || HeldUp(s, mover)
    ensures NobodyElse(s) ==> CanMove(s, mover, current)
  {
    mover := w;
    var client := s.workers[w].event.client;
    if AsksBus(s.workers[w].phase) && !BusFree(s) {
      if !BusHolderIsNext(s) {
        mover := MutexHolderMoves(s, WantedBy(s.locks.expiry).value, current);
      }
    } else if s.workers[w].phase.Ready? && !MutexFree(s, client) {
      if client !in s.locks.heartbeats {
        mover := MutexHolderMoves(s, client, current);
      }
    } else {
      BusyMoves(s, w, current);
    }
  }

  /** A mutex that no heartbeat holds is held by a worker inside `Connection.Send`, which needs nothing to come out. */
  lemma MutexHolderMoves(s: State, client: nat, current: bool) returns (mover: nat)
    requires s.flush.NotStarted? && !MutexFree(s, client) && client !in s.locks.heartbeats
    ensures mover < |s.workers| && Sends(s.workers[mover], client) && CanMove(s, mover, current)
  {
    mover :| 0 <= mover < |s.workers| && Sends(s.workers[mover], client);
    SendingMoves(s, mover, current);
  }

  // --------------------------------------------- exactly when some worker can

  /** The worker cannot go on, and not because of another worker's send either. */
  predicate Stands(s: State, w: nat) {
    && w < |s.workers| && s.workers[w].Busy?
    && var Busy(phase, e, _) := s.workers[w];
       || (phase.Waiting? && TurnIsAhead(s, e))
       || (phase.Ready? && e.client in s.locks.heartbeats)
       || (AsksBus(phase) && !BusFree(s))
  }

  ghost predicate SomeoneCanMove(s: State, current: bool) {
    exists w: nat :: CanMove(s, w, current)
  }

  ghost predicate SomeoneIsFree(s: State) {
    exists w: nat :: HasWork(s, w) && !Stands(s, w)
  }

  /**
    Some worker can go on exactly if some worker with something to do does not
    wait for its turn, a heartbeat or the bus lock.
  */
  lemma SomeWorkerMovesExactly(run: seq<State>, n: nat, current: bool)
    requires IsRun(run) && n < |run|
    ensures SomeoneCanMove(run[n], current) <==> SomeoneIsFree(run[n])
  {
    RunInv(run, n);
    var s := run[n];
    if SomeoneCanMove(s, current) {
      var w: nat :| CanMove(s, w, current);
      MovesExactly(s, w, current);
      assert HasWork(s, w) && !Stands(s, w);
    }
    if SomeoneIsFree(s) {
      var w: nat :| HasWork(s, w) && !Stands(s, w);
      FreeOrSendHolds(s, w, current);
    }
  }

  lemma FreeOrSendHolds(s: State, w: nat, current: bool)
    requires Inv(s) && HasWork(s, w) && !Stands(s, w)
    ensures SomeoneCanMove(s, current)
  {
    if Waits(s, w) {
      assert s.flush.NotStarted?;
      var mover := MutexHolderMoves(s, s.workers[w].event.client, current);
    } else {
      FreeMoves(s, w, current);
    }
  }

  // ------------------------------------------------------------- the moves

  /** The worker that holds the ticket whose turn it is, for the client worker `w` waits on. */
  lemma FrontWorker(s: State, w: nat) returns (front: nat)
    requires Inv(s) && WorkerIn(s, w, Waiting)
    ensures front < |s.workers| && s.workers[front].Busy? && !s.workers[front].ticket.NoTicket?
    ensures s.workers[front].event.client < |s.line.books|
    ensures s.workers[front].event.sendOrder == s.line.books[s.workers[front].event.client].nextTurn
  {
    var t := Abs(s);
    assert HandOf(s.workers[w]).Some? && Turn.Holder.Worker(w) in t.hands;
    var h := Turn.SomebodyHasTheTurn(t, Turn.Holder.Worker(w));
    assert s.flush.NotStarted?;
    front := h.index;
  }

  lemma TurnMoves(s: State, w: nat, current: bool)
    requires WorkerIn(s, w, Waiting) && s.workers[w].event.client < |s.line.books|
    requires s.workers[w].event.sendOrder <= s.line.books[s.workers[w].event.client].nextTurn
    ensures CanMove(s, w, current)
  {
    var e := s.workers[w].event;
    var later := s.(now := s.now);
    var x := if e.sendOrder == s.line.books[e.client].nextTurn then Busy(Checking, e, Granted) else Idle;
    assert TurnComesStep(later, SetWorker(later, w, x), w);
    assert WorkerNext(later, SetWorker(later, w, x), w, TurnComes);
  }

  lemma IdleMoves(s: State, w: nat, current: bool)
    requires w < |s.workers| && s.workers[w].Idle? && (s.sendClosed || s.line.items != [])
    ensures CanMove(s, w, current)
  {
    var later := s.(now := s.now);
    if s.sendClosed {
      assert WorkerNext(later, SetWorker(later, w, Exited), w, Exit);
    } else {
      var e := s.line.items[0];
      assert WorkerNext(later, SetWorker(later, w, Busy(Waiting, e, Wanted))
                               .(line := s.line.(items := s.line.items[1..]),
                                                 place := s.place[e.id := AtWorker(w)]), w, Pop);
    }
  }

  lemma BusyMoves(s: State, w: nat, current: bool)
    requires HeldInv(s) && w < |s.workers| && s.workers[w].Busy? && !s.workers[w].phase.Waiting?
    requires AsksBus(s.workers[w].phase) ==> BusFree(s)
    requires s.workers[w].phase.Ready? ==> MutexFree(s, s.workers[w].event.client)
    ensures CanMove(s, w, current)
  {
    assert HeldAt(LedgerOf(s), s.workers[w].event, AtWorker(w));
    match s.workers[w].phase
    case Checking => CheckingMoves(s, w, current);
    case Ready => ReadyMoves(s, w, current);
    case Sending => SendingMoves(s, w, current);
    case Returned(_) => ReturnedMoves(s, w, current);
    case Leaving(_) => LeavingMoves(s, w, current);
    case Delaying => DelayingMoves(s, w, current);
    case Scheduling => SchedulingMoves(s, w, current);
    case Holding => HoldingMoves(s, w, current);
  }

  lemma CheckingMoves(s: State, w: nat, current: bool)
    requires WorkerIn(s, w, Checking) && BusFree(s)
    ensures CanMove(s, w, current)
  {
    var e := s.workers[w].event;
    var later := s.(now := s.now);
    var s' := if !current || e.client in s.inactive then MoveOn(later, w, Leaving(false))
              else if e.attempts < s.cfg.attempts then MoveOn(later, w, Ready)
              else MoveOn(Exhaust(later, e.client), w, Leaving(false));
    assert CheckStep(later, s', w, current);
    assert WorkerNext(later, s', w, Check(current));
  }

  lemma ReturnedMoves(s: State, w: nat, current: bool)
    requires w < |s.workers| && s.workers[w].Busy? && s.workers[w].phase.Returned? && (s.workers[w].phase.failed ==> BusFree(s))
    ensures CanMove(s, w, current)
  {
    var e := s.workers[w].event;
    var later := s.(now := s.now);
    var s' := if !s.workers[w].phase.failed || !current || e.client in s.inactive then MoveOn(later, w, Leaving(false))
              else if e.attempts < s.cfg.attempts then MoveOn(later, w, Leaving(true))
              else MoveOn(Exhaust(later, e.client), w, Leaving(false));
    assert JudgeStep(later, s', w, current);
    assert WorkerNext(later, s', w, Judge(current));
  }

  /** A call on the connection returns, in whatever way. */
  lemma SendingMoves(s: State, w: nat, current: bool)
    requires WorkerIn(s, w, Sending)
    ensures CanMove(s, w, current)
  {
    var later := s.(now := s.now);
    assert WorkerNext(later, MoveOn(AfterSend(later, s.workers[w].event.client, Failed), w, Returned(true)), w, EndSend(Failed));
  }

  lemma ReadyMoves(s: State, w: nat, current: bool)
    requires WorkerIn(s, w, Ready) && MutexFree(s, s.workers[w].event.client)
    ensures CanMove(s, w, current)
  {
    var Busy(_, e, ticket) := s.workers[w];
    var later := s.(now := s.now);
    if e.client in s.inactive {
      assert WorkerNext(later, MoveOn(later, w, Leaving(false)), w, BeginSend);
    } else {
      var e' := e.(attempts := e.attempts + 1);
      var sending := Busy(Sending, e', if ticket.NoTicket? then NoTicket else Used);
      assert WorkerNext(later, SetWorker(Record(later, e', ticket), w, sending), w, BeginSend);
    }
  }

  lemma LeavingMoves(s: State, w: nat, current: bool)
    requires w < |s.workers| && s.workers[w].Busy? && s.workers[w].phase.Leaving?
    requires s.workers[w].event.client < |s.line.books|
    ensures CanMove(s, w, current)
  {
    var Busy(phase, e, ticket) := s.workers[w];
    var later := s.(now := s.now);
    var next := if phase.retry then Busy(Delaying, e, NoTicket) else Idle;
    assert WorkerNext(later, SetWorker(FinishTicket(later, e, ticket), w, next), w, Leave);
  }

  /** A worker may have to wait for the due time of the retry it holds. */
  lemma HoldingMoves(s: State, w: nat, current: bool)
    requires WorkerIn(s, w, Holding) && BusFree(s)
    ensures CanMove(s, w, current)
  {
    if current {
      var due := s.workers[w].event.retryAfter;
      var later := s.(now := if due <= s.now then s.now else due);
      assert WorkerNext(later, MoveOn(later, w, Checking), w, HoldDue);
    } else {
      var later := s.(now := s.now);
      assert WorkerNext(later, SetWorker(later, w, Idle), w, HoldDrop(false));
    }
  }

  lemma DelayingMoves(s: State, w: nat, current: bool)
    requires WorkerIn(s, w, Delaying)
    ensures CanMove(s, w, current)
  {
    var later := s.(now := s.now);
    var s' := SetWorker(later, w, Busy(Scheduling, WithDueTime(s.cfg, s.workers[w].event, s.now), NoTicket));
    assert WorkerNext(later, s', w, SetDelay);
  }

  /** Scheduling a retry never waits, however full the retry queue is. */
  lemma SchedulingMoves(s: State, w: nat, current: bool)
    requires WorkerIn(s, w, Scheduling)
    ensures CanMove(s, w, current)
  {
    var later := s.(now := s.now);
    if s.retries.closed {
      assert WorkerNext(later, SetWorker(later, w, Exited), w, Schedule(None));
    } else {
      var e := s.workers[w].event;
      var q', back := ScheduleSucceeds(s.retries, e);
      ScheduledMoves(s, w, q', back, current);
    }
  }

  lemma ScheduledMoves(s: State, w: nat, q': Retries, back: Option<ClientEvent>, current: bool)
    requires WorkerIn(s, w, Scheduling) && !s.retries.closed
    requires var e := s.workers[w].event;
             Scheduled(s.retries, e, q', back)
    ensures CanMove(s, w, current)
  {
    var e := s.workers[w].event;
    var later := s.(now := s.now);
    var s' := SetWorker(later, w, if back.Some? then Busy(Holding, back.value, NoTicket) else Idle)
              .(retries := q',
                place := if back.Some? then s.place[e.id := InHeap][back.value.id := AtWorker(w)] else s.place[e.id := InHeap]);
    assert ScheduleStep(later, s', w, back);
    assert WorkerNext(later, s', w, Schedule(back));
  }

  lemma ScheduleSucceeds(q: Retries, e: ClientEvent) returns (q': Retries, back: Option<ClientEvent>)
    requires !q.closed
    ensures Scheduled(q, e, q', back)
  {
    var all := q.items + multiset{e.(retryOrder := q.sequence + 1)};
    if |q.items| < q.capacity {
      back := None;
      q' := q.(items := all, sequence := q.sequence + 1);
    } else {
      var first := EarliestExists(all);
      back := Some(first);
      q' := q.(items := all - multiset{first}, sequence := q.sequence + 1);
    }
  }

  // ------------------------------------------------ publishers and the scheduler

  /** A publisher can push as long as the queue is open and has a free slot. */
  lemma PublisherPushes(run: seq<State>, n: nat, p: nat) returns (s': State)
    requires IsRun(run) && n < |run| && p in run[n].publishers
    requires !run[n].sendClosed && |run[n].line.items| < run[n].cfg.sendCapacity
    ensures PublisherNext(run[n], s', p, PushNew)
    ensures |s'.line.items| == |run[n].line.items| + 1
    ensures s'.line.items[|run[n].line.items|].id == run[n].publishers[p].id
  {
    RunInv(run, n);
    var s := run[n];
    assert HeldAt(LedgerOf(s), s.publishers[p], AtPublisher(p));
    s' := PushNow(s, s.publishers[p]).(publishers := s.publishers - {p},
                            locks := Resume(s.locks, s.publishers[p].client));
    assert PublisherPushStep(s, s', p);
  }

  /** So can the scheduler with a retry in hand. */
  lemma SchedulerPushes(run: seq<State>, n: nat) returns (s': State)
    requires IsRun(run) && n < |run| && run[n].scheduler.Pushing?
    requires !run[n].sendClosed && |run[n].line.items| < run[n].cfg.sendCapacity
    ensures SchedulerNext(run[n], s', PushDue) && s'.scheduler.Resting?
    ensures |s'.line.items| == |run[n].line.items| + 1
    ensures s'.line.items[|run[n].line.items|].id == run[n].scheduler.event.id
  {
    RunInv(run, n);
    var s := run[n];
    s' := PushNow(s, s.scheduler.event).(scheduler := Resting);
    assert SchedulerPushStep(s, s');
  }

  /** And at rest, as long as something is due, it takes the earliest of what is due. */
  lemma SchedulerTakes(run: seq<State>, n: nat, x: ClientEvent) returns (s': State, e: ClientEvent)
    requires IsRun(run) && n < |run| && run[n].scheduler.Resting? && !run[n].retries.closed
    requires x in run[n].retries.items && x.retryAfter <= run[n].now
    ensures SchedulerNext(run[n], s', PopDue(run[n].now, e)) && s'.scheduler == Judging(e)
    ensures e in run[n].retries.items && e.retryAfter <= x.retryAfter
  {
    var s := run[n];
    e := EarliestExists(s.retries.items);
    assert !Before(x, e);
    var q := s.retries.(items := s.retries.items - multiset{e});
    s' := s.(scheduler := Judging(e), retries := q, place := s.place[e.id := AtScheduler]);
    assert Popped(s.retries, s.now, q, Some(e));
    assert SchedulerPopStep(s, s', s.now, e);
  }

  // -------------------------------------------------- a run in which nobody can

  lemma Taken(run: seq<State>, s': State, step: Step) returns (run': seq<State>)
    requires IsRun(run) && Next(run[|run| - 1], s', step)
    ensures IsRun(run') && run'[|run'| - 1] == s'
  {
    run' := run + [s'];
    forall i | 0 <= i < |run'| - 1
      ensures StepAt(run', i)
    {
      if i < |run| - 1 {
        assert StepAt(run, i);
        assert run'[i] == run[i] && run'[i + 1] == run[i + 1];
      } else {
        assert Follows(run[|run| - 1], s');
      }
    }
  }

  const ONE_OF_EACH := Config(1, 1, 1, 1)

  /** One worker, and the clients 0 and 1, each of an ID of its own. */
  function TwoClients(): (s: State) {
    State(ONE_OF_EACH, Line([], [EMPTY_BOOK, EMPTY_BOOK]), false, Retries(multiset{}, 1, 0, false), false, [Idle], Resting,
          map[], NotStarted, {}, {}, multiset{}, Locks({}, Asleep, [0, 1], map[], {}), 0, 0, [[], []], [], map[])
  }

  lemma TwoClientsReached() returns (run: seq<State>)
    ensures IsRun(run) && run[|run| - 1] == TwoClients()
  {
    var s2 := TwoClients();
    var s1 := s2.(line := Line([], [EMPTY_BOOK]), pushed := [[]], locks := s2.locks.(ids := [0]));
    var s0 := s2.(line := Line([], []), pushed := [], locks := s2.locks.(ids := []));
    run := [s0];
    assert s0.line.books + [EMPTY_BOOK] == s1.line.books && s0.pushed + [[]] == s1.pushed;
    assert s0.locks.ids + [0] == s1.locks.ids;
    assert OpenClientStep(s0, s1, false, 0);
    run := Taken(run, s1, ByOthers(OpenClient(false, 0)));
    assert s1.line.books + [EMPTY_BOOK] == s2.line.books && s1.pushed + [[]] == s2.pushed;
    assert s1.locks.ids + [1] == s2.locks.ids;
    assert OpenClientStep(s1, s2, false, 1);
    run := Taken(run, s2, ByOthers(OpenClient(false, 1)));
  }

  /** An event for client 1. */
  const NEW_EVENT := ClientEvent(0, 1, false, 0, 0, 0, 0)

  /** A publisher has the event and waits to push it. */
  function Asked1(): (s: State) {
    var s := TwoClients();
    s.(locks := s.locks.(lifecycle := map[1 := AtQueue(0)]), publishers := map[0 := NEW_EVENT],
       nextId := 1, place := map[0 := AtPublisher(0)])
  }

  /** The event is in the queue. */
  function Pushed1(): (s: State)
    ensures |s.line.items| == 1 && s.workers == [Idle]
  {
    PushNow(Asked1(), NEW_EVENT).(publishers := map[], locks := TwoClients().locks.(lifecycle := map[1 := Running]))
  }

  /** The worker has popped it, and it is its turn. */
  function Popped1(): (s: State)
    ensures |s.workers| == 1
  {
    var s := Pushed1();
    s.(workers := [Busy(Checking, s.line.items[0], Granted)], line := s.line.(items := []),
                            place := map[0 := AtWorker(0)])
  }

  lemma AskedReached() returns (run: seq<State>)
    ensures IsRun(run) && run[|run| - 1] == Asked1()
  {
    run := TwoClientsReached();
    var s2 := TwoClients();
    var s3 := s2.(locks := s2.locks.(lifecycle := map[1 := Running]));
    assert s2.locks.lifecycle[1 := Running] == map[1 := Running];
    assert LockNext(s2, s3, EnterLifecycle(1));
    run := Taken(run, s3, ByLocks(EnterLifecycle(1)));
    assert s3.locks.lifecycle[1 := AtQueue(0)] == map[1 := AtQueue(0)];
    assert s3.publishers[0 := NEW_EVENT] == Asked1().publishers && s3.place[0 := AtPublisher(0)] == Asked1().place;
    assert PublishStep(s3, Asked1(), 0, 1, false);
    run := Taken(run, Asked1(), ByPublisher(0, Publish(1, false)));
  }

  lemma PushedReached() returns (run: seq<State>)
    ensures IsRun(run) && run[|run| - 1] == Pushed1()
  {
    run := AskedReached();
    var s := Asked1();
    assert s.publishers - {0} == map[];
    assert s.locks.lifecycle[1 := Running] == map[1 := Running];
    assert PublisherPushStep(s, Pushed1(), 0);
    run := Taken(run, Pushed1(), ByPublisher(0, PushNew));
  }

  lemma FirstTicket()
    ensures Popped1().workers[0].event == NEW_EVENT.(sendOrder := 1)
    ensures |Popped1().line.books| == 2 && Popped1().line.books[1].nextTurn == 1
  {}

  lemma PoppedReached() returns (run: seq<State>)
    ensures IsRun(run) && run[|run| - 1] == Popped1()
  {
    run := PushedReached();
    FirstTicket();
    var s5 := Pushed1();
    var s6 := Popped1().(workers := [Busy(Waiting, s5.line.items[0], Wanted)]);
    assert s5.line.items[1..] == [] && s5.place[0 := AtWorker(0)] == s6.place;
    assert PopStep(s5, s6, 0);
    run := Taken(run, s6, ByWorker(0, Pop));
    assert TurnComesStep(s6, Popped1(), 0);
    run := Taken(run, Popped1(), ByWorker(0, TurnComes));
  }

  /** The heartbeat is under way, the expiration scan waits for the same mutex, and a writer for the bus lock. */
  function Blocked1(): (s: State) {
    Popped1().(locks := Popped1().locks.(heartbeats := {0}, expiry := Scanning([0], true)))
  }

  lemma BlockedReached() returns (run: seq<State>)
    ensures IsRun(run) && run[|run| - 1] == Blocked1()
  {
    run := PoppedReached();
    var s7 := Popped1();
    var s8 := s7.(locks := s7.locks.(heartbeats := {0}));
    assert LockNext(s7, s8, HeartbeatBegin(0));
    run := Taken(run, s8, ByLocks(HeartbeatBegin(0)));
    var s9 := s8.(locks := s8.locks.(expiry := Scanning([0], false)));
    assert LockNext(s8, s9, Expire(ScanBegin([0])));
    run := Taken(run, s9, ByLocks(Expire(ScanBegin([0]))));
    assert LockNext(s9, Blocked1(), Expire(WriterWaits));
    run := Taken(run, Blocked1(), ByLocks(Expire(WriterWaits)));
  }

  lemma NobodyIsFree()
    ensures !SomeoneIsFree(Blocked1()) && HeldUp(Blocked1(), 0)
  {
    forall w: nat | HasWork(Blocked1(), w)
      ensures Stands(Blocked1(), w)
    {
      assert w == 0;
    }
  }

  /**
    A slow connection can hold up the workers of other clients: while a heartbeat
    to client 0 does not return, the expiration scan waits for client 0's mutex
    with the bus lock held, a writer waits for the bus lock, and the worker, which
    has an event for client 1, cannot find out whether it is current.
  */
  lemma SlowHeartbeatHoldsUp() returns (run: seq<State>)
    ensures IsRun(run) && run[|run| - 1] == Blocked1()
    ensures Blocked1().workers == [Busy(Checking, NEW_EVENT.(sendOrder := 1), Granted)] && NEW_EVENT.client == 1
    ensures Blocked1().locks.heartbeats == {0} && HeldUp(Blocked1(), 0)
    ensures !SomeoneCanMove(Blocked1(), true) && !SomeoneCanMove(Blocked1(), false)
  {
    run := BlockedReached();
    FirstTicket();
    NobodyIsFree();
    SomeWorkerMovesExactly(run, |run| - 1, true);
    SomeWorkerMovesExactly(run, |run| - 1, false);
  }
}
