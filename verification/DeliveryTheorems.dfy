/** What holds in every state of every run of the delivery engine. */
module DeliveryTheorems {
  import opened Options
  import opened Line
  import opened Retries
  import opened Delivery
  import opened DeliveryOrder
  import opened DeliveryOwnership
  import Turn = TurnOrder

  // ----------------------------------------------------- bounds and shutdown

  ghost predicate BoundsInv(s: State) {
    && |s.workers| >= 1
    && (!Drained(s.flush) ==> |s.line.items| <= s.cfg.sendCapacity)
    && |s.retries.items| <= s.retries.capacity && Numbered(s.retries)
  }

  /** At most one removal is started for a generation, and only for a retired one. */
  ghost predicate RemovalsInv(removals: multiset<nat>, inactive: set<nat>) {
    forall g :: removals[g] <= 1 && (g in removals ==> g in inactive)
  }

  ghost predicate ClosingInv(s: State) {
    && (s.stopped ==> s.retries.closed) && (s.retries.closed ==> s.sendClosed)
    && (forall w :: 0 <= w < |s.workers| && s.workers[w].Exited? ==> s.sendClosed)
    && (s.scheduler.Ended? ==> s.sendClosed)
    && (!s.flush.NotStarted? ==>
          && s.stopped && s.scheduler.Ended? && s.retries.items == multiset{}
          && s.locks.removing == {} && s.locks.heartbeats == {} && s.locks.expiry.Asleep?
          && forall w :: 0 <= w < |s.workers| ==> s.workers[w].Exited?)
    && (s.flush.Flushed? ==> s.line.items == [])
  }

  /** A publisher is inside the lifecycle lock of its client's ID, and nobody else waits there for the queue. */
  ghost predicate PublishersInside(publishers: map<nat, ClientEvent>, l: Locks) {
    && (forall p :: p in publishers ==>
          publishers[p].client < |l.ids| && IdIsAt(l, l.ids[publishers[p].client], AtQueue(p)))
    && (forall id :: id in l.lifecycle && l.lifecycle[id].AtQueue? ==>
          && l.lifecycle[id].p in publishers && publishers[l.lifecycle[id].p].client < |l.ids|
          && l.ids[publishers[l.lifecycle[id].p].client] == id)
  }

  /** The expiration loop is inside the lifecycle lock of the client it is at, and only that one. */
  ghost predicate ExpiryInside(x: Expiry, lifecycle: map<nat, Inside>) {
    && (x.Aging? || x.Retiring? ==> x.ids != [] && x.ids[0] in lifecycle && lifecycle[x.ids[0]].AtExpiry?)
    && (forall id :: id in lifecycle && lifecycle[id].AtExpiry? ==>
          (x.Aging? || x.Retiring?) && x.ids != [] && x.ids[0] == id)
  }

  ghost predicate LocksInv(s: State) {
    && |s.locks.ids| == |s.line.books|
    && (forall g :: g in s.locks.removing ==> g < |s.locks.ids|)
    && PublishersInside(s.publishers, s.locks) && ExpiryInside(s.locks.expiry, s.locks.lifecycle)
  }

  ghost predicate Inv(s: State) {
    Turn.Inv(Abs(s)) && HeldInv(s) && BoundsInv(s) && RemovalsInv(s.removals, s.inactive) && ClosingInv(s)
    && LocksInv(s)
  }

  lemma InitInv(s: State)
    requires Init(s)
    ensures Inv(s)
  {
    assert Abs(s).hands == map[];
  }

  // ------------------------------------------------------------ send workers

  /** Only a closed queue makes a worker exit. */
  lemma WorkersKeepClosing(s: State, s': State, w: nat, action: WorkerAction)
    requires ClosingInv(s) && WorkerNext(s, s', w, action)
    ensures ClosingInv(s')
  {
    LineOnlyShrinks(s, s', w, action);
    if s'.workers[w].Exited? {
      assert action.Exit? || action.Schedule?;
    }
  }

  lemma LineOnlyShrinks(s: State, s': State, w: nat, action: WorkerAction)
    requires WorkerNext(s, s', w, action)
    ensures s'.line.items == s.line.items || (!s.sendClosed && s.line.items != [] && s'.line.items == s.line.items[1..])
  {}

  lemma ScheduleKeepsBounds(s: State, s': State, w: nat, back: Option<ClientEvent>)
    requires BoundsInv(s) && ScheduleStep(s, s', w, back)
    ensures BoundsInv(s')
  {
    if !s.retries.closed {
      var e := s.workers[w].event;
      ScheduledKeepsBound(s.retries, e, s'.retries, back);
    }
  }

  lemma WorkersKeepBounds(s: State, s': State, w: nat, action: WorkerAction)
    requires BoundsInv(s) && WorkerNext(s, s', w, action)
    ensures BoundsInv(s')
  {
    if action.Schedule? {
      ScheduleKeepsBounds(s, s', w, action.back);
    } else {
      LineOnlyShrinks(s, s', w, action);
    }
  }

  lemma ExhaustKeepsRemovals(s: State, client: nat)
    requires RemovalsInv(s.removals, s.inactive)
    ensures RemovalsInv(Exhaust(s, client).removals, Exhaust(s, client).inactive)
  {}

  lemma WorkersKeepRemovals(s: State, s': State, w: nat, action: WorkerAction)
    requires RemovalsInv(s.removals, s.inactive) && WorkerNext(s, s', w, action)
    ensures RemovalsInv(s'.removals, s'.inactive)
  {
    match action
    case Check(current) => CheckKeepsRemovals(s, s', w, current);
    case Judge(current) => JudgeKeepsRemovals(s, s', w, current);
    case EndSend(outcome) => assert EndSendStep(s, s', w, outcome);
    case _ => WorkersRetireNobody(s, s', w, action);
  }

  lemma WorkersRetireNobody(s: State, s': State, w: nat, action: WorkerAction)
    requires WorkerNext(s, s', w, action) && !action.Check? && !action.Judge? && !action.EndSend?
    ensures s'.removals == s.removals && s'.inactive == s.inactive
  {}

  lemma CheckKeepsRemovals(s: State, s': State, w: nat, current: bool)
    requires RemovalsInv(s.removals, s.inactive) && CheckStep(s, s', w, current)
    ensures RemovalsInv(s'.removals, s'.inactive)
  {
    ExhaustKeepsRemovals(s, s.workers[w].event.client);
  }

  lemma JudgeKeepsRemovals(s: State, s': State, w: nat, current: bool)
    requires RemovalsInv(s.removals, s.inactive) && JudgeStep(s, s', w, current)
    ensures RemovalsInv(s'.removals, s'.inactive)
  {
    ExhaustKeepsRemovals(s, s.workers[w].event.client);
  }

  lemma WorkersKeepHeld(s: State, s': State, w: nat, action: WorkerAction)
    requires HeldInv(s) && WorkerNext(s, s', w, action)
    ensures HeldInv(s')
  {
    match action
    case Pop => PopHolds(s, s', w);
    case Exit => WorkerGoesOn(s, s', w);
    case TurnComes => TurnComesHolds(s, s', w);
    case Check(current) => CheckHolds(s, s', w, current);
    case BeginSend => BeginSendHolds(s, s', w);
    case EndSend(outcome) => EndSendHolds(s, s', w, outcome);
    case Judge(current) => JudgeHolds(s, s', w, current);
    case Leave => LeaveHolds(s, s', w);
    case SetDelay => WorkerGoesOn(s, s', w);
    case Schedule(back) => ScheduleHolds(s, s', w, back);
    case HoldDue => WorkerGoesOn(s, s', w);
    case HoldDrop(_) => WorkerGoesOn(s, s', w);
  }

  lemma PopKeepsOrder(s: State, s': State, w: nat)
    requires Turn.Inv(Abs(s)) && PopStep(s, s', w)
    ensures Turn.Inv(Abs(s'))
  {
    PopRefines(s, s', w);
    Turn.TakeKeepsInv(Abs(s), Abs(s'), Turn.Holder.Worker(w));
  }

  lemma TurnComesKeepsOrder(s: State, s': State, w: nat)
    requires Turn.Inv(Abs(s)) && TurnComesStep(s, s', w) && s.workers[w].ticket.Wanted?
    ensures Turn.Inv(Abs(s'))
  {
    TurnNotOver(Abs(s), Turn.Holder.Worker(w));
    TurnComesRefines(s, s', w);
    Turn.GrantKeepsInv(Abs(s), Abs(s'), Turn.Holder.Worker(w));
  }

  lemma BeginSendKeepsOrder(s: State, s': State, w: nat)
    requires Turn.Inv(Abs(s)) && BeginSendStep(s, s', w)
    requires (s.workers[w].ticket.Granted? || s.workers[w].ticket.NoTicket?)
    ensures Turn.Inv(Abs(s'))
  {
    if s.workers[w].event.client in s.inactive {
      MoveOnRefines(s, s', w, Leaving(false));
    } else if s.workers[w].ticket.NoTicket? {
      BeginRetryRefines(s, s', w);
    } else {
      BeginSendRefines(s, s', w);
      Turn.SendKeepsInv(Abs(s), Abs(s'), Turn.Holder.Worker(w));
    }
  }

  lemma LeaveKeepsOrder(s: State, s': State, w: nat)
    requires Turn.Inv(Abs(s)) && LeaveStep(s, s', w) && !s.workers[w].ticket.Wanted?
    ensures Turn.Inv(Abs(s'))
  {
    if s.workers[w].ticket.NoTicket? {
      NoTicketRefines(s, s', w);
    } else {
      LeaveRefines(s, s', w);
      Turn.FinishKeepsInv(Abs(s), Abs(s'), Turn.Holder.Worker(w));
    }
  }

  lemma CheckKeepsAbs(s: State, s': State, w: nat, current: bool)
    requires CheckStep(s, s', w, current)
    ensures Abs(s') == Abs(s)
  {
    MoveOnRefines(s, s', w, s'.workers[w].phase);
  }

  lemma JudgeKeepsAbs(s: State, s': State, w: nat, current: bool)
    requires JudgeStep(s, s', w, current)
    ensures Abs(s') == Abs(s)
  {
    MoveOnRefines(s, s', w, s'.workers[w].phase);
  }

  lemma EndSendKeepsAbs(s: State, s': State, w: nat, outcome: Outcome)
    requires EndSendStep(s, s', w, outcome)
    ensures Abs(s') == Abs(s)
  {
    MoveOnRefines(s, s', w, s'.workers[w].phase);
  }

  lemma QuietKeepsAbs(s: State, s': State, w: nat, action: WorkerAction)
    requires WorkerNext(s, s', w, action) && WorkersHeld(LedgerOf(s), s.workers)
    requires !action.Pop? && !action.TurnComes? && !action.BeginSend? && !action.Leave?
    ensures Abs(s') == Abs(s)
  {
    match action
    case Exit => NoTicketRefines(s, s', w);
    case Check(current) => CheckKeepsAbs(s, s', w, current);
    case EndSend(outcome) => EndSendKeepsAbs(s, s', w, outcome);
    case Judge(current) => JudgeKeepsAbs(s, s', w, current);
    case HoldDue => MoveOnRefines(s, s', w, s'.workers[w].phase);
    case HoldDrop(_) => NoTicketRefines(s, s', w);
    case SetDelay => NoTicketRefines(s, s', w);
    case Schedule(_) => NoTicketRefines(s, s', w);
  }

  lemma TicketFitsPhase(s: State, w: nat)
    requires WorkersHeld(LedgerOf(s), s.workers) && w < |s.workers| && s.workers[w].Busy?
    ensures s.workers[w].phase.Waiting? ==> s.workers[w].ticket.Wanted?
    ensures s.workers[w].phase.Ready? ==> s.workers[w].ticket.Granted? || s.workers[w].ticket.NoTicket?
    ensures s.workers[w].phase.Leaving? ==> !s.workers[w].ticket.Wanted?
  {}

  lemma WorkersKeepOrder(s: State, s': State, w: nat, action: WorkerAction)
    requires Turn.Inv(Abs(s)) && WorkersHeld(LedgerOf(s), s.workers) && WorkerNext(s, s', w, action)
    ensures Turn.Inv(Abs(s'))
  {
    if s.workers[w].Busy? {
      TicketFitsPhase(s, w);
    }
    match action
    case Pop => PopKeepsOrder(s, s', w);
    case TurnComes => TurnComesKeepsOrder(s, s', w);
    case BeginSend => BeginSendKeepsOrder(s, s', w);
    case Leave => LeaveKeepsOrder(s, s', w);
    case _ => QuietKeepsAbs(s, s', w, action);
  }

  lemma WorkersKeepLocks(s: State, s': State, w: nat, action: WorkerAction)
    requires LocksInv(s) && WorkersHeld(LedgerOf(s), s.workers) && WorkerNext(s, s', w, action)
    ensures LocksInv(s')
  {
    WorkersKeepBooks(s, s', w, action);
    if s'.locks.removing != s.locks.removing {
      WorkersStartOneRemoval(s, s', w, action);
      assert HeldAt(LedgerOf(s), s.workers[w].event, AtWorker(w));
    }
  }

  lemma WorkersKeepBooks(s: State, s': State, w: nat, action: WorkerAction)
    requires WorkerNext(s, s', w, action)
    ensures |s'.line.books| == |s.line.books|
  {}

  lemma WorkersStartOneRemoval(s: State, s': State, w: nat, action: WorkerAction)
    requires WorkerNext(s, s', w, action) && s'.locks.removing != s.locks.removing
    ensures s.workers[w].Busy? && s'.locks.removing == s.locks.removing + {s.workers[w].event.client}
  {}

  // ---------------------------------------------------- publishers and locks

  lemma PublisherKeepsLocks(s: State, s': State, p: nat, action: PublisherAction)
    requires LocksInv(s) && PublisherNext(s, s', p, action)
    ensures LocksInv(s')
  {
    match action
    case Publish(client, _) => EnterKeepsInside(s.publishers, s.locks, p, s'.publishers[p]);
    case PushNew => ResumeKeepsInside(s.publishers, s.locks, p);
    case GiveUp => ResumeKeepsInside(s.publishers, s.locks, p);
  }

  lemma EnterKeepsInside(publishers: map<nat, ClientEvent>, l: Locks, p: nat, e: ClientEvent)
    requires PublishersInside(publishers, l) && p !in publishers && e.client < |l.ids|
    requires IdIsAt(l, l.ids[e.client], Running)
    ensures PublishersInside(publishers[p := e], l.(lifecycle := l.lifecycle[l.ids[e.client] := AtQueue(p)]))
  {}

  lemma ResumeKeepsInside(publishers: map<nat, ClientEvent>, l: Locks, p: nat)
    requires PublishersInside(publishers, l) && p in publishers
    ensures PublishersInside(publishers - {p}, Resume(l, publishers[p].client))
  {}

  lemma LocksKeepInside(s: State, l': Locks, action: LockAction)
    requires LocksInv(s) && LockStep(s, l', action)
    ensures LocksInv(s.(locks := l'))
  {
    match action
    case Expire(a) => ExpiryKeepsInside(s, l', a);
    case EnterLifecycle(id) => LifecycleKeepsInside(s, l', id);
    case WantMutex(id, _) => LifecycleKeepsInside(s, l', id);
    case HaveMutex(id) => LifecycleKeepsInside(s, l', id);
    case LeaveLifecycle(id, _) => LifecycleKeepsInside(s, l', id);
    case _ =>
  }

  /** A caller in a lifecycle lock enters, goes on or leaves; it is neither a publisher nor the expiration loop. */
  lemma LifecycleKeepsInside(s: State, l': Locks, id: nat)
    requires LocksInv(s) && l' == s.locks.(lifecycle := l'.lifecycle)
    requires id in s.locks.lifecycle ==> s.locks.lifecycle[id].Running? || s.locks.lifecycle[id].AtMutex?
    requires id in l'.lifecycle ==> l'.lifecycle[id].Running? || l'.lifecycle[id].AtMutex?
    requires l'.lifecycle - {id} == s.locks.lifecycle - {id}
    ensures LocksInv(s.(locks := l'))
  {
    forall o | o != id
      ensures o in l'.lifecycle <==> o in s.locks.lifecycle
      ensures o in l'.lifecycle ==> l'.lifecycle[o] == s.locks.lifecycle[o]
    {
      assert o in l'.lifecycle - {id} <==> o in s.locks.lifecycle - {id};
      assert o in l'.lifecycle ==> (l'.lifecycle - {id})[o] == (s.locks.lifecycle - {id})[o];
    }
    SameInside(s.publishers, s.locks, l', id);
  }

  lemma SameInside(publishers: map<nat, ClientEvent>, l: Locks, l': Locks, id: nat)
    requires PublishersInside(publishers, l) && l'.ids == l.ids
    requires forall o :: o != id ==> (o in l'.lifecycle <==> o in l.lifecycle)
    requires forall o :: o != id && o in l'.lifecycle ==> l'.lifecycle[o] == l.lifecycle[o]
    requires id in l.lifecycle ==> !l.lifecycle[id].AtQueue?
    requires id in l'.lifecycle ==> !l'.lifecycle[id].AtQueue?
    ensures PublishersInside(publishers, l')
  {}

  lemma ExpiryKeepsInside(s: State, l': Locks, action: ExpiryAction)
    requires LocksInv(s) && ExpiryStep(s, l', action)
    ensures LocksInv(s.(locks := l'))
  {
    match action
    case Enter(client) => EnterKeepsExpiry(s, l', client);
    case Age(stale) => LeaveKeepsExpiry(s, l');
    case Remove => LeaveKeepsExpiry(s, l');
    case _ => StillInside(s, l');
  }

  lemma StillInside(s: State, l': Locks)
    requires LocksInv(s) && l' == s.locks.(expiry := l'.expiry) && ExpiryInside(l'.expiry, l'.lifecycle)
    ensures LocksInv(s.(locks := l'))
  {
    assert forall id, place :: IdIsAt(l', id, place) <==> IdIsAt(s.locks, id, place);
  }

  lemma EnterKeepsExpiry(s: State, l': Locks, client: nat)
    requires LocksInv(s) && ExpiryStep(s, l', Enter(client))
    ensures LocksInv(s.(locks := l'))
  {
    SameInside(s.publishers, s.locks, l', s.locks.expiry.ids[0]);
  }

  lemma LeaveKeepsExpiry(s: State, l': Locks)
    requires LocksInv(s) && (s.locks.expiry.Aging? || s.locks.expiry.Retiring?)
    requires l' == NextToExpire(s.locks, s.locks.expiry.ids)
             || l' == s.locks.(expiry := Retiring(s.locks.expiry.ids, s.locks.expiry.client))
    ensures LocksInv(s.(locks := l'))
  {
    SameInside(s.publishers, s.locks, l', s.locks.expiry.ids[0]);
  }

  lemma LocksKeepInv(s: State, s': State, action: LockAction)
    requires Inv(s) && LockNext(s, s', action)
    ensures Inv(s')
  {
    LocksKeepInside(s, s'.locks, action);
    LocksKeepHeld(s, s');
    LocksKeepClosing(s, s', action);
    assert s'.line == s.line && Abs(s') == Abs(s);
  }

  lemma LocksKeepHeld(s: State, s': State)
    requires HeldInv(s) && s' == s.(locks := s'.locks)
    ensures HeldInv(s')
  {
    assert LedgerOf(s') == LedgerOf(s);
  }

  /** After the flush has started no heartbeat begins, and the expiration loop is over. */
  lemma LocksKeepClosing(s: State, s': State, action: LockAction)
    requires ClosingInv(s) && LockNext(s, s', action)
    ensures ClosingInv(s')
  {
    if !s.flush.NotStarted? {
      LocksStayQuiet(s, s'.locks, action);
    }
  }

  lemma LocksStayQuiet(s: State, l': Locks, action: LockAction)
    requires LockStep(s, l', action) && !s.flush.NotStarted?
    requires s.locks.removing == {} && s.locks.heartbeats == {} && s.locks.expiry.Asleep?
    ensures l'.removing == {} && l'.heartbeats == {} && l'.expiry.Asleep?
  {}

  // --------------------------------------------------- scheduler, publishers

  lemma SchedulerPopKeepsInv(s: State, s': State, at: int, e: ClientEvent)
    requires Inv(s) && SchedulerPopStep(s, s', at, e)
    ensures Inv(s')
  {
    SchedulerPopHolds(s, s', at, e);
    assert Abs(s') == Abs(s);
  }

  lemma SchedulerPushKeepsInv(s: State, s': State)
    requires Inv(s) && SchedulerPushStep(s, s')
    ensures Inv(s')
  {
    SchedulerPushHolds(s, s');
    Turn.PushKeepsInv(Abs(s), Abs(s'), s.scheduler.event);
  }

  lemma SchedulerGoesOn(s: State, s': State)
    requires Inv(s) && s' == s.(scheduler := s'.scheduler) && SchedulerHeld(LedgerOf(s), s'.scheduler)
    requires s'.scheduler.Ended? ==> s.sendClosed
    requires s.scheduler.Ended? ==> s'.scheduler.Ended?
    ensures Inv(s')
  {
    assert Abs(s') == Abs(s) && LedgerOf(s') == LedgerOf(s);
  }

  lemma SchedulerKeepsInv(s: State, s': State, action: SchedulerAction)
    requires Inv(s) && SchedulerNext(s, s', action)
    ensures Inv(s')
  {
    match action
    case PopDue(at, e) => SchedulerPopKeepsInv(s, s', at, e);
    case JudgeDue(_) => SchedulerGoesOn(s, s');
    case PushDue => SchedulerPushKeepsInv(s, s');
    case End => SchedulerGoesOn(s, s');
  }

  lemma PublisherPushKeepsInv(s: State, s': State, p: nat)
    requires Inv(s) && PublisherPushStep(s, s', p)
    ensures Inv(s')
  {
    PublisherPushHolds(s, s', p);
    PublisherKeepsLocks(s, s', p, PushNew);
    Turn.PushKeepsInv(Abs(s), Abs(s'), s.publishers[p]);
  }

  lemma PublishKeepsInv(s: State, s': State, p: nat, client: nat, replayable: bool)
    requires Inv(s) && PublishStep(s, s', p, client, replayable)
    ensures Inv(s')
  {
    PublishHolds(s, s', p, client, replayable);
    PublisherKeepsLocks(s, s', p, Publish(client, replayable));
    assert Abs(s') == Abs(s);
  }

  lemma GiveUpKeepsInv(s: State, s': State, p: nat)
    requires Inv(s) && PublisherGivesUpStep(s, s', p)
    ensures Inv(s')
  {
    PublisherKeepsLocks(s, s', p, GiveUp);
    assert Abs(s') == Abs(s) && LedgerOf(s') == LedgerOf(s);
  }

  lemma PublisherKeepsInv(s: State, s': State, p: nat, action: PublisherAction)
    requires Inv(s) && PublisherNext(s, s', p, action)
    ensures Inv(s')
  {
    match action
    case Publish(client, replayable) => PublishKeepsInv(s, s', p, client, replayable);
    case PushNew => PublisherPushKeepsInv(s, s', p);
    case GiveUp => GiveUpKeepsInv(s, s', p);
  }

  // ---------------------------------------------------------- shutdown flush

  lemma FlushKeepsOrder(s: State, s': State, action: FlushAction)
    requires Turn.Inv(Abs(s)) && FlushHeld(LedgerOf(s), s.flush) && FlushNext(s, s', action)
    ensures Turn.Inv(Abs(s'))
  {
    match action
    case Take => FlushTakeKeepsOrder(s, s');
    case FlushTurn => FlushTurnKeepsOrder(s, s');
    case FlushBegin => FlushBeginKeepsOrder(s, s');
    case FlushLeave => FlushLeaveKeepsOrder(s, s');
    case _ => assert Abs(s') == Abs(s);
  }

  lemma FlushTakeKeepsOrder(s: State, s': State)
    requires Turn.Inv(Abs(s)) && FlushTakeStep(s, s')
    ensures Turn.Inv(Abs(s'))
  {
    FlushTakeRefines(s, s');
    Turn.TakeKeepsInv(Abs(s), Abs(s'), Turn.Holder.Flusher);
  }

  lemma FlushTurnKeepsOrder(s: State, s': State)
    requires Turn.Inv(Abs(s)) && FlushTurnStep(s, s') && s.flush.ticket.Wanted?
    ensures Turn.Inv(Abs(s'))
  {
    TurnNotOver(Abs(s), Turn.Holder.Flusher);
    FlushTurnRefines(s, s');
    Turn.GrantKeepsInv(Abs(s), Abs(s'), Turn.Holder.Flusher);
  }

  lemma FlushBeginKeepsOrder(s: State, s': State)
    requires Turn.Inv(Abs(s)) && FlushBeginStep(s, s') && s.flush.ticket.Granted?
    ensures Turn.Inv(Abs(s'))
  {
    if s.flush.event.client !in s.inactive {
      FlushBeginRefines(s, s');
      Turn.SendKeepsInv(Abs(s), Abs(s'), Turn.Holder.Flusher);
    }
  }

  lemma FlushLeaveKeepsOrder(s: State, s': State)
    requires Turn.Inv(Abs(s)) && FlushLeaveStep(s, s') && !s.flush.ticket.Wanted? && !s.flush.ticket.NoTicket?
    ensures Turn.Inv(Abs(s'))
  {
    FlushLeaveRefines(s, s');
    Turn.FinishKeepsInv(Abs(s), Abs(s'), Turn.Holder.Flusher);
  }

  lemma FlushKeepsHeld(s: State, s': State, action: FlushAction)
    requires HeldInv(s) && FlushNext(s, s', action)
    ensures HeldInv(s')
  {
    match action
    case Take => FlushTakeHolds(s, s');
    case FlushBegin => FlushBeginHolds(s, s');
    case Start => FlushGoesOn(s, s');
    case Drain => FlushGoesOn(s, s');
    case FlushTurn => FlushGoesOn(s, s');
    case FlushCheck(_) => FlushGoesOn(s, s');
    case FlushReturn(_) => FlushGoesOn(s, s');
    case FlushLeave => FlushGoesOn(s, s');
    case Complete => FlushGoesOn(s, s');
  }

  /** The flush goes on with the event it has, or lets go of it. */
  lemma FlushGoesOn(s: State, s': State)
    requires HeldInv(s) && LedgerOf(s') == LedgerOf(s) && FlushHeld(LedgerOf(s), s'.flush)
    requires s'.line.items == s.line.items && s'.workers == s.workers && s'.scheduler == s.scheduler
    requires s'.publishers == s.publishers
    requires s'.retries.items == s.retries.items || s'.retries.items == multiset{}
    ensures HeldInv(s')
  {}

  /**
    What the flush may change besides its own place: it clears the heap, takes
    from its list, finishes tickets and retires.
  */
  ghost predicate FlushFrame(s: State, s': State) {
    && s'.cfg == s.cfg && s'.workers == s.workers && s'.scheduler == s.scheduler && s'.publishers == s.publishers
    && s'.sendClosed == s.sendClosed && s'.stopped == s.stopped && s'.locks == s.locks && s'.removals == s.removals
    && s.inactive <= s'.inactive && |s'.line.books| == |s.line.books| && |s'.line.items| <= |s.line.items|
    && (s'.retries == s.retries || s'.retries == s.retries.(items := multiset{}))
    && !s'.flush.NotStarted? && (Drained(s.flush) ==> Drained(s'.flush))
    && (s.flush.NotStarted? ==> FlushStartStep(s, s'))
    && (s'.flush.Flushed? ==> s'.line.items == [])
  }

  lemma FlushOpensWithinFrame(s: State, s': State, action: FlushAction)
    requires FlushNext(s, s', action) && (action.Start? || action.Drain? || action.Take? || action.Complete?)
    ensures FlushFrame(s, s')
  {
    match action
    case Start => assert FlushStartStep(s, s');
    case Drain =>
    case Take => assert FlushTakeStep(s, s');
    case Complete => assert FlushEndStep(s, s');
  }

  lemma FlushSendsWithinFrame(s: State, s': State, action: FlushAction)
    requires FlushNext(s, s', action) && (action.FlushBegin? || action.FlushReturn? || action.FlushLeave?)
    ensures FlushFrame(s, s')
  {
    match action
    case FlushBegin => FlushBeginWithinFrame(s, s');
    case FlushReturn(outcome) => assert FlushReturnStep(s, s', outcome);
    case FlushLeave => assert FlushLeaveStep(s, s');
  }

  lemma FlushBeginWithinFrame(s: State, s': State)
    requires FlushBeginStep(s, s')
    ensures FlushFrame(s, s')
  {}

  lemma FlushWithinFrame(s: State, s': State, action: FlushAction)
    requires FlushNext(s, s', action)
    ensures FlushFrame(s, s')
  {
    match action
    case FlushTurn => assert FlushTurnStep(s, s');
    case FlushCheck(current) => assert FlushCheckStep(s, s', current);
    case FlushBegin => FlushSendsWithinFrame(s, s', action);
    case FlushReturn(_) => FlushSendsWithinFrame(s, s', action);
    case FlushLeave => FlushSendsWithinFrame(s, s', action);
    case _ => FlushOpensWithinFrame(s, s', action);
  }

  lemma FlushKeepsRest(s: State, s': State)
    requires BoundsInv(s) && RemovalsInv(s.removals, s.inactive) && ClosingInv(s) && LocksInv(s) && FlushFrame(s, s')
    ensures BoundsInv(s') && RemovalsInv(s'.removals, s'.inactive) && ClosingInv(s') && LocksInv(s')
  {}

  // ------------------------------------------------------- the rest of the bus

  lemma OthersKeepOrder(s: State, s': State, action: OtherAction)
    requires Turn.Inv(Abs(s)) && OtherNext(s, s', action)
    ensures Turn.Inv(Abs(s'))
  {
    match action
    case OpenClient(_, _) => Turn.OpenKeepsInv(Abs(s), Abs(s'));
    case RemoveQueued(c, r) =>
      if !Drained(s.flush) {
        Turn.RemoveKeepsInv(Abs(s), Abs(s'), c, r);
      }
    case _ =>
  }

  lemma OthersKeepHeld(s: State, s': State, action: OtherAction)
    requires HeldInv(s) && OtherNext(s, s', action)
    ensures HeldInv(s')
  {
    match action
    case RemoveQueued(c, r) => RemoveQueuedHolds(s, s', c, r);
    case RemoveRetries(c, r) => RemoveRetriesHolds(s, s', c, r);
    case _ =>
  }

  lemma OthersKeepRest(s: State, s': State, action: OtherAction)
    requires BoundsInv(s) && RemovalsInv(s.removals, s.inactive) && ClosingInv(s) && LocksInv(s)
    requires OtherNext(s, s', action)
    ensures BoundsInv(s') && RemovalsInv(s'.removals, s'.inactive) && ClosingInv(s') && LocksInv(s')
  {
    match action
    case RemoveRetries(c, r) => RemovedKeepsNumbered(s.retries, Pending(c, r), s'.retries);
    case _ =>
  }

  /** Every step of the engine keeps the invariant. */
  lemma NextKeepsInv(s: State, s': State, step: Step)
    requires Inv(s) && Next(s, s', step)
    ensures Inv(s')
  {
    match step
    case ByWorker(w, action) =>
      WorkersKeepOrder(s, s', w, action);
      WorkersKeepHeld(s, s', w, action);
      WorkersKeepBounds(s, s', w, action);
      WorkersKeepRemovals(s, s', w, action);
      WorkersKeepClosing(s, s', w, action);
      WorkersKeepLocks(s, s', w, action);
    case ByScheduler(action) => SchedulerKeepsInv(s, s', action);
    case ByPublisher(p, action) => PublisherKeepsInv(s, s', p, action);
    case ByFlush(action) =>
      FlushKeepsOrder(s, s', action);
      FlushKeepsHeld(s, s', action);
      FlushWithinFrame(s, s', action);
      FlushKeepsRest(s, s');
    case ByOthers(action) =>
      OthersKeepOrder(s, s', action);
      OthersKeepHeld(s, s', action);
      OthersKeepRest(s, s', action);
    case ByLocks(action) => LocksKeepInv(s, s', action);
  }
}
