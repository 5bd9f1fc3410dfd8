/**
  The asynchronous delivery engine as a state machine: publishers, send
  workers, the retry scheduler and the shutdown flush, sharing the send queue
  and the retry queue. A step is one critical section, one channel operation or
  the return of one `Connection.Send`.

  What other parts of the bus do to this state (retiring a client generation,
  discarding pending sends, replacing the client behind an ID) may happen
  between any two steps. `isCurrentEvent` reads two variables without a common
  lock, so its result is a parameter of the step: everything here holds for
  whatever it returns.

  Locks that are held while waiting for something are part of the state: the
  mutex of a generation during a call on its connection, the bus lock while the
  expiration loop wants such a mutex, and the lifecycle lock of a client ID.
*/
module Delivery {
  import opened Options
  import opened Tickets
  import opened Line
  import opened Retries
  import Backoff

  datatype Config = Config(sendCapacity: nat, attempts: nat, retryBase: nat, retryMax: nat)

  /** How far a worker has come with the event in its hand. */
  datatype Phase =
    | Waiting
    | Checking
    | Ready
    | Sending
    | Returned(failed: bool)
    | Leaving(retry: bool)
    | Delaying
    | Scheduling
    | Holding

  /** `NoTicket`: a retry in hand, outside the ordering. `Used`: a send was begun under the ticket. */
  datatype Ticket = NoTicket | Wanted | Granted | Used

  datatype Worker = Idle | Busy(phase: Phase, event: ClientEvent, ticket: Ticket) | Exited

  datatype Scheduler = Resting | Judging(event: ClientEvent) | Pushing(event: ClientEvent) | Ended

  /**
    The goroutine started by `Close`. It starts when workers, scheduler,
    removals, heartbeats and expiration are over. From `Draining` on,
    `line.items` is its private list.
  */
  datatype Flush = NotStarted | Cleared | Draining | Flushing(phase: Phase, event: ClientEvent, ticket: Ticket) | Flushed

  datatype Outcome = Delivered | Failed | ConnectionClosed

  /** One call of `Connection.Send`: which attempt it is, and the ticket it was made under, if any. */
  datatype Send = Send(id: nat, client: nat, attempt: nat, ticket: Option<nat>)

  datatype Place = InLine | InHeap | AtWorker(w: nat) | AtScheduler | AtFlush | AtPublisher(p: nat)

  /**
    What a caller inside a lifecycle lock is doing: going on, waiting for the
    mutex of a generation, or pushing as publisher `p`; or it is the expiration
    loop.
  */
  datatype Inside = Running | AtMutex(client: nat) | AtQueue(p: nat) | AtExpiry

  /**
    The expiration loop. `Scanning`: it holds the bus lock for reading and has
    still to look at the generations `rest`, under their mutexes; `writer`:
    somebody waits to write, so that readers wait too. `Wanting`: it has still to
    remove the clients `ids`. `Aging`: inside the lifecycle lock of the first of
    them, it holds the bus lock for writing and wants the mutex of `client`.
    `Retiring`: it wants that mutex again, without the bus lock.
  */
  datatype Expiry =
    | Asleep
    | Scanning(rest: seq<nat>, writer: bool)
    | Wanting(ids: seq<nat>)
    | Aging(ids: seq<nat>, client: nat)
    | Retiring(ids: seq<nat>, client: nat)

  /**
    Locks and what is done under them. `heartbeats`: generations through which a
    heartbeat is being sent; `ids`: the client ID of each generation;
    `lifecycle`: the lifecycle locks held, by ID; `removing`: the generations
    whose exhaustion removal has been started and is not over.
  */
  datatype Locks = Locks(
    heartbeats: set<nat>,
    expiry: Expiry,
    ids: seq<nat>,
    lifecycle: map<nat, Inside>,
    removing: set<nat>)

  /** `pushed`, `sends` and `place` (where each event was put last) are histories that no step consults. */
  datatype State = State(
    cfg: Config,
    line: Line,
    sendClosed: bool,
    retries: Retries,
    stopped: bool,
    workers: seq<Worker>,
    scheduler: Scheduler,
    publishers: map<nat, ClientEvent>,
    flush: Flush,
    inactive: set<nat>,
    complete: set<nat>,
    removals: multiset<nat>,
    locks: Locks,
    now: int,
    nextId: nat,
    pushed: seq<seq<nat>>,
    sends: seq<Send>,
    place: map<nat, Place>)

  datatype WorkerAction =
    | Pop
    | Exit
    | TurnComes
    | Check(current: bool)
    | BeginSend
    | EndSend(outcome: Outcome)
    | Judge(current: bool)
    | Leave
    | SetDelay
    | Schedule(back: Option<ClientEvent>)
    | HoldDue
    | HoldDrop(current: bool)

  datatype SchedulerAction = PopDue(at: int, event: ClientEvent) | JudgeDue(current: bool) | PushDue | End

  datatype PublisherAction = Publish(client: nat, replayable: bool) | PushNew | GiveUp

  datatype FlushAction =
    | Start
    | Drain
    | Take
    | FlushTurn
    | FlushCheck(current: bool)
    | FlushBegin
    | FlushReturn(outcome: Outcome)
    | FlushLeave
    | Complete

  datatype OtherAction =
    | OpenClient(complete: bool, id: nat)
    | Retire(client: nat)
    | RemoveQueued(client: nat, replayableOnly: bool)
    | RemoveRetries(client: nat, replayableOnly: bool)
    | Tick(now: int)
    | CloseSend
    | CloseRetry
    | Stop

  datatype ExpiryAction =
    | ScanBegin(clients: seq<nat>)
    | WriterWaits
    | ScanNext
    | ScanEnd(found: seq<nat>)
    | Enter(client: nat)
    | FindNone
    | Age(stale: bool)
    | Remove
    | Sleep

  datatype LockAction =
    | HeartbeatBegin(client: nat)
    | HeartbeatEnd(client: nat)
    | Expire(expiry: ExpiryAction)
    | EnterLifecycle(id: nat)
    | WantMutex(id: nat, client: nat)
    | HaveMutex(id: nat)
    | LeaveLifecycle(id: nat, asks: bool)
    | RemovalEnds(client: nat, acts: bool)

  datatype Step =
    | ByWorker(w: nat, worker: WorkerAction)
    | ByScheduler(scheduler: SchedulerAction)
    | ByPublisher(p: nat, publisher: PublisherAction)
    | ByFlush(flush: FlushAction)
    | ByOthers(other: OtherAction)
    | ByLocks(lock: LockAction)

  ghost predicate Init(s: State) {
    && 1 <= s.cfg.attempts && 1 <= s.cfg.sendCapacity && 1 <= s.retries.capacity
    && s.line == Line([], []) && !s.sendClosed && !s.stopped
    && s.retries.items == multiset{} && s.retries.sequence == 0 && !s.retries.closed
    && |s.workers| >= 1 && (forall w :: 0 <= w < |s.workers| ==> s.workers[w].Idle?)
    && s.scheduler.Resting? && s.publishers == map[] && s.flush.NotStarted?
    && s.inactive == {} && s.complete == {} && s.removals == multiset{}
    && s.locks == Locks({}, Asleep, [], map[], {})
    && s.nextId == 0 && s.pushed == [] && s.sends == [] && s.place == map[]
  }

  // ------------------------------------------------------------------ helpers

  predicate Drained(f: Flush) {
    !f.NotStarted? && !f.Cleared?
  }

  function SendQueueSize(s: State): (n: nat) {
    if Drained(s.flush) then 0 else |s.line.items|
  }

  function SetWorker(s: State, w: nat, x: Worker): (r: State)
    requires w < |s.workers|
  {
    s.(workers := s.workers[w := x])
  }

  /** `CompareAndSwap(false, true)` on `inactive`; success starts one removal, in a goroutine of its own. */
  function Exhaust(s: State, client: nat): (r: State) {
    if client in s.inactive then s
    else s.(inactive := s.inactive + {client}, removals := s.removals + multiset{client},
            locks := s.locks.(removing := s.locks.removing + {client}))
  }

  /** The end of `send`: a completing success or a closed connection retires the generation. */
  function AfterSend(s: State, client: nat, outcome: Outcome): (r: State) {
    if (outcome.Delivered? && client in s.complete) || outcome.ConnectionClosed? then s.(inactive := s.inactive + {client})
    else s
  }

  function PushNow(s: State, e: ClientEvent): (r: State)
    requires e.client < |s.line.books| == |s.pushed|
  {
    s.(line := Append(s.line, e),
       pushed := s.pushed[e.client := s.pushed[e.client] + [e.id]],
       place := s.place[e.id := InLine])
  }

  function Record(s: State, e: ClientEvent, ticket: Ticket): (r: State) {
    s.(sends := s.sends + [Send(e.id, e.client, e.attempts, if ticket.NoTicket? then None else Some(e.sendOrder))])
  }

  /** The event with the due time of its next attempt, computed at time `at`. */
  function WithDueTime(cfg: Config, e: ClientEvent, at: int): (r: ClientEvent) {
    e.(retryAfter := at + Backoff.Delay(cfg.retryBase, cfg.retryMax, e.attempts))
  }

  predicate HasRoom(s: State) {
    !s.sendClosed && |s.line.items| < s.cfg.sendCapacity
  }

  predicate WorkerIn(s: State, w: nat, phase: Phase) {
    w < |s.workers| && s.workers[w].Busy? && s.workers[w].phase == phase
  }

  function MoveOn(s: State, w: nat, phase: Phase): (r: State)
    requires w < |s.workers| && s.workers[w].Busy?
  {
    SetWorker(s, w, s.workers[w].(phase := phase))
  }

  function FinishTicket(s: State, e: ClientEvent, ticket: Ticket): (r: State)
    requires e.client < |s.line.books|
  {
    if ticket.NoTicket? then s
    else s.(line := s.line.(books := s.line.books[e.client := Finish(s.line.books[e.client], e.sendOrder)]))
  }

  // -------------------------------------------------------------------- locks

  predicate Sends(w: Worker, client: nat) {
    w.Busy? && w.phase.Sending? && w.event.client == client
  }

  /** Nobody is inside `Connection.Send` of this generation: its mutex, held throughout that call, is free. */
  predicate MutexFree(s: State, client: nat) {
    && client !in s.locks.heartbeats
    && !(s.flush.Flushing? && s.flush.phase.Sending? && s.flush.event.client == client)
    && forall w :: 0 <= w < |s.workers| ==> !Sends(s.workers[w], client)
  }

  /** The bus lock can be taken for reading. Only the expiration loop holds it while it waits for something. */
  predicate BusFree(s: State) {
    !(s.locks.expiry.Scanning? && s.locks.expiry.writer) && !s.locks.expiry.Aging?
  }

  /** The generation whose mutex the expiration loop wants. */
  function WantedBy(x: Expiry): (client: Option<nat>) {
    match x
    case Scanning(rest, _) => if rest == [] then None else Some(rest[0])
    case Aging(_, client) => Some(client)
    case Retiring(_, client) => Some(client)
    case _ => None
  }

  predicate WantedIsFree(s: State) {
    WantedBy(s.locks.expiry).Some? ==> MutexFree(s, WantedBy(s.locks.expiry).value)
  }

  /** The publisher inside the lifecycle lock of this generation's ID goes on. */
  function Resume(l: Locks, client: nat): (r: Locks) {
    if client < |l.ids| then l.(lifecycle := l.lifecycle[l.ids[client] := Running]) else l
  }

  predicate IdIsAt(l: Locks, id: nat, place: Inside) {
    id in l.lifecycle && l.lifecycle[id] == place
  }

  /** The expiration loop is done with the first of `ids`, and leaves its lifecycle lock. */
  function NextToExpire(l: Locks, ids: seq<nat>): (r: Locks)
    requires ids != []
  {
    l.(expiry := Wanting(ids[1..]), lifecycle := l.lifecycle - {ids[0]})
  }

  predicate ExpiryStep(s: State, l': Locks, action: ExpiryAction) {
    var l := s.locks;
    match action
    case ScanBegin(clients) => l.expiry.Asleep? && s.flush.NotStarted? && l' == l.(expiry := Scanning(clients, false))
    case WriterWaits => l.expiry.Scanning? && l' == l.(expiry := Scanning(l.expiry.rest, true))
    case ScanNext =>
      && l.expiry.Scanning? && l.expiry.rest != [] && WantedIsFree(s)
      && l' == l.(expiry := Scanning(l.expiry.rest[1..], l.expiry.writer))
    case ScanEnd(found) => l.expiry.Scanning? && l.expiry.rest == [] && l' == l.(expiry := Wanting(found))
    case Enter(client) =>
      && l.expiry.Wanting? && l.expiry.ids != [] && l.expiry.ids[0] !in l.lifecycle
      && l' == l.(expiry := Aging(l.expiry.ids, client), lifecycle := l.lifecycle[l.expiry.ids[0] := AtExpiry])
    case FindNone =>
      && l.expiry.Wanting? && l.expiry.ids != [] && l.expiry.ids[0] !in l.lifecycle
      && l' == l.(expiry := Wanting(l.expiry.ids[1..]))
    case Age(stale) =>
      && l.expiry.Aging? && l.expiry.ids != [] && WantedIsFree(s)
      && l' == if stale then l.(expiry := Retiring(l.expiry.ids, l.expiry.client)) else NextToExpire(l, l.expiry.ids)
    case Remove => l.expiry.Retiring? && l.expiry.ids != [] && WantedIsFree(s) && l' == NextToExpire(l, l.expiry.ids)
    case Sleep => l.expiry == Wanting([]) && l' == l.(expiry := Asleep)
  }

  /** What heartbeats, expiration, lifecycle operations and removals do with locks. */
  predicate LockStep(s: State, l': Locks, action: LockAction) {
    var l := s.locks;
    match action
    case HeartbeatBegin(g) =>
      MutexFree(s, g) && g !in s.inactive && s.flush.NotStarted? && l' == l.(heartbeats := l.heartbeats + {g})
    case HeartbeatEnd(g) => g in l.heartbeats && l' == l.(heartbeats := l.heartbeats - {g})
    case Expire(a) => ExpiryStep(s, l', a)
    case EnterLifecycle(id) => id !in l.lifecycle && l' == l.(lifecycle := l.lifecycle[id := Running])
    case WantMutex(id, g) => IdIsAt(l, id, Running) && l' == l.(lifecycle := l.lifecycle[id := AtMutex(g)])
    case HaveMutex(id) =>
      && id in l.lifecycle && l.lifecycle[id].AtMutex? && MutexFree(s, l.lifecycle[id].client)
      && l' == l.(lifecycle := l.lifecycle[id := Running])
    // `asks`: before leaving, the caller takes the bus lock.
    case LeaveLifecycle(id, asks) =>
      IdIsAt(l, id, Running) && (asks ==> BusFree(s)) && l' == l.(lifecycle := l.lifecycle - {id})
    // A removal that finds its generation replaced ends without retiring it.
    case RemovalEnds(g, acts) =>
      && g in l.removing && g < |l.ids| && l.ids[g] !in l.lifecycle && BusFree(s) && (acts ==> MutexFree(s, g))
      && l' == l.(removing := l.removing - {g})
  }

  predicate LockNext(s: State, s': State, action: LockAction) {
    s' == s.(locks := s'.locks) && LockStep(s, s'.locks, action)
  }

  // ---------------------------------------------- the rest of the bus, and time

  predicate OpenClientStep(s: State, s': State, complete: bool, id: nat) {
    s' == s.(locks := s.locks.(ids := s.locks.ids + [id]),
             line := s.line.(books := s.line.books + [EMPTY_BOOK]), pushed := s.pushed + [[]],
             complete := if complete then s.complete + {|s.line.books|} else s.complete)
  }

  predicate RemoveQueuedStep(s: State, s': State, client: nat, replayableOnly: bool) {
    && KnownClients(s.line.items, s.line.books)
    && s' == if Drained(s.flush) then s else s.(line := Discard(s.line, Pending(client, replayableOnly)))
  }

  ghost predicate RemoveRetriesStep(s: State, s': State, client: nat, replayableOnly: bool) {
    && Removed(s.retries, Pending(client, replayableOnly), s'.retries)
    && s' == s.(retries := s'.retries)
  }

  // --------------------------------------------------------------- publishers

  predicate PublishStep(s: State, s': State, p: nat, client: nat, replayable: bool) {
    && p !in s.publishers && client < |s.line.books|
    && client < |s.locks.ids| && IdIsAt(s.locks, s.locks.ids[client], Running)
    && s' == s.(locks := s.locks.(lifecycle := s.locks.lifecycle[s.locks.ids[client] := AtQueue(p)]),
                publishers := s.publishers[p := ClientEvent(s.nextId, client, replayable, 0, 0, 0, 0)],
                nextId := s.nextId + 1, place := s.place[s.nextId := AtPublisher(p)])
  }

  predicate PublisherPushStep(s: State, s': State, p: nat) {
    && p in s.publishers && HasRoom(s) && s.publishers[p].client < |s.line.books| == |s.pushed|
    && s' == PushNow(s, s.publishers[p]).(publishers := s.publishers - {p},
                                          locks := Resume(s.locks, s.publishers[p].client))
  }

  predicate PublisherGivesUpStep(s: State, s': State, p: nat) {
    p in s.publishers && s' == s.(publishers := s.publishers - {p}, locks := Resume(s.locks, s.publishers[p].client))
  }

  // ------------------------------------------------------------- send workers

  predicate PopStep(s: State, s': State, w: nat) {
    && w < |s.workers| && s.workers[w].Idle? && !s.sendClosed && s.line.items != []
    && var e := s.line.items[0];
       s' == SetWorker(s, w, Busy(Waiting, e, Wanted)).(line := s.line.(items := s.line.items[1..]),
                               place := s.place[e.id := AtWorker(w)])
  }

  predicate ExitStep(s: State, s': State, w: nat) {
    w < |s.workers| && s.workers[w].Idle? && s.sendClosed && s' == SetWorker(s, w, Exited)
  }

  /** `waitForTurn` returns: true when it is this event's turn, false (never, as it turns out) when it is past. */
  predicate TurnComesStep(s: State, s': State, w: nat) {
    && WorkerIn(s, w, Waiting) && s.workers[w].event.client < |s.line.books|
    && var e := s.workers[w].event;
       && e.sendOrder <= s.line.books[e.client].nextTurn
       && s' == SetWorker(s, w, if e.sendOrder == s.line.books[e.client].nextTurn then Busy(Checking, e, Granted) else Idle)
  }

  predicate CheckStep(s: State, s': State, w: nat, current: bool) {
    && WorkerIn(s, w, Checking) && BusFree(s)
    && var e := s.workers[w].event;
       s' == if !current || e.client in s.inactive then MoveOn(s, w, Leaving(false))
             else if e.attempts < s.cfg.attempts then MoveOn(s, w, Ready)
             else MoveOn(Exhaust(s, e.client), w, Leaving(false))
  }

  predicate BeginSendStep(s: State, s': State, w: nat) {
    && WorkerIn(s, w, Ready) && MutexFree(s, s.workers[w].event.client)
    && var Busy(_, e, ticket) := s.workers[w];
       s' == if e.client in s.inactive then MoveOn(s, w, Leaving(false))
             else var e' := e.(attempts := e.attempts + 1);
                  SetWorker(Record(s, e', ticket), w, Busy(Sending, e', if ticket.NoTicket? then NoTicket else Used))
  }

  predicate EndSendStep(s: State, s': State, w: nat, outcome: Outcome) {
    && WorkerIn(s, w, Sending)
    && s' == MoveOn(AfterSend(s, s.workers[w].event.client, outcome), w, Returned(!outcome.Delivered?))
  }

  predicate JudgeStep(s: State, s': State, w: nat, current: bool) {
    && w < |s.workers| && s.workers[w].Busy? && s.workers[w].phase.Returned? && (s.workers[w].phase.failed ==> BusFree(s))
    && var e := s.workers[w].event;
       s' == if !s.workers[w].phase.failed || !current || e.client in s.inactive then MoveOn(s, w, Leaving(false))
             else if e.attempts < s.cfg.attempts then MoveOn(s, w, Leaving(true))
             else MoveOn(Exhaust(s, e.client), w, Leaving(false))
  }

  /** `attempt` has returned; `finishTurn` if the event came from the send queue. */
  predicate LeaveStep(s: State, s': State, w: nat) {
    && w < |s.workers| && s.workers[w].Busy? && s.workers[w].phase.Leaving?
    && s.workers[w].event.client < |s.line.books|
    && var Busy(phase, e, ticket) := s.workers[w];
       s' == SetWorker(FinishTicket(s, e, ticket), w, if phase.retry then Busy(Delaying, e, NoTicket) else Idle)
  }

  /** The worker reads the clock and sets the due time of the next attempt. */
  predicate SetDelayStep(s: State, s': State, w: nat) {
    && WorkerIn(s, w, Delaying)
    && s' == SetWorker(s, w, Busy(Scheduling, WithDueTime(s.cfg, s.workers[w].event, s.now), NoTicket))
  }

  ghost predicate ScheduleStep(s: State, s': State, w: nat, back: Option<ClientEvent>) {
    && WorkerIn(s, w, Scheduling)
    && var e := s.workers[w].event;
       if s.retries.closed then s' == SetWorker(s, w, Exited)
       else
         && Scheduled(s.retries, e, s'.retries, back)
         && s' == SetWorker(s, w, if back.Some? then Busy(Holding, back.value, NoTicket) else Idle)
                  .(retries := s'.retries,
                    place := if back.Some? then s.place[e.id := InHeap][back.value.id := AtWorker(w)]
                             else s.place[e.id := InHeap])
  }

  /** `waitForRetry` returns true. */
  predicate HoldDueStep(s: State, s': State, w: nat) {
    WorkerIn(s, w, Holding) && BusFree(s) && s.workers[w].event.retryAfter <= s.now && s' == MoveOn(s, w, Checking)
  }

  /** `waitForRetry` returns false. */
  predicate HoldDropStep(s: State, s': State, w: nat, current: bool) {
    && WorkerIn(s, w, Holding) && BusFree(s) && (!current || s.workers[w].event.client in s.inactive || s.stopped)
    && s' == SetWorker(s, w, Idle)
  }

  // ---------------------------------------------------------- retry scheduler

  ghost predicate SchedulerPopStep(s: State, s': State, at: int, e: ClientEvent) {
    && s.scheduler.Resting? && !s.retries.closed && at <= s.now
    && Popped(s.retries, at, s'.retries, Some(e))
    && s' == s.(scheduler := Judging(e), retries := s'.retries, place := s.place[e.id := AtScheduler])
  }

  predicate SchedulerJudgeStep(s: State, s': State, current: bool) {
    s.scheduler.Judging? && BusFree(s) && s' == s.(scheduler := if current then Pushing(s.scheduler.event) else Resting)
  }

  predicate SchedulerPushStep(s: State, s': State) {
    && s.scheduler.Pushing? && HasRoom(s) && s.scheduler.event.client < |s.line.books| == |s.pushed|
    && s' == PushNow(s, s.scheduler.event).(scheduler := Resting)
  }

  predicate SchedulerEndStep(s: State, s': State) {
    && ((s.scheduler.Resting? && (s.retries.closed || s.stopped)) || (s.scheduler.Pushing? && s.sendClosed))
    && s' == s.(scheduler := Ended)
  }

  // ----------------------------------------------------------------- shutdown

  predicate FlushStartStep(s: State, s': State) {
    && s.flush.NotStarted? && s.stopped && s.scheduler.Ended?
    && s.locks.removing == {} && s.locks.heartbeats == {} && s.locks.expiry.Asleep?
    && (forall w :: 0 <= w < |s.workers| ==> s.workers[w].Exited?)
    && s' == s.(flush := Cleared, retries := s.retries.(items := multiset{}))
  }

  predicate FlushTakeStep(s: State, s': State) {
    && s.flush.Draining? && s.line.items != []
    && var e := s.line.items[0];
       s' == s.(flush := Flushing(Waiting, e, Wanted), line := s.line.(items := s.line.items[1..]),
                               place := s.place[e.id := AtFlush])
  }

  predicate FlushIn(s: State, phase: Phase) {
    s.flush.Flushing? && s.flush.phase == phase
  }

  predicate FlushTurnStep(s: State, s': State) {
    && FlushIn(s, Waiting) && s.flush.event.client < |s.line.books|
    && var e := s.flush.event;
       && e.sendOrder <= s.line.books[e.client].nextTurn
       && s' == s.(flush := if e.sendOrder == s.line.books[e.client].nextTurn then Flushing(Checking, e, Granted) else Draining)
  }

  predicate FlushCheckStep(s: State, s': State, current: bool) {
    && FlushIn(s, Checking) && BusFree(s)
    && s' == s.(flush := s.flush.(phase := if current && s.flush.event.attempts < s.cfg.attempts then Ready else Leaving(false)))
  }

  predicate FlushBeginStep(s: State, s': State) {
    && FlushIn(s, Ready) && MutexFree(s, s.flush.event.client)
    && var e := s.flush.event;
       s' == if e.client in s.inactive then s.(flush := s.flush.(phase := Leaving(false)))
             else var e' := e.(attempts := e.attempts + 1); Record(s, e', Used).(flush := Flushing(Sending, e', Used))
  }

  predicate FlushReturnStep(s: State, s': State, outcome: Outcome) {
    && FlushIn(s, Sending)
    && s' == AfterSend(s, s.flush.event.client, outcome).(flush := s.flush.(phase := Leaving(false)))
  }

  predicate FlushLeaveStep(s: State, s': State) {
    && FlushIn(s, Leaving(false)) && s.flush.event.client < |s.line.books|
    && s' == FinishTicket(s, s.flush.event, s.flush.ticket).(flush := Draining)
  }

  predicate FlushEndStep(s: State, s': State) {
    s.flush.Draining? && s.line.items == [] && s' == s.(flush := Flushed)
  }

  // ---------------------------------------------------------------- all steps

  ghost predicate WorkerActs(s: State, s': State, w: nat, action: WorkerAction) {
    match action
    case Pop => PopStep(s, s', w)
    case Exit => ExitStep(s, s', w)
    case TurnComes => TurnComesStep(s, s', w)
    case Check(current) => CheckStep(s, s', w, current)
    case BeginSend => BeginSendStep(s, s', w)
    case EndSend(outcome) => EndSendStep(s, s', w, outcome)
    case Judge(current) => JudgeStep(s, s', w, current)
    case Leave => LeaveStep(s, s', w)
    case SetDelay => SetDelayStep(s, s', w)
    case Schedule(back) => ScheduleStep(s, s', w, back)
    case HoldDue => HoldDueStep(s, s', w)
    case HoldDrop(current) => HoldDropStep(s, s', w, current)
  }

  /** The frame of a worker's step. */
  ghost predicate OnlyWorker(s: State, s': State, w: nat) {
    && w < |s.workers| && |s'.workers| == |s.workers| && s'.workers == s.workers[w := s'.workers[w]]
    && !s.workers[w].Exited?
    && s'.sendClosed == s.sendClosed && s'.stopped == s.stopped && s'.retries.closed == s.retries.closed
    && s'.scheduler == s.scheduler && s'.publishers == s.publishers && s'.flush == s.flush && s'.cfg == s.cfg
    && s'.locks == s.locks.(removing := s'.locks.removing)
  }

  lemma WaitsWithinFrame(s: State, s': State, w: nat)
    requires PopStep(s, s', w) || ExitStep(s, s', w) || TurnComesStep(s, s', w)
    ensures OnlyWorker(s, s', w)
  {}

  lemma HoldsWithinFrame(s: State, s': State, w: nat, current: bool)
    requires HoldDueStep(s, s', w) || HoldDropStep(s, s', w, current)
    ensures OnlyWorker(s, s', w)
  {}

  lemma BeginWithinFrame(s: State, s': State, w: nat)
    requires BeginSendStep(s, s', w)
    ensures OnlyWorker(s, s', w)
  {}

  lemma EndWithinFrame(s: State, s': State, w: nat, outcome: Outcome)
    requires EndSendStep(s, s', w, outcome)
    ensures OnlyWorker(s, s', w)
  {}

  lemma CheckWithinFrame(s: State, s': State, w: nat, current: bool)
    requires CheckStep(s, s', w, current)
    ensures OnlyWorker(s, s', w)
  {}

  lemma JudgeWithinFrame(s: State, s': State, w: nat, current: bool)
    requires JudgeStep(s, s', w, current)
    ensures OnlyWorker(s, s', w)
  {}

  lemma LeavesWithinFrame(s: State, s': State, w: nat)
    requires LeaveStep(s, s', w)
    ensures OnlyWorker(s, s', w)
  {}

  lemma ScheduleWithinFrame(s: State, s': State, w: nat, back: Option<ClientEvent>)
    requires ScheduleStep(s, s', w, back)
    ensures OnlyWorker(s, s', w)
  {}

  /** The steps stay within the frame, so `WorkerNext` may name it. */
  lemma ActsWithinFrame(s: State, s': State, w: nat, action: WorkerAction)
    requires WorkerActs(s, s', w, action)
    ensures OnlyWorker(s, s', w)
  {
    match action
    case Pop => WaitsWithinFrame(s, s', w);
    case Exit => WaitsWithinFrame(s, s', w);
    case TurnComes => WaitsWithinFrame(s, s', w);
    case Check(current) => CheckWithinFrame(s, s', w, current);
    case BeginSend => BeginWithinFrame(s, s', w);
    case EndSend(outcome) => EndWithinFrame(s, s', w, outcome);
    case Judge(current) => JudgeWithinFrame(s, s', w, current);
    case Leave => LeavesWithinFrame(s, s', w);
    case SetDelay => assert SetDelayStep(s, s', w);
    case Schedule(back) => ScheduleWithinFrame(s, s', w, back);
    case HoldDue => HoldsWithinFrame(s, s', w, true);
    case HoldDrop(current) => HoldsWithinFrame(s, s', w, current);
  }

  ghost predicate WorkerNext(s: State, s': State, w: nat, action: WorkerAction) {
    OnlyWorker(s, s', w) && WorkerActs(s, s', w, action)
  }

  ghost predicate SchedulerNext(s: State, s': State, action: SchedulerAction) {
    match action
    case PopDue(at, e) => SchedulerPopStep(s, s', at, e)
    case JudgeDue(current) => SchedulerJudgeStep(s, s', current)
    case PushDue => SchedulerPushStep(s, s')
    case End => SchedulerEndStep(s, s')
  }

  ghost predicate PublisherNext(s: State, s': State, p: nat, action: PublisherAction) {
    match action
    case Publish(client, replayable) => PublishStep(s, s', p, client, replayable)
    case PushNew => PublisherPushStep(s, s', p)
    case GiveUp => PublisherGivesUpStep(s, s', p)
  }

  ghost predicate FlushNext(s: State, s': State, action: FlushAction) {
    match action
    case Start => FlushStartStep(s, s')
    case Drain => s.flush.Cleared? && s' == s.(flush := Draining)
    case Take => FlushTakeStep(s, s')
    case FlushTurn => FlushTurnStep(s, s')
    case FlushCheck(current) => FlushCheckStep(s, s', current)
    case FlushBegin => FlushBeginStep(s, s')
    case FlushReturn(outcome) => FlushReturnStep(s, s', outcome)
    case FlushLeave => FlushLeaveStep(s, s')
    case Complete => FlushEndStep(s, s')
  }

  ghost predicate OtherNext(s: State, s': State, action: OtherAction) {
    match action
    case OpenClient(complete, id) => OpenClientStep(s, s', complete, id)
    case Retire(client) => s' == s.(inactive := s.inactive + {client})
    case RemoveQueued(client, replayableOnly) => RemoveQueuedStep(s, s', client, replayableOnly)
    case RemoveRetries(client, replayableOnly) => RemoveRetriesStep(s, s', client, replayableOnly)
    case Tick(now) => s.now <= now && s' == s.(now := now)
    case CloseSend => s' == s.(sendClosed := true)
    case CloseRetry => s.sendClosed && s' == s.(retries := s.retries.(closed := true))
    case Stop => s.retries.closed && s' == s.(stopped := true)
  }

  ghost predicate Next(s: State, s': State, step: Step) {
    match step
    case ByWorker(w, action) => WorkerNext(s, s', w, action)
    case ByScheduler(action) => SchedulerNext(s, s', action)
    case ByPublisher(p, action) => PublisherNext(s, s', p, action)
    case ByFlush(action) => FlushNext(s, s', action)
    case ByOthers(action) => OtherNext(s, s', action)
    case ByLocks(action) => LockNext(s, s', action)
  }
}
