/**
  Who holds which event, and how often it has been sent: in every state of the
  delivery engine each event is in one place, and the number of its sends is
  what its attempt counter says.
*/
module DeliveryOwnership {
  import opened Options
  import opened Line
  import opened Retries
  import opened Delivery

  ghost function Count(sends: seq<Send>, id: nat): (n: nat) {
    if sends == [] then 0
    else Count(sends[..|sends| - 1], id) + if sends[|sends| - 1].id == id then 1 else 0
  }

  lemma CountAppend(sends: seq<Send>, last: Send, id: nat)
    ensures Count(sends + [last], id) == Count(sends, id) + if last.id == id then 1 else 0
  {
    assert (sends + [last])[..|sends|] == sends;
  }

  /** What the places below are checked against. */
  datatype Ledger = Ledger(nextId: nat, clients: nat, maximum: nat, place: map<nat, Place>, sends: seq<Send>)

  ghost function LedgerOf(s: State): (l: Ledger) {
    Ledger(s.nextId, |s.line.books|, s.cfg.attempts, s.place, s.sends)
  }

  ghost predicate HeldAt(l: Ledger, e: ClientEvent, p: Place) {
    && e.id < l.nextId && e.client < l.clients
    && e.id in l.place && l.place[e.id] == p
    && Count(l.sends, e.id) == e.attempts
  }

  predicate PhaseOk(phase: Phase, e: ClientEvent, ticket: Ticket, maximum: nat) {
    match phase
    case Waiting => ticket.Wanted? && e.attempts < maximum
    case Checking => (ticket.Granted? || (ticket.NoTicket? && 1 <= e.attempts)) && e.attempts < maximum
    case Ready => (ticket.Granted? || (ticket.NoTicket? && 1 <= e.attempts)) && e.attempts < maximum
    case Sending => (ticket.Used? || ticket.NoTicket?) && 1 <= e.attempts <= maximum
    case Returned(_) => (ticket.Used? || ticket.NoTicket?) && 1 <= e.attempts <= maximum
    case Leaving(retry) => !ticket.Wanted? && e.attempts <= maximum && (retry ==> 1 <= e.attempts < maximum)
    case Delaying => ticket.NoTicket? && 1 <= e.attempts < maximum
    case Scheduling => ticket.NoTicket? && 1 <= e.attempts < maximum
    case Holding => ticket.NoTicket? && 1 <= e.attempts < maximum
  }

  ghost predicate ItemsHeld(l: Ledger, items: seq<ClientEvent>) {
    && (forall i :: 0 <= i < |items| ==> HeldAt(l, items[i], InLine) && items[i].attempts < l.maximum)
    && DistinctIds(items)
  }

  ghost predicate HeapHeld(l: Ledger, heap: multiset<ClientEvent>) {
    && (forall e :: e in heap ==> HeldAt(l, e, InHeap) && 1 <= e.attempts < l.maximum && heap[e] == 1)
    && (forall a, b :: a in heap && b in heap && a.id == b.id ==> a == b)
  }

  ghost predicate WorkersHeld(l: Ledger, workers: seq<Worker>) {
    forall w :: 0 <= w < |workers| && workers[w].Busy? ==>
      HeldAt(l, workers[w].event, AtWorker(w))
      && PhaseOk(workers[w].phase, workers[w].event, workers[w].ticket, l.maximum)
  }

  ghost predicate SchedulerHeld(l: Ledger, x: Scheduler) {
    x.Judging? || x.Pushing? ==> HeldAt(l, x.event, AtScheduler) && 1 <= x.event.attempts < l.maximum
  }

  ghost predicate PublishersHeld(l: Ledger, publishers: map<nat, ClientEvent>) {
    forall p :: p in publishers ==> HeldAt(l, publishers[p], AtPublisher(p)) && publishers[p].attempts == 0
  }

  ghost predicate FlushHeld(l: Ledger, f: Flush) {
    f.Flushing? ==>
      && HeldAt(l, f.event, AtFlush) && PhaseOk(f.phase, f.event, f.ticket, l.maximum)
      && !f.ticket.NoTicket? && (f.phase.Leaving? ==> !f.phase.retry)
      && !f.phase.Returned? && !f.phase.Delaying? && !f.phase.Scheduling? && !f.phase.Holding?
  }

  ghost predicate SendsBounded(l: Ledger) {
    && 1 <= l.maximum
    && (forall id :: Count(l.sends, id) <= l.maximum)
    && (forall id :: l.nextId <= id ==> Count(l.sends, id) == 0)
    && (forall id :: id in l.place ==> id < l.nextId)
  }

  ghost predicate HeldInv(s: State) {
    var l := LedgerOf(s);
    && ItemsHeld(l, s.line.items) && HeapHeld(l, s.retries.items) && WorkersHeld(l, s.workers)
    && SchedulerHeld(l, s.scheduler) && PublishersHeld(l, s.publishers) && FlushHeld(l, s.flush)
    && SendsBounded(l)
  }

  // ----------------------------------------------------------------- framing

  /** `l'` differs from `l` only in what it says about the events `ids`. */
  ghost predicate OnlyAbout(l: Ledger, l': Ledger, ids: set<nat>) {
    && l'.maximum == l.maximum && l.nextId <= l'.nextId && l.clients <= l'.clients
    && (forall id :: id !in ids && id in l.place ==> id in l'.place && l'.place[id] == l.place[id])
    && (forall id :: id !in ids ==> Count(l'.sends, id) == Count(l.sends, id))
  }

  lemma HeldFrame(l: Ledger, l': Ledger, ids: set<nat>, e: ClientEvent, p: Place)
    requires OnlyAbout(l, l', ids) && HeldAt(l, e, p) && e.id !in ids
    ensures HeldAt(l', e, p)
  {}

  predicate AwayFrom(place: map<nat, Place>, id: nat, p: Place) {
    id !in place || place[id] != p
  }

  lemma FramePlaces(s: State, l': Ledger, id: nat)
    requires HeldInv(s) && OnlyAbout(LedgerOf(s), l', {id})
    ensures AwayFrom(s.place, id, InLine) ==> ItemsHeld(l', s.line.items)
    ensures AwayFrom(s.place, id, InHeap) ==> HeapHeld(l', s.retries.items)
    ensures AwayFrom(s.place, id, AtScheduler) ==> SchedulerHeld(l', s.scheduler)
    ensures AwayFrom(s.place, id, AtFlush) ==> FlushHeld(l', s.flush)
  {}

  lemma FrameHands(s: State, l': Ledger, id: nat)
    requires HeldInv(s) && OnlyAbout(LedgerOf(s), l', {id})
    ensures forall w :: 0 <= w < |s.workers| && s.workers[w].Busy? && AwayFrom(s.place, id, AtWorker(w)) ==>
              HeldAt(l', s.workers[w].event, AtWorker(w))
    ensures forall p :: p in s.publishers && AwayFrom(s.place, id, AtPublisher(p)) ==>
              HeldAt(l', s.publishers[p], AtPublisher(p))
  {}

  /** A change to what is known about one event leaves every place that does not hold it as it was. */
  lemma Frame(s: State, l': Ledger, id: nat)
    requires HeldInv(s) && OnlyAbout(LedgerOf(s), l', {id})
    ensures AwayFrom(s.place, id, InLine) ==> ItemsHeld(l', s.line.items)
    ensures AwayFrom(s.place, id, InHeap) ==> HeapHeld(l', s.retries.items)
    ensures AwayFrom(s.place, id, AtScheduler) ==> SchedulerHeld(l', s.scheduler)
    ensures AwayFrom(s.place, id, AtFlush) ==> FlushHeld(l', s.flush)
    ensures forall w :: 0 <= w < |s.workers| && s.workers[w].Busy? && AwayFrom(s.place, id, AtWorker(w)) ==>
              HeldAt(l', s.workers[w].event, AtWorker(w))
    ensures forall p :: p in s.publishers && AwayFrom(s.place, id, AtPublisher(p)) ==>
              HeldAt(l', s.publishers[p], AtPublisher(p))
  {
    FramePlaces(s, l', id);
    FrameHands(s, l', id);
  }

  // ------------------------------------------------------------------- steps

  /** The same event, as far as ownership and attempts go. */
  predicate SameEvent(a: ClientEvent, b: ClientEvent) {
    a.id == b.id && a.client == b.client && a.attempts == b.attempts
  }

  /** A worker goes on with the event it has, or lets go of it. */
  lemma WorkerGoesOn(s: State, s': State, w: nat)
    requires HeldInv(s) && w < |s.workers| == |s'.workers| && s'.workers == s.workers[w := s'.workers[w]]
    requires s'.workers[w].Busy? ==>
      && s.workers[w].Busy? && SameEvent(s'.workers[w].event, s.workers[w].event)
      && PhaseOk(s'.workers[w].phase, s'.workers[w].event, s'.workers[w].ticket, s.cfg.attempts)
    requires LedgerOf(s') == LedgerOf(s)
    requires s'.line.items == s.line.items && s'.retries == s.retries && s'.scheduler == s.scheduler
    requires s'.publishers == s.publishers && s'.flush == s.flush
    ensures HeldInv(s')
  {}

  lemma CheckHolds(s: State, s': State, w: nat, current: bool)
    requires HeldInv(s) && CheckStep(s, s', w, current)
    ensures HeldInv(s')
  {
    WorkerGoesOn(s, s', w);
  }

  lemma TurnComesHolds(s: State, s': State, w: nat)
    requires HeldInv(s) && TurnComesStep(s, s', w)
    ensures HeldInv(s')
  {
    WorkerGoesOn(s, s', w);
  }

  lemma EndSendHolds(s: State, s': State, w: nat, outcome: Outcome)
    requires HeldInv(s) && EndSendStep(s, s', w, outcome)
    ensures HeldInv(s')
  {
    WorkerGoesOn(s, s', w);
  }

  lemma JudgeHolds(s: State, s': State, w: nat, current: bool)
    requires HeldInv(s) && JudgeStep(s, s', w, current)
    ensures HeldInv(s')
  {
    WorkerGoesOn(s, s', w);
  }

  lemma LeaveHolds(s: State, s': State, w: nat)
    requires HeldInv(s) && LeaveStep(s, s', w)
    ensures HeldInv(s')
  {
    WorkerGoesOn(s, s', w);
  }

  lemma RestHeld(l: Ledger, l': Ledger, items: seq<ClientEvent>)
    requires items != [] && ItemsHeld(l, items) && OnlyAbout(l, l', {items[0].id})
    ensures ItemsHeld(l', items[1..])
  {
    forall i | 0 <= i < |items[1..]|
      ensures HeldAt(l', items[1..][i], InLine) && items[1..][i].attempts < l'.maximum
    {
      HeldFrame(l, l', {items[0].id}, items[i + 1], InLine);
    }
  }

  lemma PopHolds(s: State, s': State, w: nat)
    requires HeldInv(s) && PopStep(s, s', w)
    ensures HeldInv(s')
  {
    var e := s.line.items[0];
    var l' := LedgerOf(s');
    Frame(s, l', e.id);
    RestHeld(LedgerOf(s), l', s.line.items);
  }

  lemma RecordCounts(s: State, s': State, e: ClientEvent, last: Send)
    requires HeldInv(s) && e.id < s.nextId && last.id == e.id
    requires LedgerOf(s') == LedgerOf(s).(sends := s.sends + [last])
    requires Count(s.sends, e.id) == e.attempts < s.cfg.attempts
    ensures OnlyAbout(LedgerOf(s), LedgerOf(s'), {e.id}) && SendsBounded(LedgerOf(s'))
    ensures Count(s'.sends, e.id) == e.attempts + 1
  {
    forall id
      ensures Count(s'.sends, id) == Count(s.sends, id) + if e.id == id then 1 else 0
    {
      CountAppend(s.sends, last, id);
    }
  }

  lemma SendingHolds(s: State, s': State, w: nat)
    requires HeldInv(s) && BeginSendStep(s, s', w) && s.workers[w].event.client !in s.inactive
    ensures HeldInv(s')
  {
    var e := s.workers[w].event;
    RecordCounts(s, s', e, s'.sends[|s.sends|]);
    Frame(s, LedgerOf(s'), e.id);
    forall o | 0 <= o < |s.workers| && s'.workers[o].Busy?
      ensures HeldAt(LedgerOf(s'), s'.workers[o].event, AtWorker(o))
    {
      if o != w {
        assert s.workers[o].event.id != e.id;
      }
    }
  }

  lemma BeginSendHolds(s: State, s': State, w: nat)
    requires HeldInv(s) && BeginSendStep(s, s', w)
    ensures HeldInv(s')
  {
    if s.workers[w].event.client in s.inactive {
      WorkerGoesOn(s, s', w);
    } else {
      SendingHolds(s, s', w);
    }
  }

  lemma PushHolds(s: State, s': State, e: ClientEvent)
    requires HeldInv(s) && e.client < |s.line.books| == |s.pushed|
    requires e.id in s.place && HeldAt(LedgerOf(s), e, s.place[e.id]) && !s.place[e.id].InLine?
    requires e.attempts < s.cfg.attempts
    requires s'.line == PushNow(s, e).line && LedgerOf(s') == LedgerOf(PushNow(s, e))
    ensures OnlyAbout(LedgerOf(s), LedgerOf(s'), {e.id}) && SendsBounded(LedgerOf(s'))
    ensures ItemsHeld(LedgerOf(s'), s'.line.items)
  {
    Frame(s, LedgerOf(s'), e.id);
  }

  lemma PublisherPushHolds(s: State, s': State, p: nat)
    requires HeldInv(s) && PublisherPushStep(s, s', p)
    ensures HeldInv(s')
  {
    PushHolds(s, s', s.publishers[p]);
    Frame(s, LedgerOf(s'), s.publishers[p].id);
  }

  lemma SchedulerPushHolds(s: State, s': State)
    requires HeldInv(s) && SchedulerPushStep(s, s')
    ensures HeldInv(s')
  {
    PushHolds(s, s', s.scheduler.event);
    Frame(s, LedgerOf(s'), s.scheduler.event.id);
  }

  lemma PublishHolds(s: State, s': State, p: nat, client: nat, replayable: bool)
    requires HeldInv(s) && PublishStep(s, s', p, client, replayable)
    ensures HeldInv(s')
  {
    Frame(s, LedgerOf(s'), s.nextId);
  }

  lemma SchedulerPopHolds(s: State, s': State, at: int, e: ClientEvent)
    requires HeldInv(s) && SchedulerPopStep(s, s', at, e)
    ensures HeldInv(s')
  {
    Frame(s, LedgerOf(s'), e.id);
    forall x | x in s'.retries.items
      ensures x in s.retries.items && s'.retries.items[x] == 1 && HeldAt(LedgerOf(s'), x, InHeap)
    {
      HeldFrame(LedgerOf(s), LedgerOf(s'), {e.id}, x, InHeap);
    }
  }

  lemma FlushTakeHolds(s: State, s': State)
    requires HeldInv(s) && FlushTakeStep(s, s')
    ensures HeldInv(s')
  {
    var e := s.line.items[0];
    var l' := LedgerOf(s');
    Frame(s, l', e.id);
    RestHeld(LedgerOf(s), l', s.line.items);
  }

  lemma FlushSendingHolds(s: State, s': State)
    requires HeldInv(s) && FlushBeginStep(s, s') && s.flush.event.client !in s.inactive
    ensures HeldInv(s')
  {
    var l' := LedgerOf(s');
    RecordCounts(s, s', s.flush.event, s'.sends[|s.sends|]);
    Frame(s, l', s.flush.event.id);
    assert WorkersHeld(l', s'.workers) && PublishersHeld(l', s'.publishers);
  }

  lemma FlushBeginHolds(s: State, s': State)
    requires HeldInv(s) && FlushBeginStep(s, s')
    ensures HeldInv(s')
  {
    if s.flush.event.client !in s.inactive {
      FlushSendingHolds(s, s');
    }
  }

  lemma RemoveQueuedHolds(s: State, s': State, client: nat, replayableOnly: bool)
    requires HeldInv(s) && RemoveQueuedStep(s, s', client, replayableOnly)
    ensures HeldInv(s')
  {
    if !Drained(s.flush) {
      KeepDistinctIds(s.line.items, Pending(client, replayableOnly));
      forall i | 0 <= i < |s'.line.items|
        ensures s'.line.items[i] in s.line.items
      {
        KeepContains(s.line.items, Pending(client, replayableOnly), s'.line.items[i]);
      }
    }
  }

  lemma RemoveRetriesHolds(s: State, s': State, client: nat, replayableOnly: bool)
    requires HeldInv(s) && RemoveRetriesStep(s, s', client, replayableOnly)
    ensures HeldInv(s')
  {
    forall x | x in s'.retries.items
      ensures x in s.retries.items && s'.retries.items[x] == s.retries.items[x]
    {}
  }

  /** The heap with a worker's event put into it. */
  lemma HeapInsertHolds(s: State, l': Ledger, w: nat, e: ClientEvent)
    requires HeldInv(s) && WorkerIn(s, w, Scheduling)
    requires e.id == s.workers[w].event.id && e.client == s.workers[w].event.client
    requires e.attempts == s.workers[w].event.attempts
    requires l' == LedgerOf(s).(place := s.place[e.id := InHeap])
    ensures OnlyAbout(LedgerOf(s), l', {e.id})
    ensures HeapHeld(l', s.retries.items + multiset{e})
  {
    Frame(s, l', e.id);
    assert e !in s.retries.items;
  }

  /** Taking one event out of the heap. */
  lemma HeapTakeHolds(l: Ledger, l': Ledger, heap: multiset<ClientEvent>, e: ClientEvent)
    requires HeapHeld(l, heap) && e in heap && OnlyAbout(l, l', {e.id})
    ensures HeapHeld(l', heap - multiset{e})
  {
    forall x | x in heap - multiset{e}
      ensures x in heap && (heap - multiset{e})[x] == 1 && HeldAt(l', x, InHeap)
    {
      HeldFrame(l, l', {e.id}, x, InHeap);
    }
  }

  ghost function Entry(s: State, e: ClientEvent): (r: ClientEvent) {
    e.(retryOrder := s.retries.sequence + 1)
  }

  /** A worker puts its event into the heap. */
  lemma StoreHolds(s: State, s': State, w: nat, e: ClientEvent)
    requires HeldInv(s) && WorkerIn(s, w, Scheduling)
    requires e.id == s.workers[w].event.id && e.client == s.workers[w].event.client
    requires e.attempts == s.workers[w].event.attempts
    requires s'.retries.items == s.retries.items + multiset{e}
    requires s' == SetWorker(s, w, Idle).(retries := s'.retries, place := s.place[e.id := InHeap])
    ensures HeldInv(s')
  {
    var l' := LedgerOf(s');
    HeapInsertHolds(s, l', w, e);
    Frame(s, l', e.id);
    assert WorkersHeld(l', s'.workers) && PublishersHeld(l', s'.publishers);
  }

  /** An event is handed from the heap to an idle worker. */
  lemma HandBackHolds(s: State, s': State, w: nat, e: ClientEvent)
    requires HeldInv(s) && w < |s.workers| && s.workers[w].Idle? && e in s.retries.items
    requires s'.retries.items == s.retries.items - multiset{e}
    requires s'.workers == s.workers[w := Busy(Holding, e, NoTicket)]
    requires LedgerOf(s') == LedgerOf(s).(place := s.place[e.id := AtWorker(w)])
    requires s'.line.items == s.line.items && s'.scheduler == s.scheduler && s'.publishers == s.publishers
    requires s'.flush == s.flush
    ensures HeldInv(s')
  {
    var l' := LedgerOf(s');
    HeapTakeHolds(LedgerOf(s), l', s.retries.items, e);
    FramePlaces(s, l', e.id);
    HandBackHands(s, s', w, e);
  }

  lemma HandBackHands(s: State, s': State, w: nat, e: ClientEvent)
    requires HeldInv(s) && w < |s.workers| && e in s.retries.items
    requires s'.workers == s.workers[w := Busy(Holding, e, NoTicket)] && s'.publishers == s.publishers
    requires LedgerOf(s') == LedgerOf(s).(place := s.place[e.id := AtWorker(w)])
    ensures WorkersHeld(LedgerOf(s'), s'.workers) && PublishersHeld(LedgerOf(s'), s'.publishers)
  {
    FrameHands(s, LedgerOf(s'), e.id);
  }

  /** The state between putting an event in and taking the earliest out. */
  ghost function Stored(s: State, w: nat): (r: State)
    requires WorkerIn(s, w, Scheduling)
  {
    var e := Entry(s, s.workers[w].event);
    SetWorker(s, w, Idle).(
      retries := s.retries.(items := s.retries.items + multiset{e}, sequence := s.retries.sequence + 1),
      place := s.place[e.id := InHeap])
  }

  lemma ScheduledIsStored(s: State, s': State, w: nat)
    requires ScheduleStep(s, s', w, None) && !s.retries.closed
    ensures s' == Stored(s, w)
  {
    assert s'.retries == Stored(s, w).retries;
  }

  lemma HandedBackFromHeap(s: State, s': State, w: nat, back: ClientEvent)
    requires ScheduleStep(s, s', w, Some(back)) && !s.retries.closed
    ensures back in Stored(s, w).retries.items
    ensures s'.retries.items == Stored(s, w).retries.items - multiset{back}
  {
    ScheduledHandsBack(s.retries, s.workers[w].event, s'.retries, back);
  }

  lemma HandedBackToWorker(s: State, s': State, w: nat, back: ClientEvent)
    requires ScheduleStep(s, s', w, Some(back)) && !s.retries.closed
    ensures var stored := Stored(s, w);
            && s'.workers == stored.workers[w := Busy(Holding, back, NoTicket)]
            && LedgerOf(s') == LedgerOf(stored).(place := stored.place[back.id := AtWorker(w)])
            && s'.line.items == stored.line.items && s'.scheduler == stored.scheduler
            && s'.publishers == stored.publishers && s'.flush == stored.flush
  {}

  lemma ScheduleHolds(s: State, s': State, w: nat, back: Option<ClientEvent>)
    requires HeldInv(s) && ScheduleStep(s, s', w, back)
    ensures HeldInv(s')
  {
    if s.retries.closed {
      WorkerGoesOn(s, s', w);
    } else {
      StoreHolds(s, Stored(s, w), w, Entry(s, s.workers[w].event));
      if back.Some? {
        HandedBackFromHeap(s, s', w, back.value);
        HandedBackToWorker(s, s', w, back.value);
        HandBackHolds(Stored(s, w), s', w, back.value);
      } else {
        ScheduledIsStored(s, s', w);
      }
    }
  }
}
