/** The guarantees of the delivery engine, over all its runs. */
module DeliveryRuns {
  import opened Tickets
  import opened Line
  import opened Delivery
  import opened DeliveryOrder
  import opened DeliveryOwnership
  import opened DeliveryTheorems
  import Turn = TurnOrder

  ghost predicate Follows(s: State, s': State) {
    exists step :: Next(s, s', step)
  }

  ghost predicate StepAt(run: seq<State>, i: nat)
    requires i + 1 < |run|
  {
    Follows(run[i], run[i + 1])
  }

  ghost predicate IsRun(run: seq<State>) {
    run != [] && Init(run[0]) && forall i :: 0 <= i < |run| - 1 ==> StepAt(run, i)
  }

  lemma FollowsKeepsInv(s: State, s': State)
    requires Inv(s) && FirstsTicketed(s) && Follows(s, s')
    ensures Inv(s') && FirstsTicketed(s')
  {
    var step :| Next(s, s', step);
    NextKeepsInv(s, s', step);
    NextKeepsFirsts(s, s', step);
  }

  lemma {:induction false} RunInv(run: seq<State>, i: nat)
    requires IsRun(run) && i < |run|
    ensures Inv(run[i]) && FirstsTicketed(run[i])
  {
    if i == 0 {
      InitHolds(run[0]);
    } else {
      RunInv(run, i - 1);
      var before := i - 1;
      assert run[before + 1] == run[i];
      StepKeepsInv(run, before);
    }
  }

  lemma InitHolds(s: State)
    requires Init(s)
    ensures Inv(s) && FirstsTicketed(s)
  {
    InitInv(s);
  }

  lemma StepKeepsInv(run: seq<State>, i: nat)
    requires IsRun(run) && i + 1 < |run| && Inv(run[i]) && FirstsTicketed(run[i])
    ensures Inv(run[i + 1]) && FirstsTicketed(run[i + 1])
  {
    assert StepAt(run, i);
    FollowsKeepsInv(run[i], run[i + 1]);
  }

  lemma HeldAlong(run: seq<State>, n: nat)
    requires IsRun(run) && n < |run|
    ensures HeldInv(run[n])
  {
    RunInv(run, n);
  }

  // ------------------------------------------------------- order of first sends

  /** A first attempt is always made under a ticket. */
  ghost predicate FirstsTicketed(s: State) {
    forall k :: 0 <= k < |s.sends| && s.sends[k].ticket.None? ==> s.sends[k].attempt >= 2
  }

  lemma NextKeepsFirsts(s: State, s': State, step: Step)
    requires Inv(s) && FirstsTicketed(s) && Next(s, s', step)
    ensures FirstsTicketed(s')
  {
    if step.ByWorker? && step.worker.BeginSend? {
      BeginKeepsFirsts(s, s', step.w);
    } else if step.ByFlush? && step.flush.FlushBegin? {
      FlushBeginKeepsFirsts(s, s');
    } else {
      SendsOnlyGrowAtBegin(s, s', step);
    }
  }

  lemma BeginKeepsFirsts(s: State, s': State, w: nat)
    requires WorkersHeld(LedgerOf(s), s.workers) && FirstsTicketed(s) && BeginSendStep(s, s', w)
    ensures FirstsTicketed(s')
  {
    assert PhaseOk(Ready, s.workers[w].event, s.workers[w].ticket, s.cfg.attempts);
  }

  lemma FlushBeginKeepsFirsts(s: State, s': State)
    requires FirstsTicketed(s) && FlushBeginStep(s, s')
    ensures FirstsTicketed(s')
  {}

  lemma SendsOnlyGrowAtBegin(s: State, s': State, step: Step)
    requires Next(s, s', step)
    requires !(step.ByWorker? && step.worker.BeginSend?) && !(step.ByFlush? && step.flush.FlushBegin?)
    ensures s'.sends == s.sends
  {
    match step
    case ByWorker(w, action) => WorkerSendsSame(s, s', w, action);
    case ByFlush(action) => FlushSendsSame(s, s', action);
    case ByScheduler(_) =>
    case ByPublisher(_, _) =>
    case ByOthers(_) =>
    case ByLocks(_) =>
  }

  lemma WorkerSendsSame(s: State, s': State, w: nat, action: WorkerAction)
    requires WorkerNext(s, s', w, action) && !action.BeginSend?
    ensures s'.sends == s.sends
  {}

  lemma FlushSendsSame(s: State, s': State, action: FlushAction)
    requires FlushNext(s, s', action) && !action.FlushBegin?
    ensures s'.sends == s.sends
  {}

  /** Two ticketed sends appear in the protocol's log in the same order. */
  lemma {:induction false} LogPositions(sends: seq<Send>, a: nat, b: nat) returns (i: nat, j: nat)
    requires a < b < |sends| && sends[a].ticket.Some? && sends[b].ticket.Some?
    ensures i < j < |TicketLog(sends)|
    ensures TicketLog(sends)[i] == Turn.Sent(sends[a].id, sends[a].client, sends[a].ticket.value)
    ensures TicketLog(sends)[j] == Turn.Sent(sends[b].id, sends[b].client, sends[b].ticket.value)
  {
    var rest := sends[..|sends| - 1];
    if b < |rest| {
      i, j := LogPositions(rest, a, b);
    } else {
      i := LogPosition(rest, a);
      j := |TicketLog(rest)|;
    }
  }

  lemma {:induction false} LogPosition(sends: seq<Send>, a: nat) returns (i: nat)
    requires a < |sends| && sends[a].ticket.Some?
    ensures i < |TicketLog(sends)|
    ensures TicketLog(sends)[i] == Turn.Sent(sends[a].id, sends[a].client, sends[a].ticket.value)
  {
    var rest := sends[..|sends| - 1];
    if a < |rest| {
      i := LogPosition(rest, a);
    } else {
      i := |TicketLog(rest)|;
    }
  }

  lemma TicketedInPushOrder(s: State, a: nat, b: nat)
    requires Turn.LogInv(Abs(s)) && a < b < |s.sends| && s.sends[a].client == s.sends[b].client
    requires s.sends[a].ticket.Some? && s.sends[b].ticket.Some?
    ensures s.sends[a].ticket.value < s.sends[b].ticket.value
    ensures Turn.Issued(s.pushed, s.sends[a].id, s.sends[a].client, s.sends[a].ticket.value)
    ensures Turn.Issued(s.pushed, s.sends[b].id, s.sends[b].client, s.sends[b].ticket.value)
  {
    var i, j := LogPositions(s.sends, a, b);
    var log := TicketLog(s.sends);
    assert Turn.LogInOrder(log) && Turn.LogIssued(log, s.pushed);
  }

  /**
    The two sends were made in the order of the pushes that gave them their
    tickets: the `n`-th push has ticket `n`.
  */
  ghost predicate InPushOrder(s: State, first: Send, second: Send) {
    && first.ticket.Some? && second.ticket.Some? && first.client == second.client < |s.pushed|
    && 1 <= first.ticket.value < second.ticket.value <= |s.pushed[first.client]|
    && s.pushed[first.client][first.ticket.value - 1] == first.id
    && s.pushed[first.client][second.ticket.value - 1] == second.id
  }

  /**
    In every run, with any number of workers, everything that is sent out of the
    send queue to one client generation is sent in the order in which it was
    pushed: first attempts, retries that came back through the queue, and what
    the shutdown flush sends. Removals from the queue change nothing about that.
  */
  lemma TicketedSendsInPushOrder(run: seq<State>, n: nat, a: nat, b: nat)
    requires IsRun(run) && n < |run| && a < b < |run[n].sends|
    requires run[n].sends[a].client == run[n].sends[b].client
    requires run[n].sends[a].ticket.Some? && run[n].sends[b].ticket.Some?
    ensures InPushOrder(run[n], run[n].sends[a], run[n].sends[b])
  {
    RunInv(run, n);
    TicketedInPushOrder(run[n], a, b);
  }

  /** First attempts are always made out of the queue, so they are in the order of the pushes. */
  lemma FirstSendsInPushOrder(run: seq<State>, n: nat, a: nat, b: nat)
    requires IsRun(run) && n < |run| && a < b < |run[n].sends|
    requires run[n].sends[a].client == run[n].sends[b].client
    requires run[n].sends[a].attempt == 1 && run[n].sends[b].attempt == 1
    ensures InPushOrder(run[n], run[n].sends[a], run[n].sends[b])
  {
    RunInv(run, n);
    TicketedSendsInPushOrder(run, n, a, b);
  }

  /** And one at a time: two workers that were granted the turn of one generation are the same worker. */
  lemma OneTurnAtATime(run: seq<State>, n: nat, w: nat, w': nat)
    requires IsRun(run) && n < |run| && w < |run[n].workers| && w' < |run[n].workers|
    requires run[n].workers[w].Busy? && run[n].workers[w'].Busy?
    requires run[n].workers[w].event.client == run[n].workers[w'].event.client
    requires run[n].workers[w].ticket in {Granted, Used} && run[n].workers[w'].ticket in {Granted, Used}
    ensures w == w'
  {
    RunInv(run, n);
    TurnIsExclusive(run[n], w, w');
  }

  lemma TurnIsExclusive(s: State, w: nat, w': nat)
    requires Turn.HandsInv(Abs(s)) && w < |s.workers| && w' < |s.workers| && s.workers[w].Busy? && s.workers[w'].Busy?
    requires s.workers[w].event.client == s.workers[w'].event.client
    requires s.workers[w].ticket in {Granted, Used} && s.workers[w'].ticket in {Granted, Used}
    ensures w == w'
  {
    var hands := Abs(s).hands;
    assert Turn.Holder.Worker(w) in hands && Turn.Holder.Worker(w') in hands;
    assert Turn.HandsHoldTickets(hands, s.line.books) && Turn.HandsDistinct(hands);
  }

  // ------------------------------------------------------------- conservation

  /** Ticket `order` of `client` is at position `i` of the line, or with worker `i`, or with the flush. */
  datatype TicketPlace = InQueue(i: nat) | WithWorker(w: nat) | WithFlush

  ghost predicate TicketAt(s: State, client: nat, order: nat, p: TicketPlace) {
    match p
    case InQueue(i) => i < |s.line.items| && s.line.items[i].client == client && s.line.items[i].sendOrder == order
    case WithWorker(w) =>
      w < |s.workers| && HandOf(s.workers[w]).Some? && s.workers[w].event.client == client
      && s.workers[w].event.sendOrder == order
    case WithFlush => s.flush.Flushing? && s.flush.event.client == client && s.flush.event.sendOrder == order
  }

  lemma SomePlace(s: State, client: nat, order: nat) returns (p: TicketPlace)
    requires Turn.NoneLost(Abs(s)) && client < |s.line.books| && Outstanding(s.line.books[client], order)
    ensures TicketAt(s, client, order, p)
  {
    if Queued(s.line.items, client, order) {
      var i :| 0 <= i < |s.line.items| && s.line.items[i].client == client && s.line.items[i].sendOrder == order;
      p := InQueue(i);
    } else {
      var hands := Abs(s).hands;
      assert Turn.InHand(hands, client, order);
      var h :| h in hands && hands[h].client == client && hands[h].order == order;
      p := if h.Flusher? then WithFlush else WithWorker(h.index);
    }
  }

  /** Tickets are conserved: each one handed out and not yet finished or canceled is in exactly one place. */
  lemma TicketsConserved(run: seq<State>, n: nat, client: nat, order: nat) returns (p: TicketPlace)
    requires IsRun(run) && n < |run| && client < |run[n].line.books|
    requires Outstanding(run[n].line.books[client], order)
    ensures TicketAt(run[n], client, order, p)
    ensures forall q :: TicketAt(run[n], client, order, q) ==> q == p
  {
    RunInv(run, n);
    p := SomePlace(run[n], client, order);
    forall q | TicketAt(run[n], client, order, q)
      ensures q == p
    {
      OnePlace(run[n], client, order, p, q);
    }
  }

  function HolderOf(p: TicketPlace): (h: Turn.Holder) {
    if p.WithWorker? then Turn.Holder.Worker(p.w) else Turn.Holder.Flusher
  }

  lemma TicketInHand(s: State, client: nat, order: nat, p: TicketPlace)
    requires TicketAt(s, client, order, p) && !p.InQueue?
    ensures HolderOf(p) in Abs(s).hands
    ensures Abs(s).hands[HolderOf(p)].client == client && Abs(s).hands[HolderOf(p)].order == order
  {}

  lemma OnePlace(s: State, client: nat, order: nat, p: TicketPlace, q: TicketPlace)
    requires InTicketOrder(s.line.items) && Turn.HandsDistinct(Abs(s).hands)
    requires Turn.HandsAhead(Abs(s).hands, s.line.items)
    requires TicketAt(s, client, order, p) && TicketAt(s, client, order, q)
    ensures p == q
  {
    if !p.InQueue? {
      TicketInHand(s, client, order, p);
    }
    if !q.InQueue? {
      TicketInHand(s, client, order, q);
    }
  }

  /** Conversely a ticket somebody holds is outstanding, and the ticket whose turn it is is never a canceled one. */
  lemma HeldTicketsAreOutstanding(run: seq<State>, n: nat, client: nat, order: nat, p: TicketPlace)
    requires IsRun(run) && n < |run| && TicketAt(run[n], client, order, p)
    ensures client < |run[n].line.books| && Outstanding(run[n].line.books[client], order)
    ensures run[n].line.books[client].nextTurn !in run[n].line.books[client].canceled
  {
    RunInv(run, n);
    var t := Abs(run[n]);
    assert p.WithWorker? ==> Turn.Holder.Worker(p.w) in t.hands;
    assert p.WithFlush? ==> Turn.Holder.Flusher in t.hands;
    assert Turn.ItemsInv(t) && Turn.HandsInv(t);
  }

  /** In no book of any reachable state is the turn a canceled ticket. */
  lemma TurnNeverCanceled(run: seq<State>, n: nat, client: nat)
    requires IsRun(run) && n < |run| && client < |run[n].line.books|
    ensures run[n].line.books[client].nextTurn !in run[n].line.books[client].canceled
  {
    RunInv(run, n);
    assert Valid(run[n].line.books[client]);
  }

  // ---------------------------------------------------------------- ownership

  /** Event `id` is at this place. `AtWorker`, `AtPublisher` and the others name who has it in hand. */
  ghost predicate EventAt(s: State, id: nat, p: Place) {
    match p
    case InLine => exists i :: 0 <= i < |s.line.items| && s.line.items[i].id == id
    case InHeap => exists e :: e in s.retries.items && e.id == id
    case AtWorker(w) => w < |s.workers| && s.workers[w].Busy? && s.workers[w].event.id == id
    case AtScheduler => (s.scheduler.Judging? || s.scheduler.Pushing?) && s.scheduler.event.id == id
    case AtFlush => s.flush.Flushing? && s.flush.event.id == id
    case AtPublisher(q) => q in s.publishers && s.publishers[q].id == id
  }

  /** An event is in at most one place, and only once there. */
  lemma SingleOwner(run: seq<State>, n: nat, id: nat, p: Place, q: Place)
    requires IsRun(run) && n < |run| && EventAt(run[n], id, p) && EventAt(run[n], id, q)
    ensures p == q
    ensures forall i, j :: 0 <= i < j < |run[n].line.items| ==> run[n].line.items[i].id != run[n].line.items[j].id
    ensures forall e :: e in run[n].retries.items ==> run[n].retries.items[e] == 1
  {
    RunInv(run, n);
    PlaceOf(run[n], id, p);
    PlaceOf(run[n], id, q);
  }

  lemma PlaceOf(s: State, id: nat, p: Place)
    requires HeldInv(s) && EventAt(s, id, p)
    ensures id in s.place && s.place[id] == p
  {}

  /**
    `Connection.Send` is called at most `attempts` times for one event; what
    waits for a retry has had one attempt and is owed one.
  */
  lemma AttemptsBounded(run: seq<State>, n: nat, id: nat)
    requires IsRun(run) && n < |run|
    ensures Count(run[n].sends, id) <= run[n].cfg.attempts
    ensures forall e :: e in run[n].retries.items ==>
              1 <= e.attempts < run[n].cfg.attempts && Count(run[n].sends, e.id) == e.attempts
    ensures forall w :: 0 <= w < |run[n].workers| && WorkerIn(run[n], w, Holding) ==>
              1 <= run[n].workers[w].event.attempts < run[n].cfg.attempts
  {
    RunInv(run, n);
  }

  /** Memory is bounded: by the capacities, and one event in each worker's hand. */
  lemma QueuesBounded(run: seq<State>, n: nat)
    requires IsRun(run) && n < |run|
    ensures SendQueueSize(run[n]) <= run[n].cfg.sendCapacity
    ensures |run[n].retries.items| <= run[n].retries.capacity
  {
    RunInv(run, n);
  }

  /** At most one removal is started for a generation, and it is started by retiring it. */
  lemma OneRemovalPerGeneration(run: seq<State>, n: nat, client: nat)
    requires IsRun(run) && n < |run|
    ensures run[n].removals[client] <= 1
    ensures client in run[n].removals ==> client in run[n].inactive
  {
    RunInv(run, n);
  }

  // ----------------------------------------------------------------- shutdown

  /** The flush never waits for a turn: the event it takes next always has it. */
  lemma FlushNeverWaits(run: seq<State>, n: nat)
    requires IsRun(run) && n < |run| && FlushIn(run[n], Waiting)
    ensures run[n].flush.event.client < |run[n].line.books|
    ensures run[n].flush.event.sendOrder == run[n].line.books[run[n].flush.event.client].nextTurn
  {
    RunInv(run, n);
    var s := run[n];
    var t := Abs(s);
    assert Turn.Holder.Flusher in t.hands;
    var h := Turn.SomebodyHasTheTurn(t, Turn.Holder.Flusher);
  }

  /** When the flush is over nothing is left anywhere. */
  lemma ShutdownLeavesNothing(run: seq<State>, n: nat)
    requires IsRun(run) && n < |run| && run[n].flush.Flushed?
    ensures SendQueueSize(run[n]) == 0 && run[n].line.items == [] && run[n].retries.items == multiset{}
    ensures run[n].scheduler.Ended? && forall w :: 0 <= w < |run[n].workers| ==> run[n].workers[w].Exited?
    ensures forall g, k: nat :: 0 <= g < |run[n].line.books| ==> !Outstanding(run[n].line.books[g], k)
  {
    RunInv(run, n);
    var s := run[n];
    forall g, k: nat | 0 <= g < |s.line.books|
      ensures !Outstanding(s.line.books[g], k)
    {
      if Outstanding(s.line.books[g], k) {
        var p := TicketsConserved(run, n, g, k);
        assert false;
      }
    }
  }
}
