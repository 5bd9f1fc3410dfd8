/** No event is lost: whatever was published is still to be delivered somewhere, or has come to an end for a reason. */
module DeliveryConservation {
  import opened Options
  import opened Line
  import opened Retries
  import opened Delivery
  import opened DeliveryOrder
  import opened DeliveryOwnership
  import opened DeliveryTheorems
  import opened DeliveryRuns
  import Turn = TurnOrder

  /** The event is in this place and not yet done with. */
  ghost predicate LiveAt(s: State, id: nat, p: Place) {
    && EventAt(s, id, p)
    && (p.AtWorker? ==> s.workers[p.w].phase !in {Leaving(false), Returned(false)})
    && (p.AtFlush? ==> !s.flush.phase.Leaving?)
  }

  /** Attempts used up. */
  predicate Spent(s: State, e: ClientEvent) {
    e.attempts >= s.cfg.attempts
  }

  /** Delivered, found not current, its client inactive, attempts used up, or the bus closed. */
  ghost predicate EndsAtWorker(s: State, w: nat, action: WorkerAction, id: nat) {
    && w < |s.workers| && s.workers[w].Busy? && s.workers[w].event.id == id
    && var e := s.workers[w].event;
       match action
       case Check(current) => !current || e.client in s.inactive || Spent(s, e)
       case BeginSend => e.client in s.inactive
       case EndSend(outcome) => outcome.Delivered?
       case Judge(current) => !current || e.client in s.inactive || Spent(s, e)
       case Schedule(_) => s.retries.closed
       case HoldDrop(current) => !current || e.client in s.inactive || s.stopped
       case _ => false
  }

  ghost predicate EndsAtFlush(s: State, action: FlushAction, id: nat) {
    match action
    case Start => exists e :: e in s.retries.items && e.id == id
    case FlushCheck(current) => s.flush.Flushing? && s.flush.event.id == id && (!current || Spent(s, s.flush.event))
    case FlushBegin => s.flush.Flushing? && s.flush.event.id == id && s.flush.event.client in s.inactive
    case FlushReturn(_) => s.flush.Flushing? && s.flush.event.id == id
    case _ => false
  }

  /** Event `id`, of that client, and replayable if only replayable events are meant. */
  predicate IsOf(e: ClientEvent, id: nat, client: nat, replayableOnly: bool) {
    e.id == id && e.client == client && (replayableOnly ==> e.replayable)
  }

  /** With this step the event comes to its end. */
  ghost predicate Ends(s: State, step: Step, id: nat) {
    match step
    case ByWorker(w, action) => EndsAtWorker(s, w, action, id)
    case ByScheduler(action) =>
      EventAt(s, id, AtScheduler) && (action == JudgeDue(false) || (action.End? && s.sendClosed))
    case ByPublisher(p, action) => action.GiveUp? && EventAt(s, id, AtPublisher(p))
    case ByFlush(action) => EndsAtFlush(s, action, id)
    case ByOthers(action) =>
      || (action.RemoveQueued? && !Drained(s.flush)
          && (exists e :: e in s.line.items && IsOf(e, id, action.client, action.replayableOnly)))
      || (action.RemoveRetries?
          && (exists e :: e in s.retries.items && IsOf(e, id, action.client, action.replayableOnly)))
    case ByLocks(_) => false
  }

  // ------------------------------------------------------------------ workers

  lemma WorkerMovesOn(s: State, s': State, w: nat, action: WorkerAction, id: nat)
    requires WorkerNext(s, s', w, action) && LiveAt(s, id, AtWorker(w)) && !action.Schedule? && !action.TurnComes?
    ensures LiveAt(s', id, AtWorker(w)) || EndsAtWorker(s, w, action, id)
  {
    match action
    case Check(current) => assert CheckStep(s, s', w, current);
    case BeginSend => assert BeginSendStep(s, s', w);
    case EndSend(outcome) => assert EndSendStep(s, s', w, outcome);
    case Judge(current) => assert JudgeStep(s, s', w, current);
    case Leave => assert LeaveStep(s, s', w);
    case HoldDue => assert HoldDueStep(s, s', w);
    case HoldDrop(current) => assert HoldDropStep(s, s', w, current);
    case SetDelay => assert SetDelayStep(s, s', w);
    case Pop =>
    case Exit =>
  }

  /** A popped event's turn is never over, so it is not dropped there. */
  lemma TurnKeepsLive(s: State, s': State, w: nat, id: nat)
    requires Turn.Inv(Abs(s)) && HeldInv(s) && TurnComesStep(s, s', w) && LiveAt(s, id, AtWorker(w))
    ensures LiveAt(s', id, AtWorker(w))
  {
    TicketFitsPhase(s, w);
    TurnNotOver(Abs(s), Turn.Holder.Worker(w));
    TurnComesRefines(s, s', w);
  }

  /**
    A failed send that is to be retried is scheduled: it is in the heap, or the
    worker waits with it, or with another one.
  */
  lemma ScheduleKeepsLive(s: State, s': State, w: nat, back: Option<ClientEvent>, id: nat,
                          x: ClientEvent) returns (p': Place)
    requires ScheduleStep(s, s', w, back) && !s.retries.closed && x.id == id
    requires x in s.retries.items || x == s.workers[w].event.(retryOrder := s.retries.sequence + 1)
    ensures LiveAt(s', id, p')
  {
    if back == Some(x) {
      p' := AtWorker(w);
    } else {
      p' := InHeap;
      ScheduledKeeps(s.retries, s.workers[w].event, s'.retries, back, x);
    }
  }

  lemma WorkerLeavesOthers(s: State, s': State, w: nat, action: WorkerAction, id: nat, p: Place)
    requires WorkerNext(s, s', w, action) && LiveAt(s, id, p) && p != AtWorker(w) && !p.InLine? && !p.InHeap?
    ensures LiveAt(s', id, p)
  {}

  lemma WorkerKeepsHeap(s: State, s': State, w: nat, action: WorkerAction)
    requires WorkerNext(s, s', w, action) && (!action.Schedule? || s.retries.closed)
    ensures s'.retries == s.retries
  {}

  lemma PopKeepsLive(s: State, s': State, w: nat, id: nat) returns (p': Place)
    requires PopStep(s, s', w) && LiveAt(s, id, InLine)
    ensures LiveAt(s', id, p')
  {
    var i :| 0 <= i < |s.line.items| && s.line.items[i].id == id;
    if i == 0 {
      p' := AtWorker(w);
    } else {
      p' := InLine;
      assert s'.line.items[i - 1].id == id;
    }
  }

  lemma WorkerKeepsLine(s: State, s': State, w: nat, action: WorkerAction)
    requires WorkerNext(s, s', w, action) && !action.Pop?
    ensures s'.line.items == s.line.items
  {}

  lemma WorkerKeepsLive(s: State, s': State, w: nat, action: WorkerAction, id: nat, p: Place) returns (p': Place)
    requires Inv(s) && WorkerNext(s, s', w, action) && LiveAt(s, id, p)
    ensures LiveAt(s', id, p') || EndsAtWorker(s, w, action, id)
  {
    p' := p;
    if p.InLine? {
      if action.Pop? {
        p' := PopKeepsLive(s, s', w, id);
      } else {
        WorkerKeepsLine(s, s', w, action);
      }
    } else if action.Schedule? && !s.retries.closed && (p.InHeap? || p == AtWorker(w)) {
      var x := s.workers[w].event.(retryOrder := s.retries.sequence + 1);
      if p.InHeap? {
        x :| x in s.retries.items && x.id == id;
      }
      p' := ScheduleKeepsLive(s, s', w, action.back, id, x);
    } else if p.InHeap? {
      WorkerKeepsHeap(s, s', w, action);
    } else if p == AtWorker(w) {
      if action.TurnComes? {
        TurnKeepsLive(s, s', w, id);
      } else if !action.Schedule? {
        WorkerMovesOn(s, s', w, action, id);
      }
    } else {
      WorkerLeavesOthers(s, s', w, action, id, p);
    }
  }

  // -------------------------------------------------- scheduler and publishers

  lemma PushKeepsLive(s: State, e: ClientEvent, id: nat)
    requires e.client < |s.line.books| == |s.pushed| && (e.id == id || LiveAt(s, id, InLine))
    ensures LiveAt(PushNow(s, e), id, InLine)
  {
    var items, items' := s.line.items, PushNow(s, e).line.items;
    if e.id == id {
      assert items'[|items|].id == id;
    } else {
      var i :| 0 <= i < |items| && items[i].id == id;
      assert items'[i].id == id;
    }
  }

  lemma SchedulerKeepsLive(s: State, s': State, action: SchedulerAction, id: nat, p: Place) returns (p': Place)
    requires SchedulerNext(s, s', action) && LiveAt(s, id, p)
    ensures LiveAt(s', id, p') || Ends(s, ByScheduler(action), id)
  {
    p' := p;
    match action
    case PopDue(_, e) =>
      if p.InHeap? {
        var x :| x in s.retries.items && x.id == id;
        if x == e {
          p' := AtScheduler;
        } else {
          assert x in s'.retries.items;
        }
      }
    case PushDue =>
      if p.AtScheduler? || p.InLine? {
        p' := InLine;
        PushKeepsLive(s, s.scheduler.event, id);
        assert s'.line == PushNow(s, s.scheduler.event).line;
      }
    case _ =>
  }

  lemma PublisherKeepsLive(s: State, s': State, q: nat, action: PublisherAction, id: nat, p: Place) returns (p': Place)
    requires PublisherNext(s, s', q, action) && LiveAt(s, id, p)
    ensures LiveAt(s', id, p') || Ends(s, ByPublisher(q, action), id)
  {
    p' := p;
    if action.PushNew? && (p == AtPublisher(q) || p.InLine?) {
      p' := InLine;
      PushKeepsLive(s, s.publishers[q], id);
      assert s'.line == PushNow(s, s.publishers[q]).line;
    }
  }

  // ------------------------------------------------------------------ shutdown

  lemma FlushTurnKeepsLive(s: State, s': State, id: nat)
    requires Turn.Inv(Abs(s)) && FlushHeld(LedgerOf(s), s.flush) && FlushTurnStep(s, s') && LiveAt(s, id, AtFlush)
    ensures LiveAt(s', id, AtFlush)
  {
    TurnNotOver(Abs(s), Turn.Holder.Flusher);
    FlushTurnRefines(s, s');
  }

  lemma FlushTakeKeepsLive(s: State, s': State, id: nat) returns (p': Place)
    requires FlushTakeStep(s, s') && LiveAt(s, id, InLine)
    ensures LiveAt(s', id, p')
  {
    var i :| 0 <= i < |s.line.items| && s.line.items[i].id == id;
    if i == 0 {
      p' := AtFlush;
    } else {
      p' := InLine;
      assert s'.line.items[i - 1].id == id;
    }
  }

  lemma FlushMovesOn(s: State, s': State, action: FlushAction, id: nat)
    requires FlushNext(s, s', action) && LiveAt(s, id, AtFlush) && !action.FlushTurn?
    ensures LiveAt(s', id, AtFlush) || EndsAtFlush(s, action, id)
  {
    match action
    case FlushCheck(current) => assert FlushCheckStep(s, s', current);
    case FlushBegin => assert FlushBeginStep(s, s');
    case FlushReturn(outcome) => assert FlushReturnStep(s, s', outcome);
    case _ =>
  }

  lemma FlushLeavesOthers(s: State, s': State, action: FlushAction, id: nat, p: Place)
    requires FlushNext(s, s', action) && LiveAt(s, id, p) && !p.AtFlush? && !(p.InLine? && action.Take?)
    ensures LiveAt(s', id, p) || EndsAtFlush(s, action, id)
  {
    match action
    case Start => assert FlushStartStep(s, s');
    case FlushBegin => assert FlushBeginStep(s, s');
    case FlushLeave => assert FlushLeaveStep(s, s');
    case _ =>
  }

  lemma FlushKeepsLive(s: State, s': State, action: FlushAction, id: nat, p: Place) returns (p': Place)
    requires Inv(s) && FlushNext(s, s', action) && LiveAt(s, id, p)
    ensures LiveAt(s', id, p') || EndsAtFlush(s, action, id)
  {
    p' := p;
    if p.InLine? && action.Take? {
      p' := FlushTakeKeepsLive(s, s', id);
    } else if p.AtFlush? {
      if action.FlushTurn? {
        FlushTurnKeepsLive(s, s', id);
      } else {
        FlushMovesOn(s, s', action, id);
      }
    } else {
      FlushLeavesOthers(s, s', action, id, p);
    }
  }

  // -------------------------------------------------------- the rest of the bus

  lemma RemoveQueuedKeepsLive(s: State, s': State, client: nat, replayableOnly: bool, id: nat)
    requires RemoveQueuedStep(s, s', client, replayableOnly) && LiveAt(s, id, InLine)
    ensures LiveAt(s', id, InLine) || Ends(s, ByOthers(RemoveQueued(client, replayableOnly)), id)
  {
    var i :| 0 <= i < |s.line.items| && s.line.items[i].id == id;
    if !Drained(s.flush) {
      QueueKeepsExactly(s, s', client, replayableOnly, s.line.items[i]);
      assert s.line.items[i] in s.line.items && (s.line.items[i] in s'.line.items || IsOf(s.line.items[i], id, client, replayableOnly));
    }
  }

  /**
    `removePending` on the send queue: an event stays exactly if it is another
    client's, or only replayable events are meant and it is not one.
  */
  lemma QueueKeepsExactly(s: State, s': State, client: nat, replayableOnly: bool, e: ClientEvent)
    requires Next(s, s', ByOthers(RemoveQueued(client, replayableOnly))) && !Drained(s.flush)
    ensures e in s'.line.items <==> e in s.line.items && (e.client != client || (replayableOnly && !e.replayable))
  {
    KeepContains(s.line.items, Pending(client, replayableOnly), e);
  }

  /** The same on the retry queue. */
  lemma RetriesKeepExactly(s: State, s': State, client: nat, replayableOnly: bool, e: ClientEvent)
    requires Next(s, s', ByOthers(RemoveRetries(client, replayableOnly)))
    ensures s'.retries.items[e] == if e.client != client || (replayableOnly && !e.replayable) then s.retries.items[e] else 0
  {
    assert RemoveRetriesStep(s, s', client, replayableOnly);
  }

  lemma RemoveRetriesKeepsLive(s: State, s': State, client: nat, replayableOnly: bool, id: nat)
    requires RemoveRetriesStep(s, s', client, replayableOnly) && LiveAt(s, id, InHeap)
    ensures LiveAt(s', id, InHeap) || Ends(s, ByOthers(RemoveRetries(client, replayableOnly)), id)
  {
    var x :| x in s.retries.items && x.id == id;
    RetriesKeepExactly(s, s', client, replayableOnly, x);
  }

  lemma OthersKeepLive(s: State, s': State, action: OtherAction, id: nat, p: Place)
    requires OtherNext(s, s', action) && LiveAt(s, id, p)
    ensures LiveAt(s', id, p) || Ends(s, ByOthers(action), id)
  {
    match action
    case RemoveQueued(client, replayableOnly) =>
      if p.InLine? {
        RemoveQueuedKeepsLive(s, s', client, replayableOnly, id);
      }
    case RemoveRetries(client, replayableOnly) =>
      if p.InHeap? {
        RemoveRetriesKeepsLive(s, s', client, replayableOnly, id);
      }
    case OpenClient(complete, c) => assert OpenClientStep(s, s', complete, c);
    case _ =>
  }

  // ------------------------------------------------------------- over all runs

  ghost predicate Live(s: State, id: nat) {
    exists p :: LiveAt(s, id, p)
  }

  lemma StepKeepsLive(s: State, s': State, step: Step, id: nat)
    requires Inv(s) && Next(s, s', step) && Live(s, id)
    ensures Live(s', id) || Ends(s, step, id)
  {
    var p :| LiveAt(s, id, p);
    match step
    case ByWorker(w, action) => var p' := WorkerKeepsLive(s, s', w, action, id, p);
    case ByScheduler(action) => var p' := SchedulerKeepsLive(s, s', action, id, p);
    case ByPublisher(q, action) => var p' := PublisherKeepsLive(s, s', q, action, id, p);
    case ByFlush(action) => var p' := FlushKeepsLive(s, s', action, id, p);
    case ByOthers(action) => OthersKeepLive(s, s', action, id, p);
    case ByLocks(_) => assert LiveAt(s', id, p);
  }

  lemma NewIsLive(s: State, s': State, step: Step, id: nat)
    requires Next(s, s', step) && s.nextId <= id < s'.nextId
    ensures Live(s', id)
  {
    NewIsPublished(s, s', step);
    assert LiveAt(s', id, AtPublisher(step.p));
  }

  lemma NewIsPublished(s: State, s': State, step: Step)
    requires Next(s, s', step) && s.nextId < s'.nextId
    ensures step.ByPublisher? && step.publisher.Publish?
    ensures PublishStep(s, s', step.p, step.publisher.client, step.publisher.replayable)
  {
    match step
    case ByWorker(w, action) => WorkersCreateNothing(s, s', w, action);
    case ByFlush(action) => FlushCreatesNothing(s, s', action);
    case _ =>
  }

  lemma WorkersCreateNothing(s: State, s': State, w: nat, action: WorkerAction)
    requires WorkerNext(s, s', w, action)
    ensures s'.nextId == s.nextId
  {}

  lemma FlushCreatesNothing(s: State, s': State, action: FlushAction)
    requires FlushNext(s, s', action)
    ensures s'.nextId == s.nextId
  {}

  /** One step of the run ended the event, for one of the reasons of `Ends`. */
  ghost predicate EndsBetween(s: State, s': State, id: nat) {
    exists step :: Next(s, s', step) && Ends(s, step, id)
  }

  lemma FollowsKeepsLive(s: State, s': State, id: nat)
    requires Inv(s) && Follows(s, s') && id < s'.nextId && (id < s.nextId ==> Live(s, id))
    ensures Live(s', id) || EndsBetween(s, s', id)
  {
    var step :| Next(s, s', step);
    if id < s.nextId {
      StepKeepsLive(s, s', step, id);
    } else {
      NewIsLive(s, s', step, id);
    }
  }

  ghost predicate EndsAt(run: seq<State>, i: nat, id: nat)
    requires i + 1 < |run|
  {
    EndsBetween(run[i], run[i + 1], id)
  }

  /** The event came to its end somewhere before position `n` of the run. */
  ghost predicate Ended(run: seq<State>, n: nat, id: nat)
    requires n < |run|
  {
    exists m :: 0 <= m < n && EndsAt(run, m, id)
  }

  lemma StepConserves(run: seq<State>, i: nat, id: nat)
    requires IsRun(run) && i + 1 < |run| && id < run[i + 1].nextId && (id < run[i].nextId ==> Live(run[i], id))
    ensures Live(run[i + 1], id) || EndsAt(run, i, id)
  {
    assert StepAt(run, i);
    RunInv(run, i);
    FollowsKeepsLive(run[i], run[i + 1], id);
  }

  /**
    Every event ever published is still to be delivered (in a queue, or in
    somebody's hand), or at one step of the run it was delivered, used up its
    attempts, was found not current or its client inactive, was removed with
    its client's pending events, was given up by its publisher, or was given up
    at shutdown. In particular a failed send with attempts left is retried.
  */
  lemma {:induction false} EventsConserved(run: seq<State>, n: nat, id: nat)
    requires IsRun(run) && n < |run| && id < run[n].nextId
    ensures Live(run[n], id) || Ended(run, n, id)
  {
    if n > 0 {
      var i := n - 1;
      assert run[i + 1] == run[n];
      if id >= run[i].nextId || Live(run[i], id) {
        StepConserves(run, i, id);
      } else {
        EventsConserved(run, i, id);
        var m :| 0 <= m < i && EndsAt(run, m, id);
        assert EndsAt(run, m, id);
      }
    }
  }
}
