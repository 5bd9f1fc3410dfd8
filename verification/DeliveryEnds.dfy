/** What has come to its end is over: it is in no place any more to be delivered from, and is never sent again. */
module DeliveryEnds {
  import opened Options
  import opened Line
  import opened Retries
  import opened Delivery
  import opened DeliveryOwnership
  import opened DeliveryTheorems
  import opened DeliveryRuns
  import opened DeliveryConservation

  // --------------------------------------------- where a live event came from

  lemma WorkerHadIt(s: State, s': State, w: nat, action: WorkerAction, id: nat)
    requires WorkerNext(s, s', w, action) && LiveAt(s', id, AtWorker(w)) && !action.Pop? && !action.Schedule?
    ensures LiveAt(s, id, AtWorker(w))
  {
    match action
    case TurnComes => assert TurnComesStep(s, s', w);
    case Check(current) => assert CheckStep(s, s', w, current);
    case BeginSend => assert BeginSendStep(s, s', w);
    case EndSend(outcome) => assert EndSendStep(s, s', w, outcome);
    case Judge(current) => assert JudgeStep(s, s', w, current);
    case SetDelay => assert SetDelayStep(s, s', w);
    case HoldDue => assert HoldDueStep(s, s', w);
    case _ =>
  }

  lemma EntryFrom(s: State, s': State, w: nat, back: Option<ClientEvent>, x: ClientEvent)
    requires ScheduleStep(s, s', w, back) && !s.retries.closed && (x in s'.retries.items || back == Some(x))
    ensures x in s.retries.items || x.id == s.workers[w].event.id
  {
    ScheduledWasThere(s.retries, s.workers[w].event, s'.retries, back, x);
  }

  lemma HandAfterSchedule(s: State, s': State, w: nat, back: Option<ClientEvent>)
    requires ScheduleStep(s, s', w, back)
    ensures w < |s.workers| == |s'.workers| && WorkerIn(s, w, Scheduling)
    ensures s.retries.closed ==> s'.workers[w].Exited? && s'.retries == s.retries
    ensures !s.retries.closed && s'.workers[w].Busy? ==> back == Some(s'.workers[w].event)
  {}

  lemma ScheduledFrom(s: State, s': State, w: nat, back: Option<ClientEvent>, id: nat, p: Place)
    requires ScheduleStep(s, s', w, back) && LiveAt(s', id, p) && (p.InHeap? || p == AtWorker(w))
    ensures LiveAt(s, id, InHeap) || LiveAt(s, id, AtWorker(w))
  {
    HandAfterSchedule(s, s', w, back);
    if !s.retries.closed {
      var x := s.workers[w].event;
      if p.InHeap? {
        x :| x in s'.retries.items && x.id == id;
      } else {
        x := s'.workers[w].event;
      }
      EntryFrom(s, s', w, back, x);
    }
  }

  lemma LineHadIt(items: seq<ClientEvent>, items': seq<ClientEvent>, id: nat, i: nat)
    requires items' == items || (items != [] && items' == items[1..])
    requires i < |items'| && items'[i].id == id
    ensures exists j :: 0 <= j < |items| && items[j].id == id
  {
    if items' != items {
      assert items[i + 1].id == id;
    }
  }

  lemma WorkerComesFrom(s: State, s': State, w: nat, action: WorkerAction, id: nat, p: Place)
    requires WorkerNext(s, s', w, action) && LiveAt(s', id, p)
    ensures Live(s, id)
  {
    if p.InLine? {
      LineOnlyShrinks(s, s', w, action);
      var i :| 0 <= i < |s'.line.items| && s'.line.items[i].id == id;
      LineHadIt(s.line.items, s'.line.items, id, i);
      assert LiveAt(s, id, InLine);
    } else if action.Schedule? && (p.InHeap? || p == AtWorker(w)) {
      ScheduledFrom(s, s', w, action.back, id, p);
    } else if p.InHeap? {
      WorkerKeepsHeap(s, s', w, action);
      assert LiveAt(s, id, InHeap);
    } else if p == AtWorker(w) {
      if action.Pop? {
        assert PopStep(s, s', w);
        assert LiveAt(s, id, InLine);
      } else {
        WorkerHadIt(s, s', w, action, id);
      }
    } else {
      WorkerLeavesPlace(s, s', w, action, id, p);
    }
  }

  lemma WorkerLeavesPlace(s: State, s': State, w: nat, action: WorkerAction, id: nat, p: Place)
    requires WorkerNext(s, s', w, action) && LiveAt(s', id, p) && p != AtWorker(w) && !p.InLine? && !p.InHeap?
    ensures LiveAt(s, id, p)
  {}

  lemma PushComesFrom(s: State, e: ClientEvent, id: nat)
    requires e.client < |s.line.books| == |s.pushed| && LiveAt(PushNow(s, e), id, InLine) && e.id != id
    ensures LiveAt(s, id, InLine)
  {
    var items' := PushNow(s, e).line.items;
    var i :| 0 <= i < |items'| && items'[i].id == id;
    assert s.line.items[i].id == id;
  }

  lemma SchedulerComesFrom(s: State, s': State, action: SchedulerAction, id: nat, p: Place)
    requires SchedulerNext(s, s', action) && LiveAt(s', id, p)
    ensures Live(s, id)
  {
    match action
    case PopDue(at, e) =>
      assert SchedulerPopStep(s, s', at, e);
      if p.AtScheduler? || p.InHeap? {
        assert LiveAt(s, id, InHeap);
      } else {
        assert LiveAt(s, id, p);
      }
    case PushDue =>
      assert SchedulerPushStep(s, s');
      if p.InLine? && s.scheduler.event.id != id {
        assert LiveAt(PushNow(s, s.scheduler.event), id, InLine);
        PushComesFrom(s, s.scheduler.event, id);
      } else {
        assert LiveAt(s, id, if p.InLine? then AtScheduler else p);
      }
    case _ => assert LiveAt(s, id, p);
  }

  lemma PublisherComesFrom(s: State, s': State, q: nat, action: PublisherAction, id: nat, p: Place)
    requires PublisherNext(s, s', q, action) && LiveAt(s', id, p) && id < s.nextId
    ensures Live(s, id)
  {
    if action.PushNew? && p.InLine? {
      if s.publishers[q].id == id {
        assert LiveAt(s, id, AtPublisher(q));
      } else {
        assert LiveAt(PushNow(s, s.publishers[q]), id, InLine);
        PushComesFrom(s, s.publishers[q], id);
      }
    } else {
      assert LiveAt(s, id, p);
    }
  }

  lemma FlushHadIt(s: State, s': State, action: FlushAction, id: nat)
    requires FlushNext(s, s', action) && LiveAt(s', id, AtFlush) && !action.Take?
    ensures LiveAt(s, id, AtFlush)
  {
    match action
    case FlushTurn => assert FlushTurnStep(s, s');
    case FlushCheck(current) => assert FlushCheckStep(s, s', current);
    case FlushBegin => assert FlushBeginStep(s, s');
    case _ =>
  }

  lemma FlushTakesFromLine(s: State, s': State, action: FlushAction)
    requires FlushNext(s, s', action)
    ensures s'.line.items == s.line.items || (action.Take? && s.line.items != [] && s'.line.items == s.line.items[1..])
    ensures s'.retries.items == s.retries.items || s'.retries.items == multiset{}
  {
    match action
    case FlushBegin => assert FlushBeginStep(s, s');
    case FlushReturn(outcome) => assert FlushReturnStep(s, s', outcome);
    case FlushLeave => assert FlushLeaveStep(s, s');
    case _ =>
  }

  lemma FlushComesFrom(s: State, s': State, action: FlushAction, id: nat, p: Place)
    requires FlushNext(s, s', action) && LiveAt(s', id, p)
    ensures Live(s, id)
  {
    FlushWithinFrame(s, s', action);
    FlushTakesFromLine(s, s', action);
    if p.InLine? {
      var i :| 0 <= i < |s'.line.items| && s'.line.items[i].id == id;
      LineHadIt(s.line.items, s'.line.items, id, i);
      assert LiveAt(s, id, InLine);
    } else if p.AtFlush? {
      if action.Take? {
        assert FlushTakeStep(s, s');
        assert LiveAt(s, id, InLine);
      } else {
        FlushHadIt(s, s', action, id);
      }
    } else {
      assert LiveAt(s, id, p);
    }
  }

  lemma OthersComeFrom(s: State, s': State, action: OtherAction, id: nat, p: Place)
    requires OtherNext(s, s', action) && LiveAt(s', id, p)
    ensures LiveAt(s, id, p)
  {
    match action
    case RemoveQueued(client, replayableOnly) =>
      if p.InLine? && !Drained(s.flush) {
        var i :| 0 <= i < |s'.line.items| && s'.line.items[i].id == id;
        QueueKeepsExactly(s, s', client, replayableOnly, s'.line.items[i]);
      }
    case RemoveRetries(client, replayableOnly) =>
      if p.InHeap? {
        var x :| x in s'.retries.items && x.id == id;
        RetriesKeepExactly(s, s', client, replayableOnly, x);
      }
    case OpenClient(complete, c) => assert OpenClientStep(s, s', complete, c);
    case _ =>
  }

  /** Nothing comes back to life. */
  lemma LiveWasLive(s: State, s': State, step: Step, id: nat)
    requires Next(s, s', step) && Live(s', id) && id < s.nextId
    ensures Live(s, id)
  {
    var p :| LiveAt(s', id, p);
    match step
    case ByWorker(w, action) => WorkerComesFrom(s, s', w, action, id, p);
    case ByScheduler(action) => SchedulerComesFrom(s, s', action, id, p);
    case ByPublisher(q, action) => PublisherComesFrom(s, s', q, action, id, p);
    case ByFlush(action) => FlushComesFrom(s, s', action, id, p);
    case ByOthers(action) => OthersComeFrom(s, s', action, id, p);
    case ByLocks(_) => assert LiveAt(s, id, p);
  }

  // --------------------------------------------------------- an end is an end

  lemma WorkerEnds(s: State, s': State, w: nat, action: WorkerAction, id: nat)
    requires WorkerNext(s, s', w, action) && EndsAtWorker(s, w, action, id)
    ensures !LiveAt(s', id, AtWorker(w))
  {
    match action
    case Check(current) => assert CheckStep(s, s', w, current);
    case BeginSend => assert BeginSendStep(s, s', w);
    case EndSend(outcome) => assert EndSendStep(s, s', w, outcome);
    case Judge(current) => assert JudgeStep(s, s', w, current);
    case Schedule(back) => assert ScheduleStep(s, s', w, back);
    case HoldDrop(current) => assert HoldDropStep(s, s', w, current);
    case _ =>
  }

  /** The event was with worker `w` and nowhere else; so it is nowhere. */
  lemma WorkerKills(s: State, s': State, w: nat, action: WorkerAction, id: nat, p: Place)
    requires HeldInv(s) && WorkerNext(s, s', w, action) && EndsAtWorker(s, w, action, id)
    ensures !LiveAt(s', id, p)
  {
    PlaceOf(s, id, AtWorker(w));
    if p == AtWorker(w) {
      WorkerEnds(s, s', w, action, id);
    } else if LiveAt(s', id, p) {
      if p.InLine? {
        WorkerKeepsLine(s, s', w, action);
      } else if p.InHeap? {
        WorkerKeepsHeap(s, s', w, action);
      } else {
        WorkerLeavesPlace(s, s', w, action, id, p);
      }
      PlaceOf(s, id, p);
    }
  }

  lemma SchedulerKills(s: State, s': State, action: SchedulerAction, id: nat, p: Place)
    requires HeldInv(s) && SchedulerNext(s, s', action) && Ends(s, ByScheduler(action), id)
    ensures !LiveAt(s', id, p)
  {
    PlaceOf(s, id, AtScheduler);
    if LiveAt(s', id, p) {
      assert EventAt(s, id, p);
      PlaceOf(s, id, p);
    }
  }

  lemma PublisherKills(s: State, s': State, q: nat, action: PublisherAction, id: nat, p: Place)
    requires HeldInv(s) && PublisherNext(s, s', q, action) && Ends(s, ByPublisher(q, action), id)
    ensures !LiveAt(s', id, p)
  {
    PlaceOf(s, id, AtPublisher(q));
    if LiveAt(s', id, p) {
      assert EventAt(s, id, p);
      PlaceOf(s, id, p);
    }
  }

  lemma FlushEnds(s: State, s': State, action: FlushAction, id: nat)
    requires FlushNext(s, s', action) && EndsAtFlush(s, action, id)
    ensures !LiveAt(s', id, AtFlush) && s'.line.items == s.line.items
    ensures if action.Start? then s'.retries.items == multiset{} else s'.retries == s.retries
  {
    match action
    case Start => assert FlushStartStep(s, s');
    case FlushCheck(current) => assert FlushCheckStep(s, s', current);
    case FlushBegin => assert FlushBeginStep(s, s');
    case FlushReturn(outcome) => assert FlushReturnStep(s, s', outcome);
    case _ =>
  }

  lemma FlushKills(s: State, s': State, action: FlushAction, id: nat, p: Place)
    requires HeldInv(s) && FlushNext(s, s', action) && EndsAtFlush(s, action, id)
    ensures !LiveAt(s', id, p)
  {
    FlushWithinFrame(s, s', action);
    FlushEnds(s, s', action, id);
    if LiveAt(s', id, p) {
      assert EventAt(s, id, p);
      PlaceOf(s, id, p);
      PlaceOf(s, id, if action.Start? then InHeap else AtFlush);
    }
  }

  lemma QueuedKilled(s: State, s': State, client: nat, replayableOnly: bool, id: nat, p: Place, e: ClientEvent)
    requires HeldInv(s) && Next(s, s', ByOthers(RemoveQueued(client, replayableOnly))) && !Drained(s.flush)
    requires e in s.line.items && IsOf(e, id, client, replayableOnly)
    ensures !LiveAt(s', id, p)
  {
    PlaceOf(s, id, InLine);
    if LiveAt(s', id, p) {
      OthersComeFrom(s, s', RemoveQueued(client, replayableOnly), id, p);
      PlaceOf(s, id, p);
      var i :| 0 <= i < |s'.line.items| && s'.line.items[i].id == id;
      QueueKeepsExactly(s, s', client, replayableOnly, s'.line.items[i]);
    }
  }

  lemma RetryKilled(s: State, s': State, client: nat, replayableOnly: bool, id: nat, p: Place, e: ClientEvent)
    requires HeldInv(s) && Next(s, s', ByOthers(RemoveRetries(client, replayableOnly)))
    requires e in s.retries.items && IsOf(e, id, client, replayableOnly)
    ensures !LiveAt(s', id, p)
  {
    PlaceOf(s, id, InHeap);
    if LiveAt(s', id, p) {
      OthersComeFrom(s, s', RemoveRetries(client, replayableOnly), id, p);
      PlaceOf(s, id, p);
      var x :| x in s'.retries.items && x.id == id;
      RetriesKeepExactly(s, s', client, replayableOnly, x);
    }
  }

  lemma OthersKill(s: State, s': State, action: OtherAction, id: nat, p: Place)
    requires HeldInv(s) && OtherNext(s, s', action) && Ends(s, ByOthers(action), id)
    ensures !LiveAt(s', id, p)
  {
    if action.RemoveQueued? {
      var e :| e in s.line.items && IsOf(e, id, action.client, action.replayableOnly);
      QueuedKilled(s, s', action.client, action.replayableOnly, id, p, e);
    } else {
      var e :| e in s.retries.items && IsOf(e, id, action.client, action.replayableOnly);
      RetryKilled(s, s', action.client, action.replayableOnly, id, p, e);
    }
  }

  lemma EndIsDead(s: State, s': State, step: Step, id: nat)
    requires HeldInv(s) && Next(s, s', step) && Ends(s, step, id)
    ensures !Live(s', id)
  {
    forall p
      ensures !LiveAt(s', id, p)
    {
      match step
      case ByWorker(w, action) => WorkerKills(s, s', w, action, id, p);
      case ByScheduler(action) => SchedulerKills(s, s', action, id, p);
      case ByPublisher(q, action) => PublisherKills(s, s', q, action, id, p);
      case ByFlush(action) => FlushKills(s, s', action, id, p);
      case ByOthers(action) => OthersKill(s, s', action, id, p);
    }
  }

  // ------------------------------------------------------------- over all runs

  lemma DeadIsNotSent(s: State, s': State, step: Step, id: nat)
    requires Next(s, s', step) && !Live(s, id)
    ensures Count(s'.sends, id) == Count(s.sends, id)
  {
    if step.ByWorker? && step.worker.BeginSend? {
      WorkerSendsLive(s, s', step.w, id);
    } else if step.ByFlush? && step.flush.FlushBegin? {
      FlushSendsLive(s, s', id);
    } else {
      SendsOnlyGrowAtBegin(s, s', step);
    }
  }

  lemma WorkerSendsLive(s: State, s': State, w: nat, id: nat)
    requires BeginSendStep(s, s', w) && !Live(s, id)
    ensures Count(s'.sends, id) == Count(s.sends, id)
  {
    assert !LiveAt(s, id, AtWorker(w));
    if s'.sends != s.sends {
      CountAppend(s.sends, s'.sends[|s.sends|], id);
    }
  }

  lemma FlushSendsLive(s: State, s': State, id: nat)
    requires FlushBeginStep(s, s') && !Live(s, id)
    ensures Count(s'.sends, id) == Count(s.sends, id)
  {
    assert !LiveAt(s, id, AtFlush);
    if s'.sends != s.sends {
      CountAppend(s.sends, s'.sends[|s.sends|], id);
    }
  }

  /** An event that is over stays so, and is not sent. */
  ghost predicate Over(s: State, id: nat, sent: nat) {
    id < s.nextId && !Live(s, id) && Count(s.sends, id) == sent
  }

  lemma FollowsKeepsOver(s: State, s': State, id: nat, sent: nat)
    requires Over(s, id, sent) && Follows(s, s')
    ensures Over(s', id, sent)
  {
    var step :| Next(s, s', step);
    DeadIsNotSent(s, s', step, id);
    if Live(s', id) {
      LiveWasLive(s, s', step, id);
    }
    IdsOnlyGrow(s, s', step);
  }

  lemma IdsOnlyGrow(s: State, s': State, step: Step)
    requires Next(s, s', step)
    ensures s.nextId <= s'.nextId
  {
    match step
    case ByWorker(w, action) => WorkersCreateNothing(s, s', w, action);
    case ByFlush(action) => FlushCreatesNothing(s, s', action);
    case _ =>
  }

  lemma EndsBetweenIsOver(s: State, s': State, id: nat)
    requires Inv(s) && EndsBetween(s, s', id)
    ensures Over(s', id, Count(s.sends, id))
  {
    var step :| Next(s, s', step) && Ends(s, step, id);
    EndIsDead(s, s', step, id);
    EndSendsNothing(s, s', step, id);
    EndIsOfKnown(s, step, id);
    IdsOnlyGrow(s, s', step);
  }

  lemma EndSendsNothing(s: State, s': State, step: Step, id: nat)
    requires Next(s, s', step) && Ends(s, step, id)
    ensures s'.sends == s.sends
  {
    if step.ByWorker? && step.worker.BeginSend? {
      assert BeginSendStep(s, s', step.w);
    } else if step.ByFlush? && step.flush.FlushBegin? {
      assert FlushBeginStep(s, s');
    } else {
      SendsOnlyGrowAtBegin(s, s', step);
    }
  }

  lemma EndIsOfKnown(s: State, step: Step, id: nat)
    requires HeldInv(s) && Ends(s, step, id)
    ensures id < s.nextId
  {
    match step
    case ByWorker(w, _) => PlaceOf(s, id, AtWorker(w));
    case ByScheduler(_) => PlaceOf(s, id, AtScheduler);
    case ByPublisher(p, _) => PlaceOf(s, id, AtPublisher(p));
    case ByFlush(action) => PlaceOf(s, id, if action.Start? then InHeap else AtFlush);
    case ByOthers(action) => PlaceOf(s, id, if action.RemoveQueued? then InLine else InHeap);
  }

  /**
    An event that came to its end, for whatever reason (delivered, found not
    current, its client inactive, attempts used up, removed with its client's
    pending events, given up), is in no place any more to be delivered from, and
    is never sent again.
  */
  lemma EndedIsOver(run: seq<State>, i: nat, n: nat, id: nat)
    requires IsRun(run) && i < n < |run| && EndsAt(run, i, id)
    ensures Over(run[n], id, Count(run[i].sends, id))
  {
    OverNext(run, i, id);
    OverLater(run, i + 1, n, id, Count(run[i].sends, id));
  }

  lemma {:induction false} OverLater(run: seq<State>, i: nat, n: nat, id: nat, sent: nat)
    requires IsRun(run) && i <= n < |run| && Over(run[i], id, sent)
    ensures Over(run[n], id, sent)
  {
    if i < n {
      var m := n - 1;
      assert run[m + 1] == run[n];
      OverLater(run, i, m, id, sent);
      OverStays(run, m, id, sent);
    }
  }

  lemma OverNext(run: seq<State>, i: nat, id: nat)
    requires IsRun(run) && i + 1 < |run| && EndsAt(run, i, id)
    ensures Over(run[i + 1], id, Count(run[i].sends, id))
  {
    RunInv(run, i);
    EndsBetweenIsOver(run[i], run[i + 1], id);
  }

  lemma OverStays(run: seq<State>, i: nat, id: nat, sent: nat)
    requires IsRun(run) && i + 1 < |run| && Over(run[i], id, sent)
    ensures Over(run[i + 1], id, sent)
  {
    assert StepAt(run, i);
    FollowsKeepsOver(run[i], run[i + 1], id, sent);
  }

  /** In particular an event whose send has succeeded is never sent again, by a worker or by the flush. */
  lemma DeliveredIsOver(run: seq<State>, i: nat, n: nat, step: Step, id: nat)
    requires IsRun(run) && i < n < |run| && Next(run[i], run[i + 1], step)
    requires || (step.ByWorker? && step.worker == EndSend(Delivered) && EventAt(run[i], id, AtWorker(step.w)))
             || (step == ByFlush(FlushReturn(Delivered)) && EventAt(run[i], id, AtFlush))
    ensures Count(run[n].sends, id) == Count(run[i].sends, id)
  {
    assert Ends(run[i], step, id);
    assert EndsBetween(run[i], run[i + 1], id);
    assert EndsAt(run, i, id);
    EndedIsOver(run, i, n, id);
  }

  /** And one found not current, wherever that is asked, is not sent either. */
  lemma NotCurrentIsOver(run: seq<State>, i: nat, n: nat, step: Step, id: nat)
    requires IsRun(run) && i < n < |run| && Next(run[i], run[i + 1], step)
    requires || (step.ByWorker? && step.worker in {Check(false), Judge(false), HoldDrop(false)}
                 && EventAt(run[i], id, AtWorker(step.w)))
             || (step == ByScheduler(JudgeDue(false)) && EventAt(run[i], id, AtScheduler))
             || (step == ByFlush(FlushCheck(false)) && EventAt(run[i], id, AtFlush))
    ensures Count(run[n].sends, id) == Count(run[i].sends, id)
  {
    assert Ends(run[i], step, id);
    assert EndsBetween(run[i], run[i + 1], id);
    assert EndsAt(run, i, id);
    EndedIsOver(run, i, n, id);
  }
}
