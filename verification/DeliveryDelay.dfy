/** A retry waits out its delay, whichever way it takes back to a connection. */
module DeliveryDelay {
  import opened Options
  import opened Line
  import opened Retries
  import opened Delivery
  import opened DeliveryOwnership
  import opened DeliveryTheorems
  import opened DeliveryRuns
  import opened DeliveryConservation
  import opened DeliveryEnds

  /** In somebody's hand: still to wait until `due`, or the time has come, or done with. */
  predicate RipeInHand(phase: Phase, e: ClientEvent, now: int, due: int) {
    match phase
    case Scheduling => due <= e.retryAfter
    case Holding => due <= e.retryAfter
    case Waiting => due <= now
    case Checking => due <= now
    case Ready => due <= now
    case Leaving(retry) => !retry
    case _ => false
  }

  /** Wherever event `id` is, it is not on its way to a connection before `due`. */
  ghost predicate Ripe(s: State, id: nat, due: int) {
    && (forall i :: 0 <= i < |s.line.items| && s.line.items[i].id == id ==> due <= s.now)
    && (forall e :: e in s.retries.items && e.id == id ==> due <= e.retryAfter)
    && (forall w :: 0 <= w < |s.workers| && s.workers[w].Busy? && s.workers[w].event.id == id ==>
          RipeInHand(s.workers[w].phase, s.workers[w].event, s.now, due))
    && ((s.scheduler.Judging? || s.scheduler.Pushing?) && s.scheduler.event.id == id ==> due <= s.now)
    && (s.flush.Flushing? && s.flush.event.id == id ==> RipeInHand(s.flush.phase, s.flush.event, s.now, due))
    && (forall p :: p in s.publishers ==> s.publishers[p].id != id)
  }

  /** A send of the event was begun. */
  ghost predicate Begins(s: State, s': State, id: nat) {
    Count(s'.sends, id) > Count(s.sends, id)
  }

  // ------------------------------------------------------------------ workers

  lemma WorkerHandRipe(s: State, s': State, w: nat, action: WorkerAction, id: nat, due: int)
    requires Ripe(s, id, due) && WorkerNext(s, s', w, action) && !action.BeginSend? && !action.Schedule? && !action.Pop?
    requires s'.workers[w].Busy? && s'.workers[w].event.id == id
    ensures RipeInHand(s'.workers[w].phase, s'.workers[w].event, s.now, due)
  {
    match action
    case TurnComes => TurnRipe(s, s', w, id, due);
    case Check(current) => CheckRipe(s, s', w, current, id, due);
    case HoldDue => HoldRipe(s, s', w, id, due);
    case _ => OtherHandRipe(s, s', w, action, id, due);
  }

  lemma TurnRipe(s: State, s': State, w: nat, id: nat, due: int)
    requires Ripe(s, id, due) && TurnComesStep(s, s', w) && s'.workers[w].Busy? && s'.workers[w].event.id == id
    ensures RipeInHand(s'.workers[w].phase, s'.workers[w].event, s.now, due)
  {}

  lemma CheckRipe(s: State, s': State, w: nat, current: bool, id: nat, due: int)
    requires Ripe(s, id, due) && CheckStep(s, s', w, current) && s'.workers[w].Busy? && s'.workers[w].event.id == id
    ensures RipeInHand(s'.workers[w].phase, s'.workers[w].event, s.now, due)
  {}

  lemma HoldRipe(s: State, s': State, w: nat, id: nat, due: int)
    requires Ripe(s, id, due) && HoldDueStep(s, s', w) && s'.workers[w].event.id == id
    ensures RipeInHand(s'.workers[w].phase, s'.workers[w].event, s.now, due)
  {}

  /** The other steps start from points at which the event is being sent or has been, or end with empty hands. */
  lemma OtherHandRipe(s: State, s': State, w: nat, action: WorkerAction, id: nat, due: int)
    requires Ripe(s, id, due) && WorkerNext(s, s', w, action)
    requires action.Exit? || action.EndSend? || action.Judge? || action.Leave? || action.SetDelay? || action.HoldDrop?
    ensures s'.workers[w].Busy? ==> s'.workers[w].event.id != id
  {
    AfterSendPhases(s, s', w, action);
  }

  lemma AfterSendPhases(s: State, s': State, w: nat, action: WorkerAction)
    requires WorkerNext(s, s', w, action)
    requires action.Exit? || action.EndSend? || action.Judge? || action.Leave? || action.SetDelay? || action.HoldDrop?
    ensures s'.workers[w].Busy? ==>
      && s.workers[w].Busy? && s'.workers[w].event.id == s.workers[w].event.id
      && (s.workers[w].phase.Sending? || s.workers[w].phase.Returned? || s.workers[w].phase == Leaving(true)
          || s.workers[w].phase.Delaying?)
  {
    match action
    case EndSend(outcome) => assert EndSendStep(s, s', w, outcome);
    case Judge(current) => assert JudgeStep(s, s', w, current);
    case Leave => assert LeaveStep(s, s', w);
    case SetDelay => assert SetDelayStep(s, s', w);
    case _ =>
  }

  lemma BeginRipe(s: State, s': State, w: nat, id: nat, due: int)
    requires Ripe(s, id, due) && BeginSendStep(s, s', w) && s.workers[w].event.id == id
    ensures due <= s.now
    ensures Begins(s, s', id) || (s'.sends == s.sends && s'.workers[w].phase == Leaving(false))
  {
    if s'.sends != s.sends {
      CountAppend(s.sends, s'.sends[|s.sends|], id);
    }
  }

  lemma ScheduleRipe(s: State, s': State, w: nat, back: Option<ClientEvent>, id: nat, due: int, x: ClientEvent)
    requires Ripe(s, id, due) && ScheduleStep(s, s', w, back) && !s.retries.closed
    requires (x in s'.retries.items || back == Some(x)) && x.id == id
    ensures due <= x.retryAfter
  {
    ScheduledWasThere(s.retries, s.workers[w].event, s'.retries, back, x);
  }

  lemma WorkerLineRipe(s: State, s': State, w: nat, action: WorkerAction, id: nat, due: int, i: nat)
    requires Ripe(s, id, due) && WorkerNext(s, s', w, action) && i < |s'.line.items| && s'.line.items[i].id == id
    ensures due <= s.now
  {
    LineOnlyShrinks(s, s', w, action);
    LineHadIt(s.line.items, s'.line.items, id, i);
  }

  lemma PopRipe(s: State, s': State, w: nat, id: nat, due: int)
    requires Ripe(s, id, due) && PopStep(s, s', w) && s'.workers[w].event.id == id
    ensures RipeInHand(s'.workers[w].phase, s'.workers[w].event, s.now, due)
  {}

  lemma WorkersHaveNoTime(s: State, s': State, w: nat, action: WorkerAction)
    requires WorkerNext(s, s', w, action)
    ensures s'.now == s.now
  {}

  lemma HandRipe(s: State, s': State, w: nat, action: WorkerAction, id: nat, due: int)
    requires Ripe(s, id, due) && WorkerNext(s, s', w, action) && !Begins(s, s', id)
    requires s'.workers[w].Busy? && s'.workers[w].event.id == id
    ensures RipeInHand(s'.workers[w].phase, s'.workers[w].event, s.now, due)
  {
    match action
    case Pop => PopRipe(s, s', w, id, due);
    case BeginSend => BeginRipe(s, s', w, id, due);
    case Schedule(back) =>
      HandAfterSchedule(s, s', w, back);
      HoldingAfterSchedule(s, s', w, back);
      ScheduleRipe(s, s', w, back, id, due, s'.workers[w].event);
    case _ => WorkerHandRipe(s, s', w, action, id, due);
  }

  lemma HoldingAfterSchedule(s: State, s': State, w: nat, back: Option<ClientEvent>)
    requires ScheduleStep(s, s', w, back) && w < |s'.workers| && s'.workers[w].Busy?
    ensures !s.retries.closed && s'.workers[w].phase.Holding?
  {}

  lemma HeapRipe(s: State, s': State, w: nat, action: WorkerAction, id: nat, due: int, e: ClientEvent)
    requires Ripe(s, id, due) && WorkerNext(s, s', w, action) && e in s'.retries.items && e.id == id
    ensures due <= e.retryAfter
  {
    if action.Schedule? && !s.retries.closed {
      ScheduleRipe(s, s', w, action.back, id, due, e);
    } else {
      WorkerKeepsHeap(s, s', w, action);
    }
  }

  lemma WorkerKeepsRipe(s: State, s': State, w: nat, action: WorkerAction, id: nat, due: int)
    requires Ripe(s, id, due) && WorkerNext(s, s', w, action) && !Begins(s, s', id)
    ensures Ripe(s', id, due)
  {
    WorkersHaveNoTime(s, s', w, action);
    forall i | 0 <= i < |s'.line.items| && s'.line.items[i].id == id
      ensures due <= s'.now
    {
      WorkerLineRipe(s, s', w, action, id, due, i);
    }
    forall e | e in s'.retries.items && e.id == id
      ensures due <= e.retryAfter
    {
      HeapRipe(s, s', w, action, id, due, e);
    }
    if s'.workers[w].Busy? && s'.workers[w].event.id == id {
      HandRipe(s, s', w, action, id, due);
    }
  }

  // ------------------------------------------------------------- everybody else

  lemma PushRipe(s: State, e: ClientEvent, id: nat, due: int, i: nat)
    requires e.client < |s.line.books| == |s.pushed| && i < |PushNow(s, e).line.items|
    requires PushNow(s, e).line.items[i].id == id
    requires Ripe(s, id, due) && (e.id == id ==> due <= s.now)
    ensures due <= s.now
  {
    if i < |s.line.items| {
      assert s.line.items[i].id == id;
    }
  }

  lemma SchedulerKeepsRipe(s: State, s': State, action: SchedulerAction, id: nat, due: int)
    requires Ripe(s, id, due) && SchedulerNext(s, s', action)
    ensures Ripe(s', id, due)
  {
    match action
    case PopDue(at, e) => assert SchedulerPopStep(s, s', at, e);
    case PushDue =>
      assert SchedulerPushStep(s, s');
      forall i | 0 <= i < |s'.line.items| && s'.line.items[i].id == id
        ensures due <= s'.now
      {
        PushRipe(s, s.scheduler.event, id, due, i);
      }
    case _ =>
  }

  lemma PublisherKeepsRipe(s: State, s': State, p: nat, action: PublisherAction, id: nat, due: int)
    requires Ripe(s, id, due) && PublisherNext(s, s', p, action) && id < s.nextId
    ensures Ripe(s', id, due)
  {
    if action.PushNew? {
      assert PublisherPushStep(s, s', p);
      forall i | 0 <= i < |s'.line.items| && s'.line.items[i].id == id
        ensures due <= s'.now
      {
        PushRipe(s, s.publishers[p], id, due, i);
      }
    }
  }

  lemma FlushBeginRipe(s: State, s': State, id: nat, due: int)
    requires Ripe(s, id, due) && FlushBeginStep(s, s') && s.flush.event.id == id
    ensures due <= s.now
    ensures Begins(s, s', id) || (s'.sends == s.sends && s'.flush.phase == Leaving(false))
  {
    if s'.sends != s.sends {
      CountAppend(s.sends, s'.sends[|s.sends|], id);
    }
  }

  lemma FlushHandRipe(s: State, s': State, action: FlushAction, id: nat, due: int)
    requires Ripe(s, id, due) && FlushNext(s, s', action) && !Begins(s, s', id)
    requires s'.flush.Flushing? && s'.flush.event.id == id
    ensures RipeInHand(s'.flush.phase, s'.flush.event, s.now, due)
  {
    match action
    case Take => assert FlushTakeStep(s, s');
    case FlushTurn => assert FlushTurnStep(s, s');
    case FlushCheck(current) => assert FlushCheckStep(s, s', current);
    case FlushBegin => FlushBeginRipe(s, s', id, due);
    case _ =>
  }

  lemma FlushHasNoTime(s: State, s': State, action: FlushAction)
    requires FlushNext(s, s', action)
    ensures s'.now == s.now
  {}

  lemma FlushKeepsRipe(s: State, s': State, action: FlushAction, id: nat, due: int)
    requires Ripe(s, id, due) && FlushNext(s, s', action) && !Begins(s, s', id)
    ensures Ripe(s', id, due)
  {
    FlushHasNoTime(s, s', action);
    FlushWithinFrame(s, s', action);
    FlushTakesFromLine(s, s', action);
    forall i | 0 <= i < |s'.line.items| && s'.line.items[i].id == id
      ensures due <= s'.now
    {
      LineHadIt(s.line.items, s'.line.items, id, i);
    }
    if s'.flush.Flushing? && s'.flush.event.id == id {
      FlushHandRipe(s, s', action, id, due);
    }
  }

  lemma OthersKeepRipe(s: State, s': State, action: OtherAction, id: nat, due: int)
    requires Ripe(s, id, due) && OtherNext(s, s', action)
    ensures Ripe(s', id, due)
  {
    match action
    case RemoveQueued(client, replayableOnly) => RemoveQueuedKeepsRipe(s, s', client, replayableOnly, id, due);
    case RemoveRetries(client, replayableOnly) => RemoveRetriesKeepsRipe(s, s', client, replayableOnly, id, due);
    case OpenClient(complete, c) => assert OpenClientStep(s, s', complete, c);
    case _ =>
  }

  lemma RemoveQueuedKeepsRipe(s: State, s': State, client: nat, replayableOnly: bool, id: nat, due: int)
    requires Ripe(s, id, due) && OtherNext(s, s', RemoveQueued(client, replayableOnly))
    ensures Ripe(s', id, due)
  {
    if !Drained(s.flush) {
      forall i | 0 <= i < |s'.line.items| && s'.line.items[i].id == id
        ensures due <= s'.now
      {
        QueueKeepsExactly(s, s', client, replayableOnly, s'.line.items[i]);
      }
    }
  }

  lemma RemoveRetriesKeepsRipe(s: State, s': State, client: nat, replayableOnly: bool, id: nat, due: int)
    requires Ripe(s, id, due) && OtherNext(s, s', RemoveRetries(client, replayableOnly))
    ensures Ripe(s', id, due)
  {
    assert RemoveRetriesStep(s, s', client, replayableOnly);
    forall e | e in s'.retries.items && e.id == id
      ensures due <= e.retryAfter
    {
      RetriesKeepExactly(s, s', client, replayableOnly, e);
    }
  }

  // ------------------------------------------------------------- over all runs

  lemma StepKeepsRipe(s: State, s': State, step: Step, id: nat, due: int)
    requires Ripe(s, id, due) && Next(s, s', step) && id < s.nextId && !Begins(s, s', id)
    ensures Ripe(s', id, due)
  {
    match step
    case ByWorker(w, action) => WorkerKeepsRipe(s, s', w, action, id, due);
    case ByScheduler(action) => SchedulerKeepsRipe(s, s', action, id, due);
    case ByPublisher(p, action) => PublisherKeepsRipe(s, s', p, action, id, due);
    case ByFlush(action) => FlushKeepsRipe(s, s', action, id, due);
    case ByOthers(action) => OthersKeepRipe(s, s', action, id, due);
    case ByLocks(_) =>
  }

  lemma BeginIsRipe(s: State, s': State, step: Step, id: nat, due: int)
    requires Ripe(s, id, due) && Next(s, s', step) && Begins(s, s', id)
    ensures due <= s.now
  {
    if step.ByWorker? && step.worker.BeginSend? {
      assert BeginSendStep(s, s', step.w);
      CountAppend(s.sends, s'.sends[|s.sends|], id);
      BeginRipe(s, s', step.w, id, due);
    } else if step.ByFlush? && step.flush.FlushBegin? {
      assert FlushBeginStep(s, s');
      CountAppend(s.sends, s'.sends[|s.sends|], id);
      FlushBeginRipe(s, s', id, due);
    } else {
      SendsOnlyGrowAtBegin(s, s', step);
    }
  }

  lemma CountOnlyGrows(s: State, s': State, step: Step, id: nat)
    requires Next(s, s', step)
    ensures Count(s.sends, id) <= Count(s'.sends, id)
  {
    if step.ByWorker? && step.worker.BeginSend? {
      assert BeginSendStep(s, s', step.w);
      if s'.sends != s.sends {
        CountAppend(s.sends, s'.sends[|s.sends|], id);
      }
    } else if step.ByFlush? && step.flush.FlushBegin? {
      assert FlushBeginStep(s, s');
      if s'.sends != s.sends {
        CountAppend(s.sends, s'.sends[|s.sends|], id);
      }
    } else {
      SendsOnlyGrowAtBegin(s, s', step);
    }
  }

  /** What is carried along the run: the event is known, ripe at `due`, and was sent `sent` times. */
  ghost predicate Carried(s: State, id: nat, due: int, sent: nat) {
    id < s.nextId && Count(s.sends, id) >= sent && (Count(s.sends, id) == sent ==> Ripe(s, id, due))
  }

  lemma FollowsKeepsWaiting(s: State, s': State, id: nat, due: int, sent: nat)
    requires Carried(s, id, due, sent) && Follows(s, s')
    ensures Carried(s', id, due, sent)
    ensures Count(s.sends, id) == sent && Begins(s, s', id) ==> due <= s.now
  {
    var step :| Next(s, s', step);
    CountOnlyGrows(s, s', step, id);
    IdsOnlyGrow(s, s', step);
    if Count(s.sends, id) == sent {
      if Begins(s, s', id) {
        BeginIsRipe(s, s', step, id, due);
      } else {
        StepKeepsRipe(s, s', step, id, due);
      }
    }
  }

  lemma {:induction false} WaitingAlong(run: seq<State>, i: nat, n: nat, id: nat, due: int, sent: nat)
    requires IsRun(run) && i <= n < |run| && Carried(run[i], id, due, sent)
    ensures Carried(run[n], id, due, sent)
  {
    if i < n {
      var m := n - 1;
      assert run[m + 1] == run[n] && StepAt(run, m);
      WaitingAlong(run, i, m, id, due, sent);
      FollowsKeepsWaiting(run[m], run[n], id, due, sent);
    }
  }

  lemma DelaySetsRipe(s: State, s': State, w: nat, id: nat)
    requires HeldInv(s) && SetDelayStep(s, s', w) && s.workers[w].event.id == id
    ensures Carried(s', id, s.now + Backoff.Delay(s.cfg.retryBase, s.cfg.retryMax, Count(s.sends, id)), Count(s.sends, id))
  {
    NowhereElse(s, w, id);
    assert HeldAt(LedgerOf(s), s.workers[w].event, AtWorker(w));
    assert s'.workers[w].event.retryAfter == s.now + Backoff.Delay(s.cfg.retryBase, s.cfg.retryMax, s.workers[w].event.attempts);
  }

  /** An event in a worker's hand is nowhere else. */
  lemma NowhereElse(s: State, w: nat, id: nat)
    requires HeldInv(s) && EventAt(s, id, AtWorker(w))
    ensures forall i :: 0 <= i < |s.line.items| ==> s.line.items[i].id != id
    ensures forall e :: e in s.retries.items ==> e.id != id
    ensures forall o :: 0 <= o < |s.workers| && s.workers[o].Busy? && s.workers[o].event.id == id ==> o == w
    ensures s.scheduler.Judging? || s.scheduler.Pushing? ==> s.scheduler.event.id != id
    ensures s.flush.Flushing? ==> s.flush.event.id != id
    ensures forall p :: p in s.publishers ==> s.publishers[p].id != id
  {}

  /**
    After a failed attempt number `a` an event is not sent again before the time
    at which its delay was set plus min(base * 2^(a-1), maximum): neither by the
    worker that keeps it, nor through the retry heap and the send queue, nor by
    the shutdown flush.
  */
  lemma RetryWaits(run: seq<State>, i: nat, n: nat, w: nat, id: nat)
    requires IsRun(run) && i < n && n + 1 < |run| && WorkerNext(run[i], run[i + 1], w, SetDelay)
    requires run[i].workers[w].Busy? && run[i].workers[w].event.id == id
    requires Count(run[n].sends, id) == Count(run[i].sends, id) < Count(run[n + 1].sends, id)
    ensures Count(run[i].sends, id) >= 1
    ensures run[n].now >= run[i].now + Backoff.Min(run[i].cfg.retryBase * Backoff.Pow2(Count(run[i].sends, id) - 1),
                                                    run[i].cfg.retryMax)
  {
    AttemptedAtDelay(run, i, w);
    DelaySets(run, i, w, id);
    var sent := Count(run[i].sends, id);
    var due := run[i].now + Backoff.Delay(run[i].cfg.retryBase, run[i].cfg.retryMax, sent);
    WaitingAlong(run, i + 1, n, id, due, sent);
    assert StepAt(run, n);
    FollowsKeepsWaiting(run[n], run[n + 1], id, due, sent);
  }

  lemma DelaySets(run: seq<State>, i: nat, w: nat, id: nat)
    requires IsRun(run) && i + 1 < |run| && WorkerNext(run[i], run[i + 1], w, SetDelay)
    requires run[i].workers[w].Busy? && run[i].workers[w].event.id == id
    ensures Carried(run[i + 1], id,
                     run[i].now + Backoff.Delay(run[i].cfg.retryBase, run[i].cfg.retryMax, Count(run[i].sends, id)),
                     Count(run[i].sends, id))
  {
    HeldAlong(run, i);
    DelaySetsRipe(run[i], run[i + 1], w, id);
  }

  lemma AttemptedAtDelay(run: seq<State>, i: nat, w: nat)
    requires IsRun(run) && i < |run| && WorkerIn(run[i], w, Delaying)
    ensures Count(run[i].sends, run[i].workers[w].event.id) == run[i].workers[w].event.attempts >= 1
  {
    RunInv(run, i);
    assert HeldAt(LedgerOf(run[i]), run[i].workers[w].event, AtWorker(w));
    assert PhaseOk(Delaying, run[i].workers[w].event, run[i].workers[w].ticket, run[i].cfg.attempts);
  }
}
