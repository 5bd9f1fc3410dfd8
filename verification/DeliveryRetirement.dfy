/** Retired generations: when sending retires one, that nothing is sent to it any more, and when it is removed. */
module DeliveryRetirement {
  import opened Delivery
  import opened DeliveryOwnership
  import opened DeliveryTheorems
  import opened DeliveryRuns

  // ---------------------------------------------------- nothing after retirement

  /** How many sends were begun to a generation. */
  ghost function SendsTo(sends: seq<Send>, g: nat): (n: nat) {
    if sends == [] then 0
    else SendsTo(sends[..|sends| - 1], g) + if sends[|sends| - 1].client == g then 1 else 0
  }

  lemma SendsToAppend(sends: seq<Send>, last: Send, g: nat)
    ensures SendsTo(sends + [last], g) == SendsTo(sends, g) + if last.client == g then 1 else 0
  {
    assert (sends + [last])[..|sends|] == sends;
  }

  /** Retired, with so many sends begun to it. */
  ghost predicate Silent(s: State, g: nat, sent: nat) {
    g in s.inactive && SendsTo(s.sends, g) == sent
  }

  lemma WorkersKeepInactive(s: State, s': State, w: nat, action: WorkerAction)
    requires WorkerNext(s, s', w, action)
    ensures s.inactive <= s'.inactive
  {}

  /** What the scheduler, publishers and the rest of the bus leave as it is. */
  ghost predicate LeavesSends(s: State, s': State) {
    && s'.workers == s.workers && s'.sends == s.sends && s'.removals == s.removals && s'.cfg == s.cfg
    && s.inactive <= s'.inactive && s.complete <= s'.complete
  }

  lemma SchedulerLeavesSends(s: State, s': State, action: SchedulerAction)
    requires SchedulerNext(s, s', action)
    ensures LeavesSends(s, s')
  {}

  lemma OthersLeaveSends(s: State, s': State, action: OtherAction)
    requires OtherNext(s, s', action)
    ensures LeavesSends(s, s')
  {}

  lemma RestLeavesSends(s: State, s': State, step: Step)
    requires Next(s, s', step) && !step.ByWorker? && !step.ByFlush?
    ensures LeavesSends(s, s')
  {
    match step
    case ByScheduler(action) => SchedulerLeavesSends(s, s', action);
    case ByPublisher(_, _) =>
    case ByOthers(action) => OthersLeaveSends(s, s', action);
    case ByLocks(_) =>
  }

  lemma NextKeepsInactive(s: State, s': State, step: Step)
    requires Next(s, s', step)
    ensures s.inactive <= s'.inactive
  {
    match step
    case ByWorker(w, action) => WorkersKeepInactive(s, s', w, action);
    case ByFlush(action) => FlushWithinFrame(s, s', action);
    case _ => RestLeavesSends(s, s', step);
  }

  lemma BeginSparesInactive(s: State, s': State, w: nat, g: nat)
    requires BeginSendStep(s, s', w) && g in s.inactive
    ensures SendsTo(s'.sends, g) == SendsTo(s.sends, g)
  {
    if s'.sends != s.sends {
      SendsToAppend(s.sends, s'.sends[|s.sends|], g);
    }
  }

  lemma FlushSparesInactive(s: State, s': State, g: nat)
    requires FlushBeginStep(s, s') && g in s.inactive
    ensures SendsTo(s'.sends, g) == SendsTo(s.sends, g)
  {
    if s'.sends != s.sends {
      SendsToAppend(s.sends, s'.sends[|s.sends|], g);
    }
  }

  lemma FollowsKeepsSilent(s: State, s': State, g: nat, sent: nat)
    requires Silent(s, g, sent) && Follows(s, s')
    ensures Silent(s', g, sent)
  {
    var step :| Next(s, s', step);
    NextKeepsInactive(s, s', step);
    if step.ByWorker? && step.worker.BeginSend? {
      BeginSparesInactive(s, s', step.w, g);
    } else if step.ByFlush? && step.flush.FlushBegin? {
      FlushSparesInactive(s, s', g);
    } else {
      SendsOnlyGrowAtBegin(s, s', step);
    }
  }

  /** Nothing is sent to a retired generation, and it stays retired. */
  lemma {:induction false} RetiredIsSilent(run: seq<State>, i: nat, n: nat, g: nat)
    requires IsRun(run) && i <= n < |run| && g in run[i].inactive
    ensures Silent(run[n], g, SendsTo(run[i].sends, g))
  {
    if i < n {
      var m := n - 1;
      assert run[m + 1] == run[n] && StepAt(run, m);
      RetiredIsSilent(run, i, m, g);
      FollowsKeepsSilent(run[m], run[n], g, SendsTo(run[i].sends, g));
    }
  }

  /** A send returns, to a worker or to the flush. */
  ghost predicate Returns(s: State, step: Step, g: nat, outcome: Outcome) {
    || (step.ByWorker? && step.worker == EndSend(outcome) && step.w < |s.workers| && Sends(s.workers[step.w], g))
    || (step == ByFlush(FlushReturn(outcome)) && FlushIn(s, Sending) && s.flush.event.client == g)
  }

  lemma ReturnRetires(s: State, s': State, step: Step, g: nat, outcome: Outcome)
    requires Next(s, s', step) && Returns(s, step, g, outcome)
    requires outcome.ConnectionClosed? || (outcome.Delivered? && g in s.complete)
    ensures g in s'.inactive && s'.sends == s.sends
  {
    if step.ByWorker? {
      assert EndSendStep(s, s', step.w, outcome);
    } else {
      assert FlushReturnStep(s, s', outcome);
    }
  }

  /** After a send that found the connection closed, nothing more is sent to the generation. */
  lemma ClosedIsSilent(run: seq<State>, i: nat, n: nat, step: Step, g: nat)
    requires IsRun(run) && i < n < |run| && Next(run[i], run[i + 1], step) && Returns(run[i], step, g, ConnectionClosed)
    ensures SendsTo(run[n].sends, g) == SendsTo(run[i].sends, g)
  {
    ReturnRetires(run[i], run[i + 1], step, g, ConnectionClosed);
    RetiredIsSilent(run, i + 1, n, g);
  }

  lemma {:induction false} CompleteStays(run: seq<State>, i: nat, n: nat, g: nat)
    requires IsRun(run) && i <= n < |run| && g in run[i].complete
    ensures g in run[n].complete
  {
    if i < n {
      var m := n - 1;
      assert run[m + 1] == run[n] && StepAt(run, m);
      CompleteStays(run, i, m, g);
      FollowsKeepsComplete(run[m], run[n]);
    }
  }

  lemma FollowsKeepsComplete(s: State, s': State)
    requires Follows(s, s')
    ensures s.complete <= s'.complete
  {
    var step :| Next(s, s', step);
    match step
    case ByWorker(w, action) => WorkersKeepComplete(s, s', w, action);
    case ByFlush(action) => FlushKeepsComplete(s, s', action);
    case _ => RestLeavesSends(s, s', step);
  }

  lemma WorkersKeepComplete(s: State, s': State, w: nat, action: WorkerAction)
    requires WorkerNext(s, s', w, action)
    ensures s'.complete == s.complete
  {}

  lemma FlushKeepsComplete(s: State, s': State, action: FlushAction)
    requires FlushNext(s, s', action)
    ensures s'.complete == s.complete
  {}

  /** A generation opened to complete after one message gets nothing more once one send has succeeded. */
  lemma CompletedIsSilent(run: seq<State>, k: nat, i: nat, n: nat, id: nat, step: Step)
    requires IsRun(run) && k < i < n < |run| && Next(run[k], run[k + 1], ByOthers(OpenClient(true, id)))
    requires Next(run[i], run[i + 1], step) && Returns(run[i], step, |run[k].line.books|, Delivered)
    ensures SendsTo(run[n].sends, |run[k].line.books|) == SendsTo(run[i].sends, |run[k].line.books|)
  {
    var g := |run[k].line.books|;
    assert OpenClientStep(run[k], run[k + 1], true, id);
    CompleteStays(run, k + 1, i, g);
    ReturnRetires(run[i], run[i + 1], step, g, Delivered);
    RetiredIsSilent(run, i + 1, n, g);
  }

  // ------------------------------------------------------------- exhaustion

  /** Worker `w` has had a last failed attempt at a current event of an active client. */
  ghost predicate UsesUp(s: State, w: nat, g: nat) {
    && WorkerIn(s, w, Returned(true)) && s.workers[w].event.client == g && g !in s.inactive
    && Count(s.sends, s.workers[w].event.id) >= s.cfg.attempts
  }

  lemma UsingUpRetires(s: State, s': State, w: nat, g: nat)
    requires Inv(s) && WorkerNext(s, s', w, Judge(true)) && UsesUp(s, w, g)
    ensures g in s'.inactive && s'.removals[g] == 1 && g in s'.locks.removing && s'.sends == s.sends
  {
    assert HeldAt(LedgerOf(s), s.workers[w].event, AtWorker(w));
    assert s.removals[g] == 0;
    assert JudgeStep(s, s', w, true);
  }

  lemma WorkersKeepStarted(s: State, s': State, w: nat, action: WorkerAction)
    requires WorkerNext(s, s', w, action)
    ensures s.removals <= s'.removals
  {}

  lemma FollowsKeepsStarted(s: State, s': State)
    requires Follows(s, s')
    ensures s.removals <= s'.removals
  {
    var step :| Next(s, s', step);
    match step
    case ByWorker(w, action) => WorkersKeepStarted(s, s', w, action);
    case ByFlush(action) => FlushWithinFrame(s, s', action);
    case _ => RestLeavesSends(s, s', step);
  }

  lemma {:induction false} StartedStays(run: seq<State>, i: nat, n: nat, g: nat)
    requires IsRun(run) && i <= n < |run| && run[i].removals[g] >= 1
    ensures run[n].removals[g] >= 1
  {
    if i < n {
      var m := n - 1;
      assert run[m + 1] == run[n] && StepAt(run, m);
      StartedStays(run, i, m, g);
      FollowsKeepsStarted(run[m], run[n]);
    }
  }

  /**
    When a current event of an active client has failed as often as it may, the
    client is retired and its removal started, at once and once: nothing is sent
    to it any more.
  */
  lemma ExhaustionRemoves(run: seq<State>, i: nat, n: nat, w: nat, g: nat)
    requires IsRun(run) && i < n < |run| && WorkerNext(run[i], run[i + 1], w, Judge(true)) && UsesUp(run[i], w, g)
    ensures g in run[i + 1].locks.removing
    ensures g in run[n].inactive && run[n].removals[g] == 1 && SendsTo(run[n].sends, g) == SendsTo(run[i].sends, g)
  {
    RunInv(run, i);
    UsingUpRetires(run[i], run[i + 1], w, g);
    StartedStays(run, i + 1, n, g);
    OneRemovalPerGeneration(run, n, g);
    RetiredIsSilent(run, i + 1, n, g);
  }

  /** Some event of the generation was sent for the last time allowed. */
  ghost predicate LastSend(sends: seq<Send>, maximum: nat, g: nat) {
    exists k :: 0 <= k < |sends| && sends[k].client == g && sends[k].attempt == maximum
  }

  ghost predicate Logged(sends: seq<Send>, e: Line.ClientEvent) {
    exists k :: 0 <= k < |sends| && sends[k].id == e.id && sends[k].client == e.client && sends[k].attempt == e.attempts
  }

  /** A worker in or after a send has it in the log; a removal was started after a last send only. */
  ghost predicate LogInv(s: State) {
    && (forall w :: 0 <= w < |s.workers| && s.workers[w].Busy? && (s.workers[w].phase.Sending? || s.workers[w].phase.Returned?) ==>
          Logged(s.sends, s.workers[w].event))
    && (forall g :: g in s.removals ==> LastSend(s.sends, s.cfg.attempts, g))
  }

  lemma LoggedMore(sends: seq<Send>, sends': seq<Send>, e: Line.ClientEvent)
    requires sends <= sends' && Logged(sends, e)
    ensures Logged(sends', e)
  {
    var k :| 0 <= k < |sends| && sends[k].id == e.id && sends[k].client == e.client && sends[k].attempt == e.attempts;
    assert sends'[k] == sends[k];
  }

  lemma LastSendMore(sends: seq<Send>, sends': seq<Send>, maximum: nat, g: nat)
    requires sends <= sends' && LastSend(sends, maximum, g)
    ensures LastSend(sends', maximum, g)
  {
    var k :| 0 <= k < |sends| && sends[k].client == g && sends[k].attempt == maximum;
    assert sends'[k] == sends[k];
  }

  /** What a worker's step does to what the log invariant is about. */
  lemma WorkerLogs(s: State, s': State, w: nat, action: WorkerAction)
    requires HeldInv(s) && LogInv(s) && WorkerNext(s, s', w, action)
    ensures s.sends <= s'.sends
    ensures s'.workers[w].Busy? && (s'.workers[w].phase.Sending? || s'.workers[w].phase.Returned?) ==>
      Logged(s'.sends, s'.workers[w].event)
  {
    match action
    case BeginSend =>
      assert BeginSendStep(s, s', w);
      if s'.workers[w].phase.Sending? {
        assert s'.sends[|s.sends|].id == s'.workers[w].event.id;
      }
    case EndSend(outcome) => assert EndSendStep(s, s', w, outcome);
    case _ => WorkersLogNothing(s, s', w, action);
  }

  lemma WorkersLogNothing(s: State, s': State, w: nat, action: WorkerAction)
    requires WorkerNext(s, s', w, action) && !action.BeginSend? && !action.EndSend?
    ensures s'.sends == s.sends
    ensures s'.workers[w].Busy? ==> !s'.workers[w].phase.Sending? && !s'.workers[w].phase.Returned?
  {
    WorkerSendsSame(s, s', w, action);
    match action
    case TurnComes => assert TurnComesStep(s, s', w);
    case Check(current) => assert CheckStep(s, s', w, current);
    case Judge(current) => assert JudgeStep(s, s', w, current);
    case Leave => assert LeaveStep(s, s', w);
    case SetDelay => assert SetDelayStep(s, s', w);
    case Schedule(back) => assert ScheduleStep(s, s', w, back);
    case _ =>
  }

  lemma WorkerRemovesSpent(s: State, s': State, w: nat, action: WorkerAction, g: nat)
    requires HeldInv(s) && LogInv(s) && WorkerNext(s, s', w, action) && g in s'.removals && g !in s.removals
    ensures LastSend(s.sends, s.cfg.attempts, g)
  {
    match action
    case Check(current) => CheckRemovesNobody(s, s', w, current);
    case Judge(current) =>
      assert JudgeStep(s, s', w, current);
      assert PhaseOk(s.workers[w].phase, s.workers[w].event, s.workers[w].ticket, s.cfg.attempts);
      assert Logged(s.sends, s.workers[w].event);
    case _ => WorkersRemoveNobody(s, s', w, action);
  }

  /** Before a send the attempts are never used up. */
  lemma CheckRemovesNobody(s: State, s': State, w: nat, current: bool)
    requires HeldInv(s) && CheckStep(s, s', w, current)
    ensures s'.removals == s.removals
  {
    assert PhaseOk(Checking, s.workers[w].event, s.workers[w].ticket, s.cfg.attempts);
  }

  lemma WorkersRemoveNobody(s: State, s': State, w: nat, action: WorkerAction)
    requires WorkerNext(s, s', w, action) && !action.Check? && !action.Judge?
    ensures s'.removals == s.removals
  {}

  lemma WorkerKeepsLog(s: State, s': State, w: nat, action: WorkerAction)
    requires HeldInv(s) && LogInv(s) && WorkerNext(s, s', w, action)
    ensures LogInv(s')
  {
    WorkerLogs(s, s', w, action);
    forall o | 0 <= o < |s'.workers| && s'.workers[o].Busy?
    && (s'.workers[o].phase.Sending? || s'.workers[o].phase.Returned?)
      ensures Logged(s'.sends, s'.workers[o].event)
    {
      if o != w {
        LoggedMore(s.sends, s'.sends, s.workers[o].event);
      }
    }
    forall g | g in s'.removals
      ensures LastSend(s'.sends, s'.cfg.attempts, g)
    {
      if g !in s.removals {
        WorkerRemovesSpent(s, s', w, action, g);
      }
      LastSendMore(s.sends, s'.sends, s.cfg.attempts, g);
    }
  }

  lemma SameWorkersKeepLog(s: State, s': State)
    requires LogInv(s) && s'.workers == s.workers && s'.removals == s.removals && s'.cfg == s.cfg && s.sends <= s'.sends
    ensures LogInv(s')
  {
    forall o | 0 <= o < |s'.workers| && s'.workers[o].Busy?
    && (s'.workers[o].phase.Sending? || s'.workers[o].phase.Returned?)
      ensures Logged(s'.sends, s'.workers[o].event)
    {
      LoggedMore(s.sends, s'.sends, s.workers[o].event);
    }
    forall g | g in s'.removals
      ensures LastSend(s'.sends, s'.cfg.attempts, g)
    {
      LastSendMore(s.sends, s'.sends, s.cfg.attempts, g);
    }
  }

  lemma FlushOnlyAddsSends(s: State, s': State, action: FlushAction)
    requires FlushNext(s, s', action)
    ensures s.sends <= s'.sends
  {
    if action.FlushBegin? {
      assert FlushBeginStep(s, s');
    } else {
      FlushSendsSame(s, s', action);
    }
  }

  lemma FollowsKeepsLog(s: State, s': State)
    requires HeldInv(s) && LogInv(s) && Follows(s, s')
    ensures LogInv(s')
  {
    var step :| Next(s, s', step);
    match step
    case ByWorker(w, action) => WorkerKeepsLog(s, s', w, action);
    case ByFlush(action) =>
      FlushWithinFrame(s, s', action);
      FlushOnlyAddsSends(s, s', action);
      SameWorkersKeepLog(s, s');
    case _ =>
      RestLeavesSends(s, s', step);
      SameWorkersKeepLog(s, s');
  }

  lemma {:induction false} RunLogInv(run: seq<State>, n: nat)
    requires IsRun(run) && n < |run|
    ensures LogInv(run[n])
  {
    if n > 0 {
      var m := n - 1;
      assert run[m + 1] == run[n] && StepAt(run, m);
      RunLogInv(run, m);
      HeldAlong(run, m);
      FollowsKeepsLog(run[m], run[n]);
    }
  }

  /** A removal is started only for a client one of whose events was sent for the last time allowed. */
  lemma RemovedOnlyExhausted(run: seq<State>, n: nat, g: nat)
    requires IsRun(run) && n < |run| && g in run[n].removals
    ensures LastSend(run[n].sends, run[n].cfg.attempts, g)
  {
    RunLogInv(run, n);
  }
}
