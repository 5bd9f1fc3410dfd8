/** The replay log of one client ID: what it holds at any time. */
module LifecycleLog {
  import opened Options
  import opened Lifecycle
  import opened ReplayLog

  ghost predicate Rising(s: seq<nat>) {
    forall i, j :: 0 <= i < j < |s| ==> s[i] < s[j]
  }

  lemma FreshContains(events: seq<Entry>, log: seq<nat>, before: int, k: nat)
    ensures k in Fresh(events, log, before) <==> k in log && !Expired(events, k, before)
  {
    UnexpiredContains(log, TimesOf(events), before, k);
  }

  lemma {:induction false} FreshRising(events: seq<Entry>, log: seq<nat>, before: int)
    requires Rising(log)
    ensures Rising(Fresh(events, log, before))
  {
    if log != [] {
      var shorter := log[..|log| - 1];
      FreshRising(events, shorter, before);
      forall i | 0 <= i < |Fresh(events, shorter, before)|
        ensures Fresh(events, shorter, before)[i] < log[|log| - 1]
      {
        FreshContains(events, shorter, before, Fresh(events, shorter, before)[i]);
      }
    }
  }

  // ------------------------------------------------------------------ the log

  /** The replay log is in order of handling, and misses only what was cleared or has expired. */
  ghost predicate LogInv(s: State) {
    && Rising(s.log)
    && (forall i :: 0 <= i < |s.log| ==> s.log[i] < |s.events| && s.events[s.log[i]].id != "")
    && (forall k :: 0 <= k < |s.events| ==> Retained(s.events, s.log, s.cleared, Cutoff(s), k))
  }

  ghost predicate Retained(events: seq<Entry>, log: seq<nat>, cleared: nat, cutoff: int, k: nat)
    requires k < |events|
  {
    events[k].id != "" ==> k in log || k < cleared || Expired(events, k, cutoff)
  }

  ghost function Cutoff(s: State): (t: int) {
    s.now - s.retention
  }

  /** Times of storing never go back, and are not in the future. */
  ghost predicate TimesInv(s: State) {
    && (forall i, j :: 0 <= i < j < |s.events| ==> s.events[i].storedAt <= s.events[j].storedAt)
    && (forall i :: 0 <= i < |s.events| ==> s.events[i].storedAt <= s.now)
    && (s.section.Held? && s.section.pc.StoreEvent? ==>
          s.section.pc.at <= s.now && forall i :: 0 <= i < |s.events| ==> s.events[i].storedAt <= s.section.pc.at)
  }

  ghost predicate Calm(s: State, s': State) {
    s'.events == s.events && s'.log == s.log && s'.cleared == s.cleared && s'.now == s.now
    && s'.retention == s.retention
    && (s'.section.Held? && s'.section.pc.StoreEvent? ==>
          (s.section == s'.section || s'.section.pc.at == s.now))
  }

  lemma CalmKeepsLog(s: State, s': State)
    requires LogInv(s) && TimesInv(s) && Calm(s, s')
    ensures LogInv(s') && TimesInv(s')
  {
    assert Cutoff(s') == Cutoff(s);
  }

  lemma StoreKeepsLog(s: State, s': State, ok: bool)
    requires LogInv(s) && TimesInv(s) && s.section.Held? && s.section.pc.StoreEvent? && HandleStep(s, s', ok)
    ensures LogInv(s') && TimesInv(s')
  {
    var n := |s.events|;
    forall k | 0 <= k < |s'.events|
      ensures Retained(s'.events, s'.log, s'.cleared, Cutoff(s'), k)
    {
      if k < n {
        assert Retained(s.events, s.log, s.cleared, Cutoff(s), k);
        assert k in s.log ==> k in s'.log;
      } else if s'.events[k].id != "" {
        assert s'.log[|s.log|] == n;
      }
    }
  }

  lemma ClearKeepsLog(s: State, s': State, ok: bool)
    requires LogInv(s) && TimesInv(s) && s.section.Held? && s.section.pc.DropLog? && RemoveStep(s, s', ok)
    ensures LogInv(s') && TimesInv(s')
  {}

  lemma PurgeKeepsLog(s: State, s': State, before: int)
    requires LogInv(s) && TimesInv(s) && OutsideStep(s, s', Purge(before))
    ensures LogInv(s') && TimesInv(s')
  {
    FreshRising(s.events, s.log, before);
    assert Cutoff(s') == Cutoff(s);
    forall i | 0 <= i < |s'.log|
      ensures s'.log[i] < |s.events| && s.events[s'.log[i]].id != ""
    {
      FreshContains(s.events, s.log, before, s'.log[i]);
    }
    forall k | 0 <= k < |s.events|
      ensures Retained(s.events, s'.log, s.cleared, Cutoff(s), k)
    {
      assert Retained(s.events, s.log, s.cleared, Cutoff(s), k);
      FreshContains(s.events, s.log, before, k);
    }
  }

  lemma TickKeepsLog(s: State, s': State, time: int)
    requires LogInv(s) && TimesInv(s) && OutsideStep(s, s', Tick(time))
    ensures LogInv(s') && TimesInv(s')
  {
    forall k | 0 <= k < |s.events|
      ensures Retained(s'.events, s'.log, s'.cleared, Cutoff(s'), k)
    {
      assert Retained(s.events, s.log, s.cleared, Cutoff(s), k);
    }
  }

  lemma InsideCalm(s: State, s': State, ok: bool)
    requires InsideStep(s, s', ok) && !s.section.pc.StoreEvent? && !s.section.pc.DropLog?
    ensures Calm(s, s')
  {
    if ReplayStep(s, s', ok) {
      ReplayCalm(s, s', ok);
    } else if HandleStep(s, s', ok) {
      HandleCalm(s, s', ok);
    } else if RegisterStep(s, s') {
      RegisterCalm(s, s');
    } else if RemoveStep(s, s', ok) {
      RemoveCalm(s, s', ok);
    }
  }

  lemma ReplayCalm(s: State, s': State, ok: bool)
    requires s.section.Held? && ReplayStep(s, s', ok)
    ensures Calm(s, s')
  {
    if s.section.pc.Loop? {
      LoopCalm(s, s');
    }
  }

  lemma LoopCalm(s: State, s': State)
    requires s.section.Held? && s.section.pc.Loop? && LoopStep(s, s')
    ensures Calm(s, s')
  {}

  lemma RegisterCalm(s: State, s': State)
    requires s.section.Held? && RegisterStep(s, s')
    ensures Calm(s, s')
  {}

  lemma RemoveCalm(s: State, s': State, ok: bool)
    requires s.section.Held? && !s.section.pc.DropLog? && RemoveStep(s, s', ok)
    ensures Calm(s, s')
  {}

  lemma HandleCalm(s: State, s': State, ok: bool)
    requires s.section.Held? && !s.section.pc.StoreEvent? && HandleStep(s, s', ok)
    ensures Calm(s, s')
  {}

  lemma InsideKeepsLog(s: State, s': State, ok: bool)
    requires LogInv(s) && TimesInv(s) && InsideStep(s, s', ok)
    ensures LogInv(s') && TimesInv(s')
  {
    if s.section.pc.StoreEvent? {
      StoreKeepsLog(s, s', ok);
    } else if s.section.pc.DropLog? {
      ClearKeepsLog(s, s', ok);
    } else {
      InsideCalm(s, s', ok);
      CalmKeepsLog(s, s');
    }
  }

  lemma OutsideCalm(s: State, s': State, action: Action)
    requires OutsideStep(s, s', action) && !action.Purge? && !action.Tick?
    ensures Calm(s, s')
  {}

  lemma StepKeepsLog(s: State, s': State, action: Action)
    requires LogInv(s) && TimesInv(s) && Next(s, s', action)
    ensures LogInv(s') && TimesInv(s')
  {
    if action.Inside? {
      InsideKeepsLog(s, s', action.ok);
    } else if action.Purge? {
      PurgeKeepsLog(s, s', action.before);
    } else if action.Tick? {
      TickKeepsLog(s, s', action.time);
    } else {
      OutsideCalm(s, s', action);
      CalmKeepsLog(s, s');
    }
  }

  // ------------------------------------------------------------- over all runs

  lemma FollowsKeepsLog(s: State, s': State)
    requires LogInv(s) && TimesInv(s) && Follows(s, s')
    ensures LogInv(s') && TimesInv(s')
  {
    var action :| Next(s, s', action);
    StepKeepsLog(s, s', action);
  }

  /** The log holds, in order, every event handled with an ID but those cleared and those expired. */
  lemma {:induction false} RunLogInv(run: seq<State>, n: nat)
    requires IsRun(run) && n < |run|
    ensures LogInv(run[n]) && TimesInv(run[n])
  {
    if n > 0 {
      var i := n - 1;
      assert run[i + 1] == run[n] && StepAt(run, i);
      RunLogInv(run, i);
      FollowsKeepsLog(run[i], run[n]);
    }
  }

  /** Logs written by the bus are chronological. */
  lemma LogChronological(run: seq<State>, n: nat)
    requires IsRun(run) && n < |run|
    ensures Rising(run[n].log) && (forall i :: 0 <= i < |run[n].log| ==> run[n].log[i] < |run[n].events|)
    ensures Chronological(run[n].log, TimesOf(run[n].events))
  {
    RunLogInv(run, n);
  }

  /**
    So cleanup is invisible to replay in every reachable state: purging up to a
    time not later than the replay's cutoff changes nothing in what a replay
    finds unexpired, for every cursor, one that is itself purged included.
  */
  lemma CleanupInvisible(run: seq<State>, n: nat, before: int, cutoff: int, cursor: string)
    requires IsRun(run) && n < |run| && before <= cutoff
    ensures var s := run[n];
            Fresh(s.events, Tail(s.events, Fresh(s.events, s.log, before), cursor), cutoff)
            == Fresh(s.events, Tail(s.events, s.log, cursor), cutoff)
  {
    LogChronological(run, n);
    PurgeInvisible(run[n].log, IdsOf(run[n].events), TimesOf(run[n].events), before, cutoff, cursor);
  }

  // --------------------------------------------------- who clears the history

  /** `unregister` is about to clear the replay history. */
  ghost predicate Clears(s: State) {
    s.section.Held? && s.section.pc.DropLog?
  }

  /** No history was cleared before position `n` of the run since event `k` was handled. */
  ghost predicate NotClearedSince(run: seq<State>, n: nat, k: nat)
    requires n <= |run|
  {
    forall m :: 0 <= m < n && Clears(run[m]) ==> |run[m].events| <= k
  }

  lemma StoreClearsNothing(s: State, s': State, ok: bool)
    requires s.section.Held? && s.section.pc.StoreEvent? && InsideStep(s, s', ok)
    ensures s'.cleared == s.cleared
  {}

  lemma DropClears(s: State, s': State, ok: bool)
    requires s.section.Held? && s.section.pc.DropLog? && InsideStep(s, s', ok)
    ensures s'.cleared == |s.events|
  {}

  lemma OutsideClearsNothing(s: State, s': State, action: Action)
    requires OutsideStep(s, s', action)
    ensures s'.cleared == s.cleared
  {
    if !action.Purge? && !action.Tick? {
      OutsideCalm(s, s', action);
    }
  }

  lemma ClearStep(s: State, s': State)
    requires Follows(s, s')
    ensures s'.cleared == s.cleared || (Clears(s) && s'.cleared == |s.events|)
  {
    var action :| Next(s, s', action);
    if !action.Inside? {
      OutsideClearsNothing(s, s', action);
    } else if s.section.pc.StoreEvent? {
      StoreClearsNothing(s, s', action.ok);
    } else if s.section.pc.DropLog? {
      DropClears(s, s', action.ok);
    } else {
      InsideCalm(s, s', action.ok);
    }
  }

  /** Only a removal clears: what counts as cleared was handled before some removal reached that point. */
  lemma {:induction false} ClearedByRemoval(run: seq<State>, n: nat, k: nat)
    requires IsRun(run) && n < |run| && k < run[n].cleared
    ensures exists m :: 0 <= m < n && Clears(run[m]) && k < |run[m].events|
  {
    if n > 0 {
      var i := n - 1;
      assert run[i + 1] == run[n] && StepAt(run, i);
      ClearStep(run[i], run[n]);
      if k < run[i].cleared {
        ClearedByRemoval(run, i, k);
      }
    }
  }

  /** A removal got to its section and found `g` in the client map. */
  ghost predicate Removes(s: State, task: Task, g: nat) {
    && s.section == Held(task, Start) && s.current == Some(g)
    && task.Unregistering? && (task.expected.Some? ==> task.expected == Some(g))
  }

  ghost predicate Removing(s: State, task: Task, g: nat) {
    s.section.Held? && s.section.task == task && (s.section.pc == DropSubscriptions(g) || s.section.pc == DropLog(g))
  }

  lemma RemovingStep(s: State, s': State, task: Task, g: nat)
    requires Follows(s, s') && Removing(s', task, g)
    ensures Removing(s, task, g) || Removes(s, task, g)
  {
    var action :| Next(s, s', action);
    if !action.Inside? {
      OutsideRemovesNothing(s, s', action);
    } else if ReplayStep(s, s', action.ok) {
      ReplayRemovesNothing(s, s', action.ok);
    } else if HandleStep(s, s', action.ok) {
      HandleRemovesNothing(s, s', action.ok);
    } else if RegisterStep(s, s') {
      RegisterRemovesNothing(s, s');
    } else if RemoveStep(s, s', action.ok) {
      RemoveRemoves(s, s', action.ok, task, g);
    }
  }

  lemma OutsideRemovesNothing(s: State, s': State, action: Action)
    requires OutsideStep(s, s', action)
    ensures s'.section == s.section || (s'.section.Held? && s'.section.pc.Start?)
  {}

  lemma RegisterRemovesNothing(s: State, s': State)
    requires s.section.Held? && RegisterStep(s, s')
    ensures s'.section.Held? && !s'.section.pc.DropSubscriptions? && !s'.section.pc.DropLog?
  {}

  lemma RemoveRemoves(s: State, s': State, ok: bool, task: Task, g: nat)
    requires s.section.Held? && RemoveStep(s, s', ok) && Removing(s', task, g)
    ensures Removing(s, task, g) || Removes(s, task, g)
  {}

  lemma ReplayRemovesNothing(s: State, s': State, ok: bool)
    requires s.section.Held? && ReplayStep(s, s', ok)
    ensures s'.section.Held? && !s'.section.pc.DropSubscriptions? && !s'.section.pc.DropLog?
  {
    if s.section.pc.Loop? {
      assert LoopStep(s, s');
    }
  }

  lemma HandleRemovesNothing(s: State, s': State, ok: bool)
    requires s.section.Held? && HandleStep(s, s', ok)
    ensures s'.section.Held? && !s'.section.pc.DropSubscriptions? && !s'.section.pc.DropLog?
  {}

  /** And a removal that clears the history is an unregistration that found its generation in the client map. */
  lemma {:induction false} RemovedWasCurrent(run: seq<State>, n: nat, task: Task, g: nat) returns (m: nat)
    requires IsRun(run) && n < |run| && Removing(run[n], task, g)
    ensures m < n && Removes(run[m], task, g)
  {
    if n == 0 {
      assert false;
    }
    var i := n - 1;
    assert run[i + 1] == run[n] && StepAt(run, i);
    RemovingStep(run[i], run[n], task, g);
    if Removing(run[i], task, g) {
      m := RemovedWasCurrent(run, i, task, g);
    } else {
      m := i;
    }
  }

  /**
    The replay log holds, in order, every event that was handled with an ID and
    has not expired, unless an unregistration has cleared the history since.
  */
  lemma LogComplete(run: seq<State>, n: nat, k: nat)
    requires IsRun(run) && n < |run| && k < |run[n].events| && run[n].events[k].id != "" && NotClearedSince(run, n, k)
    ensures k in run[n].log || Expired(run[n].events, k, run[n].now - run[n].retention)
    ensures Rising(run[n].log)
  {
    RunLogInv(run, n);
    assert Retained(run[n].events, run[n].log, run[n].cleared, Cutoff(run[n]), k);
    if k < run[n].cleared {
      ClearedByRemoval(run, n, k);
    }
  }
}
