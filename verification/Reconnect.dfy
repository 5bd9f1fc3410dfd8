/** What a reconnecting client gets, over every run of one client ID. */
module Reconnect {
  import opened Lifecycle
  import opened LifecycleLog
  import opened LifecycleReplay

  /**
    Under one replay generation of one registration, events are queued in the
    order they were handled and none twice.
  */
  lemma QueuedInOrder(run: seq<State>, n: nat, a: nat, b: nat)
    requires IsRun(run) && n < |run| && a < b < |run[n].pushed|
    requires run[n].pushed[a].target == run[n].pushed[b].target
    requires run[n].pushed[a].generation == run[n].pushed[b].generation
    ensures run[n].pushed[a].entry < run[n].pushed[b].entry
  {
    RunInv(run, n);
  }

  /**
    A finished replay that was not cut short has queued, one after the other
    and under its own replay generation, exactly the events after the cursor's
    latest occurrence in the log that were neither expired nor passed over.
  */
  lemma ReplayExact(run: seq<State>, n: nat, i: nat)
    requires IsRun(run) && n < |run| && i < |run[n].replays| && !GoingOn(run[n], i) && run[n].replays[i].cut.Whole?
    ensures var s := run[n]; var r := s.replays[i];
      && r.tail == Tail(s.events, r.log, r.cursor)
      && r.mine == Chosen(s.events, r.tail, r.cutoff, r.skipped)
      && r.start + |r.mine| <= |s.pushed|
      && s.pushed[r.start..r.start + |r.mine|]
         == seq(|r.mine|, j requires 0 <= j < |r.mine| => Push(r.target, r.generation, r.mine[j]))
  {
    RunInv(run, n);
    var r := run[n].replays[i];
    assert ReplayOk(run[n].events, r) && ReadOk(run[n].events, run[n].retention, r) && Queued(run[n].pushed, r);
    assert r.tail[..r.done] == r.tail;
    QueuedTogether(run[n].pushed, r);
  }

  lemma QueuedTogether(pushed: seq<Push>, r: Replay)
    requires Queued(pushed, r)
    ensures pushed[r.start..r.start + |r.mine|]
            == seq(|r.mine|, j requires 0 <= j < |r.mine| => Push(r.target, r.generation, r.mine[j]))
  {}

  /** A replay is cut short only when its target has become inactive or the send queue refused an event. */
  lemma CutForAReason(run: seq<State>, n: nat, i: nat)
    requires IsRun(run) && n < |run| && i < |run[n].replays| && !GoingOn(run[n], i)
    requires run[n].replays[i].done < |run[n].replays[i].tail| && !run[n].replays[i].cut.NotQueued?
    ensures run[n].replays[i].target < |run[n].gens| && run[n].gens[run[n].replays[i].target].inactive
  {
    RunInv(run, n);
  }

  // -------------------------------------------------------------- without a gap

  /** Up to the time replay `i` read the log, no history was cleared since event `k` was handled. */
  ghost predicate NotClearedBeforeRead(run: seq<State>, n: nat, i: nat, k: nat)
    requires n <= |run|
  {
    forall m :: 0 <= m < n && Clears(run[m]) && |run[m].replays| <= i ==> |run[m].events| <= k
  }

  lemma ReplaysStep(s: State, s': State, i: nat)
    requires Follows(s, s') && i < |s'.replays|
    ensures |s.replays| <= |s'.replays|
    ensures i < |s.replays| ==> s'.replays[i].cleared == s.replays[i].cleared
    ensures i >= |s.replays| ==> i == |s.replays| && s'.replays[i].cleared == s.cleared
  {
    var action :| Next(s, s', action);
    if !action.Inside? {
      OutsideStill(s, s', action);
    } else if RegisterStep(s, s') {
      RegisterSteady(s, s');
    } else if ReplayStep(s, s', action.ok) {
      ReplaysGrow(s, s', action.ok, i);
    } else if HandleStep(s, s', action.ok) {
      HandleSkipsNothing(s, s', action.ok);
    } else if RemoveStep(s, s', action.ok) {
      RemoveSteady(s, s', action.ok);
    }
  }

  lemma ReplaysGrow(s: State, s': State, ok: bool, i: nat)
    requires s.section.Held? && ReplayStep(s, s', ok) && i < |s'.replays|
    ensures |s.replays| <= |s'.replays|
    ensures i < |s.replays| ==> s'.replays[i].cleared == s.replays[i].cleared
    ensures i >= |s.replays| ==> i == |s.replays| && s'.replays[i].cleared == s.cleared
  {}

  lemma {:induction false} ReplaysOnlyGrow(run: seq<State>, m: nat, n: nat)
    requires IsRun(run) && m <= n < |run|
    ensures |run[m].replays| <= |run[n].replays|
  {
    if m < n {
      var i := n - 1;
      assert run[i + 1] == run[n] && StepAt(run, i);
      ReplaysOnlyGrow(run, m, i);
      FollowsGrow(run[i], run[n]);
    }
  }

  lemma FollowsGrow(s: State, s': State)
    requires Follows(s, s')
    ensures |s.replays| <= |s'.replays|
  {
    if |s'.replays| > 0 {
      ReplaysStep(s, s', 0);
    } else {
      NoReplays(s, s');
    }
  }

  lemma NoReplays(s: State, s': State)
    requires Follows(s, s') && s'.replays == []
    ensures s.replays == []
  {
    var action :| Next(s, s', action);
    if !action.Inside? {
      OutsideStill(s, s', action);
    } else if RegisterStep(s, s') {
      RegisterSteady(s, s');
    } else if HandleStep(s, s', action.ok) {
      HandleSkipsNothing(s, s', action.ok);
    } else if RemoveStep(s, s', action.ok) {
      RemoveSteady(s, s', action.ok);
    }
  }

  /** What a replay counts as cleared was cleared by a removal before it read the log. */
  lemma {:induction false} ClearedBeforeRead(run: seq<State>, n: nat, i: nat, k: nat)
    requires IsRun(run) && n < |run| && i < |run[n].replays| && k < run[n].replays[i].cleared
    ensures !NotClearedBeforeRead(run, n, i, k)
  {
    if n > 0 {
      var j := n - 1;
      assert run[j + 1] == run[n] && StepAt(run, j);
      ReplaysStep(run[j], run[n], i);
      if i < |run[j].replays| {
        ClearedBeforeRead(run, j, i, k);
      } else {
        ClearedByRemoval(run, j, k);
        var m :| 0 <= m < j && Clears(run[m]) && k < |run[m].events|;
        ReplaysOnlyGrow(run, m, j);
      }
    }
  }

  /**
    Every event handled with an ID before the log was read, for a disconnected
    client too, is in what was read, unless expired.
  */
  lemma HandledIsRead(run: seq<State>, n: nat, i: nat, k: nat)
    requires IsRun(run) && n < |run| && i < |run[n].replays| && k < run[n].replays[i].upto
    requires IdOf(run[n].events, k) != ""
    requires NotClearedBeforeRead(run, n, i, k)
    ensures k in run[n].replays[i].log || Expired(run[n].events, k, run[n].replays[i].readAt - run[n].retention)
  {
    RetainedAtRead(run, n, i, k);
    if k < run[n].replays[i].cleared {
      ClearedBeforeRead(run, n, i, k);
    }
  }

  lemma RetainedAtRead(run: seq<State>, n: nat, i: nat, k: nat)
    requires IsRun(run) && n < |run| && i < |run[n].replays| && k < run[n].replays[i].upto
    ensures k < |run[n].events|
    ensures var s, r := run[n], run[n].replays[i];
            Retained(s.events, r.log, r.cleared, r.readAt - s.retention, k)
  {
    RunInv(run, n);
    var s := run[n];
    assert ReadOk(s.events, s.retention, s.replays[i]);
    assert Retained(s.events, s.replays[i].log, s.replays[i].cleared, ReadCutoff(s.replays[i].readAt, s.retention), k);
  }

  /**
    An event queued for the client, seen from a replay: read by it, expired
    then, or queued for the same registration or a later one.
  */
  ghost predicate Caught(s: State, r: Replay, p: Push) {
    || p.entry in r.log
    || Expired(s.events, p.entry, r.readAt - s.retention)
    || (p.entry >= r.upto && NotBefore(r, p))
  }

  /**
    No gap: every event with an ID that was queued for the client, before or
    after a reconnect, is in the log that the reconnect's replay read, unless it
    had expired by then, or was queued for the new registration or a later one.
    The one exception is an unregistration of the client in between.
  */
  lemma NoGapAtReconnect(run: seq<State>, n: nat, i: nat, p: nat)
    requires IsRun(run) && n < |run| && i < |run[n].replays| && p < |run[n].pushed|
    requires IdOf(run[n].events, run[n].pushed[p].entry) != ""
    requires NotClearedBeforeRead(run, n, i, run[n].pushed[p].entry)
    ensures Caught(run[n], run[n].replays[i], run[n].pushed[p])
  {
    RunInv(run, n);
    if run[n].pushed[p].entry < run[n].replays[i].upto {
      HandledIsRead(run, n, i, run[n].pushed[p].entry);
    }
  }

  /** And what is in the log after the cursor is queued by the replay itself. */
  lemma CaughtIsReplayed(run: seq<State>, n: nat, i: nat, k: nat) returns (p: nat)
    requires IsRun(run) && n < |run| && i < |run[n].replays| && !GoingOn(run[n], i) && run[n].replays[i].cut.Whole?
    requires k in run[n].replays[i].tail && !Expired(run[n].events, k, run[n].replays[i].cutoff)
    requires k !in run[n].replays[i].skipped
    ensures p < |run[n].pushed|
    ensures run[n].pushed[p] == Push(run[n].replays[i].target, run[n].replays[i].generation, k)
  {
    ReplayExact(run, n, i);
    RunInv(run, n);
    assert Queued(run[n].pushed, run[n].replays[i]);
    p := ChosenIsQueued(run[n].events, run[n].pushed, run[n].replays[i], k);
  }

  lemma ChosenIsQueued(events: seq<Entry>, pushed: seq<Push>, r: Replay, k: nat) returns (p: nat)
    requires Queued(pushed, r) && r.mine == Chosen(events, r.tail, r.cutoff, r.skipped)
    requires k in r.tail && !Expired(events, k, r.cutoff) && k !in r.skipped
    ensures p < |pushed| && pushed[p] == Push(r.target, r.generation, k)
  {
    ChosenContains(events, r.tail, r.cutoff, r.skipped, k);
    var j :| 0 <= j < |r.mine| && r.mine[j] == k;
    p := r.start + j;
  }

  // ------------------------------------------------------------ subscriptions

  /** Replay `i` was going on, and the client not subscribed to the name of event `k`. */
  ghost predicate Unsubscribed(s: State, i: nat, k: nat) {
    GoingOn(s, i) && k < |s.events| && s.events[k].name !in s.subscribed
  }

  ghost predicate Skipped(s: State, i: nat, k: nat) {
    i < |s.replays| && k in s.replays[i].skipped
  }

  /** An event is passed over as unsubscribed only when, at that moment, it was. */
  lemma {:induction false} SkippedWasUnsubscribed(run: seq<State>, n: nat, i: nat, k: nat) returns (m: nat)
    requires IsRun(run) && n < |run| && Skipped(run[n], i, k)
    ensures m < n && Unsubscribed(run[m], i, k)
  {
    assert n > 0;
    assert StepAt(run, n - 1);
    SkipStep(run[n - 1], run[n], i, k);
    if Skipped(run[n - 1], i, k) {
      m := SkippedWasUnsubscribed(run, n - 1, i, k);
    } else {
      m := n - 1;
    }
  }

  lemma SkipStep(s: State, s': State, i: nat, k: nat)
    requires Follows(s, s') && Skipped(s', i, k)
    ensures Skipped(s, i, k) || Unsubscribed(s, i, k)
  {
    var action :| Next(s, s', action);
    if action.Inside? {
      if RegisterStep(s, s') {
        RegisterSteady(s, s');
      } else if ReplayStep(s, s', action.ok) {
        SkipReplayStep(s, s', action.ok, i, k);
      } else if HandleStep(s, s', action.ok) {
        HandleSkipsNothing(s, s', action.ok);
      } else if RemoveStep(s, s', action.ok) {
        RemoveSteady(s, s', action.ok);
      }
    } else {
      OutsideStill(s, s', action);
    }
  }

  lemma HandleSkipsNothing(s: State, s': State, ok: bool)
    requires s.section.Held? && HandleStep(s, s', ok)
    ensures s'.replays == s.replays
  {}

  lemma SkipReplayStep(s: State, s': State, ok: bool, i: nat, k: nat)
    requires s.section.Held? && ReplayStep(s, s', ok) && Skipped(s', i, k)
    ensures Skipped(s, i, k) || Unsubscribed(s, i, k)
  {}

  /** The loop of replay `i` is at event `k`, about to ask whether the client is subscribed. */
  ghost predicate Examines(s: State, i: nat, k: nat) {
    && GoingOn(s, i) && s.section.pc.Loop? && i < |s.replays| && k < |s.events|
    && s.replays[i].done < |s.replays[i].tail| && s.replays[i].tail[s.replays[i].done] == k
  }

  /** Then the client was subscribed to the event's name, or not. */
  ghost predicate Answered(s: State, i: nat, k: nat, yes: bool) {
    Examines(s, i, k) && (s.events[k].name in s.subscribed <==> yes)
  }

  /** Replay `i` has decided to queue event `k`. */
  ghost predicate Decided(s: State, i: nat, k: nat) {
    && GoingOn(s, i) && s.section.pc.LoopPush? && i < |s.replays|
    && s.replays[i].done < |s.replays[i].tail| && s.replays[i].tail[s.replays[i].done] == k
  }

  /** Replay `i` is past event `k`, which had not expired; `queued`: it queued the event. */
  ghost predicate Past(s: State, i: nat, k: nat, queued: bool) {
    && i < |s.replays| && s.replays[i].done <= |s.replays[i].tail| && k in s.replays[i].tail[..s.replays[i].done]
    && !Expired(s.events, k, s.replays[i].cutoff) && (k in s.replays[i].mine <==> queued)
  }

  lemma DecidedLoopStep(s: State, s': State, ok: bool, i: nat, k: nat)
    requires s.section.Held? && ReplayStep(s, s', ok) && Decided(s', i, k)
    ensures Answered(s, i, k, true)
  {}

  lemma DecidedStep(s: State, s': State, i: nat, k: nat)
    requires Follows(s, s') && Decided(s', i, k)
    ensures Decided(s, i, k) || Answered(s, i, k, true)
  {
    var action :| Next(s, s', action);
    if !action.Inside? {
      OutsideStill(s, s', action);
    } else if RegisterStep(s, s') {
      RegisterSteady(s, s');
    } else if ReplayStep(s, s', action.ok) {
      DecidedLoopStep(s, s', action.ok, i, k);
    } else if HandleStep(s, s', action.ok) {
      HandleEntersNoLoop(s, s', action.ok);
    } else if RemoveStep(s, s', action.ok) {
      RemoveSteady(s, s', action.ok);
    }
  }

  lemma HandleEntersNoLoop(s: State, s': State, ok: bool)
    requires s.section.Held? && HandleStep(s, s', ok)
    ensures !InLoop(s'.section)
  {}

  lemma {:induction false} DecidedWasSubscribed(run: seq<State>, n: nat, i: nat, k: nat) returns (m: nat)
    requires IsRun(run) && n < |run| && Decided(run[n], i, k)
    ensures m < n && Answered(run[m], i, k, true)
  {
    if n == 0 {
      assert false;
    }
    var j := n - 1;
    assert run[j + 1] == run[n] && StepAt(run, j);
    DecidedStep(run[j], run[n], i, k);
    if Decided(run[j], i, k) {
      m := DecidedWasSubscribed(run, j, i, k);
    } else {
      m := j;
    }
  }

  lemma LastOf(tail: seq<nat>, done: nat, k: nat)
    requires done < |tail| && k in tail[..done + 1]
    ensures k in tail[..done] || k == tail[done]
  {
    assert tail[..done + 1] == tail[..done] + [tail[done]];
  }

  lemma PassedStep(s: State, s': State, r': Replay, i: nat, k: nat, queued: bool)
    requires s.section.Held? && s.section.pc.Loop? && Passes(s, s', r') && Past(s', i, k, queued)
    requires ReplayOk(s.events, LastReplay(s))
    ensures Past(s, i, k, queued) || Answered(s, i, k, queued)
  {
    if i == |s.replays| - 1 {
      var r := s.replays[i];
      LastOf(r.tail, r.done, k);
      ChosenContains(s.events, r.tail[..r.done], r.cutoff, r.skipped, k);
    } else {
      assert s'.replays[i] == s.replays[i];
    }
  }

  lemma TakenStep(s: State, s': State, i: nat, k: nat, queued: bool)
    requires s.section.Held? && s.section.pc.LoopPush? && LoopPushStep(s, s', true) && Past(s', i, k, queued)
    requires Rising(LastReplay(s).tail)
    ensures Past(s, i, k, queued) || (Decided(s, i, k) && queued)
  {
    if i == |s.replays| - 1 {
      var r := s.replays[i];
      TakenOnce(r.tail, r.done, r.mine, k);
    } else {
      assert s'.replays[i] == s.replays[i];
    }
  }

  lemma TakenOnce(tail: seq<nat>, done: nat, mine: seq<nat>, k: nat)
    requires Rising(tail) && done < |tail| && k in tail[..done + 1]
    ensures if k in tail[..done] then (k in mine + [tail[done]] <==> k in mine) else k == tail[done]
  {
    LastOf(tail, done, k);
  }

  lemma PastLoopStep(s: State, s': State, i: nat, k: nat, queued: bool)
    requires s.section.Held? && s.section.pc.Loop? && LoopStep(s, s') && Past(s', i, k, queued)
    requires ReplayOk(s.events, LastReplay(s))
    ensures Past(s, i, k, queued) || Answered(s, i, k, queued)
  {
    var r := LastReplay(s);
    if r.done < |r.tail| && !s.gens[r.target].inactive {
      var x := r.tail[r.done];
      if Expired(s.events, x, r.cutoff) {
        PassedStep(s, s', r.(done := r.done + 1), i, k, queued);
      } else if s.events[x].name !in s.subscribed {
        PassedStep(s, s', r.(done := r.done + 1, skipped := r.skipped + {x}), i, k, queued);
      }
    }
  }

  lemma LastIsOk(s: State)
    requires ReplaysOk(s) && s.replays != []
    ensures ReplayOk(s.events, LastReplay(s)) && Rising(LastReplay(s).tail)
  {
    assert ReadOk(s.events, s.retention, s.replays[|s.replays| - 1]);
  }

  lemma PastReplayStep(s: State, s': State, ok: bool, i: nat, k: nat, queued: bool)
    requires DataInv(s) && s.section.Held? && ReplayStep(s, s', ok) && Past(s', i, k, queued)
    ensures Past(s, i, k, queued) || Answered(s, i, k, queued) || (Decided(s, i, k) && queued)
  {
    if s.section.pc.Loop? {
      LastIsOk(s);
      PastLoopStep(s, s', i, k, queued);
    } else if s.section.pc.LoopPush? && ok {
      LastIsOk(s);
      TakenStep(s, s', i, k, queued);
    } else {
      PastOpening(s, s', ok, i, k, queued);
    }
  }

  lemma PastOpening(s: State, s': State, ok: bool, i: nat, k: nat, queued: bool)
    requires s.section.Held? && !s.section.pc.Loop? && !(s.section.pc.LoopPush? && ok) && ReplayStep(s, s', ok)
    requires Past(s', i, k, queued)
    ensures Past(s, i, k, queued)
  {}

  lemma PastHandleStep(s: State, s': State, ok: bool, i: nat, k: nat, queued: bool)
    requires DataInv(s) && s.section.Held? && HandleStep(s, s', ok) && Past(s', i, k, queued)
    ensures Past(s, i, k, queued)
  {
    HandleSkipsNothing(s, s', ok);
    var r := s.replays[i];
    assert ReadOk(s.events, s.retention, r);
    assert k < |s.events|;
    HandleKeepsEvents(s, s', ok);
  }

  lemma HandleKeepsEvents(s: State, s': State, ok: bool)
    requires s.section.Held? && HandleStep(s, s', ok)
    ensures s.events <= s'.events
  {}

  lemma PastStep(s: State, s': State, i: nat, k: nat, queued: bool)
    requires DataInv(s) && Follows(s, s') && Past(s', i, k, queued)
    ensures Past(s, i, k, queued) || Answered(s, i, k, queued) || (Decided(s, i, k) && queued)
  {
    var action :| Next(s, s', action);
    if !action.Inside? {
      OutsideStill(s, s', action);
    } else if RegisterStep(s, s') {
      RegisterSteady(s, s');
    } else if ReplayStep(s, s', action.ok) {
      PastReplayStep(s, s', action.ok, i, k, queued);
    } else if HandleStep(s, s', action.ok) {
      PastHandleStep(s, s', action.ok, i, k, queued);
    } else if RemoveStep(s, s', action.ok) {
      RemoveSteady(s, s', action.ok);
    }
  }

  /**
    Subscriptions may change while a replay goes on. Whether an unexpired event
    it has come past was queued is exactly whether, at the moment the replay
    looked at it, the client was subscribed to the event's name.
  */
  lemma {:induction false} SubscriptionDecides(run: seq<State>, n: nat, i: nat, k: nat, queued: bool) returns (m: nat)
    requires IsRun(run) && n < |run| && Past(run[n], i, k, queued)
    ensures m < n && Answered(run[m], i, k, queued)
  {
    if n == 0 {
      assert false;
    }
    var j := n - 1;
    assert run[j + 1] == run[n] && StepAt(run, j);
    DataHolds(run, j);
    PastStep(run[j], run[n], i, k, queued);
    if Past(run[j], i, k, queued) {
      m := SubscriptionDecides(run, j, i, k, queued);
    } else if Answered(run[j], i, k, queued) {
      m := j;
    } else {
      m := DecidedWasSubscribed(run, j, i, k);
    }
  }

  lemma DataHolds(run: seq<State>, n: nat)
    requires IsRun(run) && n < |run|
    ensures DataInv(run[n])
  {
    RunInv(run, n);
  }

  /** Whatever a replay has queued, the client was subscribed to when the replay came to it. */
  lemma QueuedWasSubscribed(run: seq<State>, n: nat, i: nat, j: nat) returns (m: nat)
    requires IsRun(run) && n < |run| && i < |run[n].replays| && j < |run[n].replays[i].mine|
    ensures m < n && Answered(run[m], i, run[n].replays[i].mine[j], true)
  {
    DataHolds(run, n);
    var r := run[n].replays[i];
    assert ReplayOk(run[n].events, r);
    ChosenContains(run[n].events, r.tail[..r.done], r.cutoff, r.skipped, r.mine[j]);
    m := SubscriptionDecides(run, n, i, r.mine[j], true);
  }

  /** The unexpired events of a list whose names are among `names`, in order. */
  ghost function Due(events: seq<Entry>, tail: seq<nat>, cutoff: int, names: set<string>): (r: seq<nat>) {
    if tail == [] then []
    else
      var k := tail[|tail| - 1];
      Due(events, tail[..|tail| - 1], cutoff, names)
      + if k < |events| && events[k].name in names && !Expired(events, k, cutoff) then [k] else []
  }

  /** An unexpired event was passed over exactly if its name is not among `names`. */
  ghost predicate Judged(events: seq<Entry>, k: nat, cutoff: int, skipped: set<nat>, names: set<string>) {
    k < |events| && (!Expired(events, k, cutoff) ==> (k in skipped <==> events[k].name !in names))
  }

  lemma {:induction false} ChosenIsDue(events: seq<Entry>, tail: seq<nat>, cutoff: int, skipped: set<nat>,
                                       names: set<string>)
    requires forall i :: 0 <= i < |tail| ==> Judged(events, tail[i], cutoff, skipped, names)
    ensures Chosen(events, tail, cutoff, skipped) == Due(events, tail, cutoff, names)
  {
    if tail != [] {
      ChosenIsDue(events, tail[..|tail| - 1], cutoff, skipped, names);
    }
  }

  /**
    With the client's subscriptions unchanged during the replay, a finished
    replay that was not cut short has queued exactly the unexpired subscribed
    events after the cursor's latest occurrence, in log order.
  */
  lemma ReplayExactWhenSteady(run: seq<State>, n: nat, i: nat, names: set<string>)
    requires IsRun(run) && n < |run| && i < |run[n].replays| && !GoingOn(run[n], i) && run[n].replays[i].cut.Whole?
    requires forall m :: 0 <= m < n && GoingOn(run[m], i) ==> run[m].subscribed == names
    ensures run[n].replays[i].mine == Due(run[n].events, run[n].replays[i].tail, run[n].replays[i].cutoff, names)
    ensures run[n].replays[i].tail == Tail(run[n].events, run[n].replays[i].log, run[n].replays[i].cursor)
  {
    ReplayExact(run, n, i);
    var s, r := run[n], run[n].replays[i];
    forall j | 0 <= j < |r.tail|
      ensures Judged(s.events, r.tail[j], r.cutoff, r.skipped, names)
    {
      SteadyAnswer(run, n, i, r.tail[j], names);
    }
    ChosenIsDue(s.events, r.tail, r.cutoff, r.skipped, names);
  }

  lemma SteadyAnswer(run: seq<State>, n: nat, i: nat, k: nat, names: set<string>)
    requires IsRun(run) && n < |run| && i < |run[n].replays| && !GoingOn(run[n], i) && run[n].replays[i].cut.Whole?
    requires forall m :: 0 <= m < n && GoingOn(run[m], i) ==> run[m].subscribed == names
    requires k in run[n].replays[i].tail
    ensures Judged(run[n].events, k, run[n].replays[i].cutoff, run[n].replays[i].skipped, names)
  {
    FinishedIsPast(run, n, i, k);
    var s, r := run[n], run[n].replays[i];
    ChosenContains(s.events, r.tail, r.cutoff, r.skipped, k);
    if !Expired(s.events, k, r.cutoff) {
      var m := SubscriptionDecides(run, n, i, k, k in r.mine);
      EventsStay(run, m, n);
    }
  }

  lemma FinishedIsPast(run: seq<State>, n: nat, i: nat, k: nat)
    requires IsRun(run) && n < |run| && i < |run[n].replays| && !GoingOn(run[n], i) && run[n].replays[i].cut.Whole?
    requires k in run[n].replays[i].tail
    ensures k < |run[n].events|
    ensures var s, r := run[n], run[n].replays[i];
            r.mine == Chosen(s.events, r.tail, r.cutoff, r.skipped)
    ensures !Expired(run[n].events, k, run[n].replays[i].cutoff) ==> Past(run[n], i, k, k in run[n].replays[i].mine)
  {
    ReplayExact(run, n, i);
    RunInv(run, n);
    var r := run[n].replays[i];
    assert ReadOk(run[n].events, run[n].retention, r);
    assert r.tail[..r.done] == r.tail;
  }

  lemma EventsStep(s: State, s': State)
    requires Follows(s, s')
    ensures s.events <= s'.events
  {
    var action :| Next(s, s', action);
    if !action.Inside? {
      OutsideStill(s, s', action);
    } else if RegisterStep(s, s') {
      RegisterSteady(s, s');
    } else if ReplayStep(s, s', action.ok) {
      ReplayCalm(s, s', action.ok);
    } else if HandleStep(s, s', action.ok) {
      HandleKeepsEvents(s, s', action.ok);
    } else if RemoveStep(s, s', action.ok) {
      RemoveSteady(s, s', action.ok);
    }
  }

  lemma {:induction false} EventsStay(run: seq<State>, m: nat, n: nat)
    requires IsRun(run) && m <= n < |run|
    ensures run[m].events <= run[n].events
  {
    if m < n {
      var i := n - 1;
      assert run[i + 1] == run[n] && StepAt(run, i);
      EventsStay(run, m, i);
      EventsStep(run[i], run[n]);
    }
  }
}
