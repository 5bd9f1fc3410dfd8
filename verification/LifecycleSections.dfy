/**
  What the operations on a client ID achieve: each is followed from its entry
  into the lifecycle lock to its end, whatever happens around it meanwhile.
*/
module LifecycleSections {
  import opened Options
  import opened Lifecycle
  import Generations = LifecycleGenerations

  // ------------------------------------------------------- one section of a run

  /** One caller is inside the lock from position `i` to position `j`. */
  ghost predicate Within(run: seq<State>, i: nat, j: nat) {
    i <= j < |run| && forall m :: i <= m <= j ==> run[m].section.Held?
  }

  /** What may happen around the section: flags are raised, the log is purged; nothing the section works on changes. */
  ghost predicate Around(s: State, s': State) {
    && s'.section == s.section && s'.current == s.current && s'.retention == s.retention && s.now <= s'.now
    && |s'.gens| == |s.gens|
    && (forall g :: 0 <= g < |s.gens| ==>
          && s'.gens[g].connection == s.gens[g].connection && s'.gens[g].installed == s.gens[g].installed
          && s'.gens[g].replayGeneration == s.gens[g].replayGeneration
          && (s.gens[g].inactive ==> s'.gens[g].inactive)
          && (s.gens[g].connectionClosed ==> s'.gens[g].connectionClosed))
    && s'.events == s.events && s'.cleared == s.cleared && (s.log == [] ==> s'.log == [])
    && s'.pushed == s.pushed && s'.replays == s.replays
    && (s.closed ==> s'.closed) && (s.stopped ==> s'.stopped)
  }

  lemma OutsideIsAround(s: State, s': State, action: Action)
    requires OutsideStep(s, s', action) && s.section.Held?
    ensures Around(s, s')
  {
    if action.ShutDown? {
      ShutdownIsAround(s, s');
    }
  }

  lemma ShutdownIsAround(s: State, s': State)
    requires ShutdownStep(s, s')
    ensures Around(s, s')
  {}

  /** A step between two positions of a section is the caller's, or happens around it. */
  lemma SectionStep(s: State, s': State) returns (ok: bool)
    requires Follows(s, s') && s.section.Held?
    ensures Around(s, s') || InsideStep(s, s', ok)
  {
    var action :| Next(s, s', action);
    ok := true;
    if action.Inside? {
      ok := action.ok;
    } else {
      OutsideIsAround(s, s', action);
    }
  }

  ghost predicate IsInactive(s: State, g: nat) {
    g < |s.gens| && s.gens[g].inactive
  }

  ghost predicate IsClosed(s: State, g: nat) {
    IsInactive(s, g) && s.gens[g].connectionClosed
  }

  // --------------------------------------------------------------- unregister

  ghost predicate Unsubscribed(run: seq<State>, i: nat, j: nat)
    requires i <= j < |run|
  {
    exists m :: i <= m <= j && run[m].subscribed == {}
  }

  /** How far the removal of `g` has come. */
  ghost predicate Removing(s: State, g: nat, unsubscribed: bool) {
    && s.section.Held? && s.current.None?
    && match s.section.pc
       case DropSubscriptions(x) => x == g && g < |s.gens|
       case DropLog(x) => x == g && g < |s.gens| && unsubscribed
       case RetireFlag(x) => x == g && g < |s.gens| && unsubscribed && s.log == []
       case RetireSeal(x) => x == g && unsubscribed && s.log == [] && IsInactive(s, g)
       case Done => unsubscribed && s.log == [] && IsClosed(s, g)
       case _ => false
  }

  lemma RemovingInside(s: State, s': State, g: nat, unsubscribed: bool, ok: bool)
    requires Removing(s, g, unsubscribed) && InsideStep(s, s', ok) && s'.section.Held?
    ensures Removing(s', g, unsubscribed || s'.subscribed == {})
  {}

  lemma RemovingAround(s: State, s': State, g: nat, unsubscribed: bool)
    requires Removing(s, g, unsubscribed) && Around(s, s')
    ensures Removing(s', g, unsubscribed)
  {}

  lemma {:induction false} RemovingAlong(run: seq<State>, i: nat, j: nat, g: nat)
    requires IsRun(run) && Within(run, i, j) && Removing(run[i], g, false)
    ensures Removing(run[j], g, Unsubscribed(run, i, j))
  {
    if i == j {
      RemovingMore(run[j], g, false, Unsubscribed(run, i, j));
    } else {
      var m := j - 1;
      assert run[m + 1] == run[j] && StepAt(run, m);
      RemovingAlong(run, i, m, g);
      var ok := SectionStep(run[m], run[j]);
      var before, now := Unsubscribed(run, i, m), Unsubscribed(run, i, j);
      assert before || run[j].subscribed == {} ==> now;
      if Around(run[m], run[j]) {
        RemovingAround(run[m], run[j], g, before);
        RemovingMore(run[j], g, before, now);
      } else {
        RemovingInside(run[m], run[j], g, before, ok);
        RemovingMore(run[j], g, before || run[j].subscribed == {}, now);
      }
    }
  }

  lemma RemovingMore(s: State, g: nat, before: bool, now: bool)
    requires Removing(s, g, before) && (before ==> now)
    ensures Removing(s, g, now)
  {}

  /** An unregistration that is to remove `g`: nobody in particular and stale enough, or the generation it expects. */
  ghost predicate StartsRemoving(s: State, s': State, g: nat, ok: bool) {
    && s.section.Held? && s.section.pc.Start? && s.section.task.Unregistering? && s.current == Some(g)
    && InsideStep(s, s', ok)
    && (s.section.task.expected == Some(g) || (s.section.task.expected.None? && ok))
  }

  lemma StartRemoves(s: State, s': State, g: nat, ok: bool)
    requires Generations.Inv(s) && StartsRemoving(s, s', g, ok)
    ensures Removing(s', g, false)
  {}

  /**
    An unregistration removes the client it found: when it is done, the client is
    out of the map, its subscriptions were emptied, its replay history is empty,
    and its generation is inactive with the connection marked closed.
  */
  lemma UnregisterRemoves(run: seq<State>, i: nat, j: nat, g: nat, ok: bool)
    requires IsRun(run) && Within(run, i, j) && i < j && StartsRemoving(run[i], run[i + 1], g, ok)
    requires run[j].section.pc.Done?
    ensures run[j].current.None? && run[j].log == [] && IsClosed(run[j], g) && Unsubscribed(run, i + 1, j)
  {
    Generations.RunInv(run, i);
    StartRemoves(run[i], run[i + 1], g, ok);
    RemovingAlong(run, i + 1, j, g);
  }

  // --------------------------------------------------------------- disconnect

  /** How far the disconnection of `g` has come; the client stays in the map, with its history. */
  ghost predicate Parting(s: State, g: nat, cleared: nat) {
    && s.section.Held? && s.current == Some(g) && s.cleared == cleared
    && match s.section.pc
       case RetireFlag(x) => x == g && g < |s.gens|
       case RetireSeal(x) => x == g && IsInactive(s, g)
       case Done => IsClosed(s, g)
       case _ => false
  }

  lemma PartingStep(s: State, s': State, g: nat, cleared: nat)
    requires Parting(s, g, cleared) && Follows(s, s') && s'.section.Held?
    ensures Parting(s', g, cleared)
  {
    var ok := SectionStep(s, s');
  }

  lemma {:induction false} PartingAlong(run: seq<State>, i: nat, j: nat, g: nat, cleared: nat)
    requires IsRun(run) && Within(run, i, j) && Parting(run[i], g, cleared)
    ensures Parting(run[j], g, cleared)
  {
    if i < j {
      var m := j - 1;
      assert run[m + 1] == run[j] && StepAt(run, m);
      PartingAlong(run, i, m, g, cleared);
      PartingStep(run[m], run[j], g, cleared);
    }
  }

  lemma StartParts(s: State, s': State, g: nat, ok: bool)
    requires Generations.Inv(s) && s.section == Held(Disconnecting(g), Start) && s.current == Some(g)
    requires InsideStep(s, s', ok)
    ensures Parting(s', g, s.cleared)
  {}

  /**
    A disconnection of the current generation retires it and marks its connection
    closed; the client stays registered and its history is kept.
  */
  lemma DisconnectRetires(run: seq<State>, i: nat, j: nat, g: nat, ok: bool)
    requires IsRun(run) && Within(run, i, j) && i < j && InsideStep(run[i], run[i + 1], ok)
    requires run[i].section == Held(Disconnecting(g), Start) && run[i].current == Some(g) && run[j].section.pc.Done?
    ensures run[j].current == Some(g) && IsClosed(run[j], g) && run[j].cleared == run[i].cleared
  {
    Generations.RunInv(run, i);
    StartParts(run[i], run[i + 1], g, ok);
    PartingAlong(run, i + 1, j, g, run[i].cleared);
  }

  // ----------------------------------------------------------------- register

  /** The generation in the map before, if any, is retired, and closed unless the new one has its connection. */
  ghost predicate Replaced(s: State, former: Option<nat>, connection: nat) {
    former.Some? ==>
      && IsInactive(s, former.value)
      && (s.gens[former.value].connection != connection ==> s.gens[former.value].connectionClosed)
  }

  /** The new generation: the last one, with the connection it was registered with. */
  ghost predicate Made(s: State, target: nat, connection: nat) {
    |s.gens| == target + 1 && s.gens[target].connection == connection
  }

  /** It is in the map. */
  ghost predicate Installed(s: State, target: nat, former: Option<nat>, connection: nat) {
    s.current == Some(target) && Made(s, target, connection) && s.gens[target].installed
    && Replaced(s, former, connection)
  }

  /** The bus was closed meanwhile: it is not, and is retired instead. */
  ghost predicate Refused(s: State, target: nat, former: Option<nat>, connection: nat) {
    s.closed && s.current == former && Made(s, target, connection) && Replaced(s, former, connection)
  }

  /** How far a registration has come. `replayed`: it has come to its replay, with its own cursor. */
  ghost predicate Joining(s: State, task: Task, target: nat, former: Option<nat>, replayed: bool)
    requires task.Registering?
  {
    && s.section.Held? && s.section.task == task && (former.Some? ==> former.value < target)
    && match s.section.pc
       case MarkOld(t, x) => t == target && former == Some(x) && s.current == former && Made(s, target, task.connection)
       case SealOld(t, x) =>
         t == target && former == Some(x) && s.current == former && Made(s, target, task.connection) && IsInactive(s, x)
       case Install(t) =>
         t == target && s.current == former && Made(s, target, task.connection) && Replaced(s, former, task.connection)
       case RetireFlag(t) => t == target && Refused(s, target, former, task.connection)
       case RetireSeal(t) => t == target && Refused(s, target, former, task.connection) && IsInactive(s, target)
       case ReplayCheck(_) => replayed && Installed(s, target, former, task.connection)
       case Bump(_, t) => t == target && replayed && Installed(s, target, former, task.connection)
       case Aim(_, _, _) => replayed && Installed(s, target, former, task.connection)
       case Read(_, _, _, _) => replayed && Installed(s, target, former, task.connection)
       case Loop => replayed && Installed(s, target, former, task.connection)
       case LoopPush => replayed && Installed(s, target, former, task.connection)
       case Done =>
         || (Installed(s, target, former, task.connection) && (task.replay.Some? ==> replayed))
         || (Refused(s, target, former, task.connection) && IsClosed(s, target))
       case _ => false
  }

  /** The registration is at its replay, with the cursor it was given, and the new generation in the map. */
  ghost predicate AtReplay(s: State, task: Task, target: nat)
    requires task.Registering?
  {
    task.replay.Some? && s.section == Held(task, ReplayCheck(task.replay.value)) && s.current == Some(target)
  }

  lemma JoiningAround(s: State, s': State, task: Task, target: nat, former: Option<nat>, replayed: bool)
    requires task.Registering? && Joining(s, task, target, former, replayed) && Around(s, s')
    ensures Joining(s', task, target, former, replayed)
  {}

  lemma JoiningRegisters(s: State, s': State, task: Task, target: nat, former: Option<nat>, replayed: bool)
    requires task.Registering? && Joining(s, task, target, former, replayed) && RegisterStep(s, s')
    ensures Joining(s', task, target, former, replayed || AtReplay(s', task, target))
  {}

  lemma JoiningReplays(s: State, s': State, task: Task, target: nat, former: Option<nat>, replayed: bool, ok: bool)
    requires task.Registering? && Joining(s, task, target, former, replayed) && ReplayStep(s, s', ok)
    ensures Joining(s', task, target, former, replayed)
  {
    if s.section.pc.Loop? {
      JoiningLoops(s, s', task, target, former, replayed);
    } else if s.section.pc.LoopPush? {
      JoiningPushes(s, s', task, target, former, replayed, ok);
    } else {
      JoiningOpens(s, s', task, target, former, replayed, ok);
    }
  }

  lemma JoiningPushes(s: State, s': State, task: Task, target: nat, former: Option<nat>, replayed: bool, ok: bool)
    requires task.Registering? && Joining(s, task, target, former, replayed)
    requires s.section.pc.LoopPush? && LoopPushStep(s, s', ok)
    ensures Joining(s', task, target, former, replayed)
  {}

  lemma JoiningOpens(s: State, s': State, task: Task, target: nat, former: Option<nat>, replayed: bool, ok: bool)
    requires task.Registering? && Joining(s, task, target, former, replayed)
    requires ReplayStep(s, s', ok) && !s.section.pc.Loop? && !s.section.pc.LoopPush?
    ensures Joining(s', task, target, former, replayed)
  {}

  lemma JoiningLoops(s: State, s': State, task: Task, target: nat, former: Option<nat>, replayed: bool)
    requires task.Registering? && Joining(s, task, target, former, replayed) && s.section.pc.Loop? && LoopStep(s, s')
    ensures Joining(s', task, target, former, replayed)
  {}

  lemma JoiningRetires(s: State, s': State, task: Task, target: nat, former: Option<nat>, replayed: bool, ok: bool)
    requires task.Registering? && Joining(s, task, target, former, replayed) && RemoveStep(s, s', ok)
    ensures Joining(s', task, target, former, replayed)
  {}

  lemma JoiningInside(s: State, s': State, task: Task, target: nat, former: Option<nat>, replayed: bool, ok: bool)
    requires task.Registering? && Joining(s, task, target, former, replayed) && InsideStep(s, s', ok)
    requires s'.section.Held?
    ensures Joining(s', task, target, former, replayed || AtReplay(s', task, target))
  {
    var now := replayed || AtReplay(s', task, target);
    if RegisterStep(s, s') {
      JoiningRegisters(s, s', task, target, former, replayed);
    } else if ReplayStep(s, s', ok) {
      JoiningReplays(s, s', task, target, former, replayed, ok);
      JoiningMore(s', task, target, former, replayed, now);
    } else if RemoveStep(s, s', ok) {
      JoiningRetires(s, s', task, target, former, replayed, ok);
      JoiningMore(s', task, target, former, replayed, now);
    }
  }

  lemma JoiningMore(s: State, task: Task, target: nat, former: Option<nat>, before: bool, now: bool)
    requires task.Registering? && Joining(s, task, target, former, before) && (before ==> now)
    ensures Joining(s, task, target, former, now)
  {}

  ghost predicate CameToReplay(run: seq<State>, i: nat, j: nat, task: Task, target: nat)
    requires task.Registering? && i <= j < |run|
  {
    exists m :: i <= m <= j && AtReplay(run[m], task, target)
  }

  lemma {:induction false} JoiningAlong(run: seq<State>, i: nat, j: nat, task: Task, target: nat, former: Option<nat>)
    requires task.Registering? && IsRun(run) && Within(run, i, j) && Joining(run[i], task, target, former, false)
    ensures Joining(run[j], task, target, former, CameToReplay(run, i, j, task, target))
  {
    if i == j {
      JoiningMore(run[j], task, target, former, false, CameToReplay(run, i, j, task, target));
    } else {
      var m := j - 1;
      assert run[m + 1] == run[j] && StepAt(run, m);
      JoiningAlong(run, i, m, task, target, former);
      var ok := SectionStep(run[m], run[j]);
      var before, now := CameToReplay(run, i, m, task, target), CameToReplay(run, i, j, task, target);
      assert before || AtReplay(run[j], task, target) ==> now;
      if Around(run[m], run[j]) {
        JoiningAround(run[m], run[j], task, target, former, before);
        JoiningMore(run[j], task, target, former, before, now);
      } else {
        JoiningInside(run[m], run[j], task, target, former, before, ok);
        JoiningMore(run[j], task, target, former, before || AtReplay(run[j], task, target), now);
      }
    }
  }

  lemma StartJoins(s: State, s': State, ok: bool)
    requires Generations.Inv(s) && s.section.Held? && s.section.pc.Start? && s.section.task.Registering? && !s.closed
    requires InsideStep(s, s', ok)
    ensures Joining(s', s.section.task, |s.gens|, s.current, false)
  {}

  /**
    A registration on an open bus puts a new generation with its connection in
    the map, retires the one it replaces and closes that one's connection unless
    it is the same, and comes to its replay, with its cursor, if it asked for one.
    Only if the bus is closed meanwhile it does not; then the new generation is
    retired and its connection marked closed.
  */
  lemma RegisterInstalls(run: seq<State>, i: nat, j: nat, ok: bool)
    requires IsRun(run) && Within(run, i, j) && i < j && InsideStep(run[i], run[i + 1], ok) && !run[i].closed
    requires run[i].section.pc.Start? && run[i].section.task.Registering? && run[j].section.pc.Done?
    ensures var task, target := run[i].section.task, |run[i].gens|;
      if !run[j].closed || run[j].current == Some(target) then
        && Installed(run[j], target, run[i].current, task.connection)
        && (task.replay.Some? ==> CameToReplay(run, i + 1, j, task, target))
      else
        Refused(run[j], target, run[i].current, task.connection) && IsClosed(run[j], target)
  {
    Generations.RunInv(run, i);
    StartJoins(run[i], run[i + 1], ok);
    JoiningAlong(run, i + 1, j, run[i].section.task, |run[i].gens|, run[i].current);
  }

  // ------------------------------------------------------------------- replay

  /** Between `i` and `j` no event was refused by the send queue. */
  ghost predicate AllTaken(run: seq<State>, i: nat, j: nat) {
    j < |run| && forall m :: i <= m < j ==> TakenAt(run, m)
  }

  ghost predicate TakenAt(run: seq<State>, m: nat)
    requires m + 1 < |run|
  {
    (run[m].section.Held? && (run[m].section.pc.LoopPush? || run[m].section.pc.PushEvent?)) ==>
      Around(run[m], run[m + 1]) || InsideStep(run[m], run[m + 1], true)
  }

  /** The cutoff is the retention before some time between `from` and now. */
  ghost predicate IsCutoff(s: State, cutoff: int, from: int) {
    from - s.retention <= cutoff <= s.now - s.retention
  }

  /**
    How far a replay to generation `t` has come that is the `n`-th and raises
    the replay generation to `generation`.
  */
  ghost predicate InReplay(s: State, n: nat, t: nat, generation: nat, cursor: string, from: int) {
    && s.section.Held? && s.current == Some(t) && t < |s.gens| && from <= s.now
    && match s.section.pc
       case Bump(c, x) => c == cursor && x == t && |s.replays| == n && s.gens[t].replayGeneration + 1 == generation
       case Aim(c, x, y) => c == cursor && x == t && y == generation && |s.replays| == n
       case Read(c, x, y, cutoff) => c == cursor && x == t && y == generation && |s.replays| == n && IsCutoff(s, cutoff, from)
       case Loop => Record(s, n, t, generation, cursor, from) && s.replays[n].cut.Whole?
       case LoopPush => Record(s, n, t, generation, cursor, from) && s.replays[n].cut.Whole?
       case Done =>
         && Record(s, n, t, generation, cursor, from)
         && ((s.replays[n].cut.Whole? && s.replays[n].done >= |s.replays[n].tail|) || s.gens[t].inactive)
       case _ => false
  }

  ghost predicate Record(s: State, n: nat, t: nat, generation: nat, cursor: string, from: int) {
    && |s.replays| == n + 1 && s.replays[n].target == t && s.replays[n].generation == generation
    && s.replays[n].cursor == cursor && IsCutoff(s, s.replays[n].cutoff, from)
  }

  lemma ReplayAround(s: State, s': State, n: nat, t: nat, generation: nat, cursor: string, from: int)
    requires InReplay(s, n, t, generation, cursor, from) && Around(s, s')
    ensures InReplay(s', n, t, generation, cursor, from)
  {}

  lemma ReplayLoops(s: State, s': State, n: nat, t: nat, generation: nat, cursor: string, from: int)
    requires InReplay(s, n, t, generation, cursor, from) && s.section.pc.Loop? && LoopStep(s, s')
    ensures InReplay(s', n, t, generation, cursor, from)
  {}

  lemma ReplayTakes(s: State, s': State, n: nat, t: nat, generation: nat, cursor: string, from: int)
    requires InReplay(s, n, t, generation, cursor, from) && s.section.pc.LoopPush? && LoopPushStep(s, s', true)
    ensures InReplay(s', n, t, generation, cursor, from)
  {}

  lemma ReplayOpens(s: State, s': State, n: nat, t: nat, generation: nat, cursor: string, from: int, ok: bool)
    requires InReplay(s, n, t, generation, cursor, from) && ReplayStep(s, s', ok)
    requires s.section.pc.Bump? || s.section.pc.Aim? || s.section.pc.Read?
    ensures InReplay(s', n, t, generation, cursor, from)
  {}

  lemma ReplayInside(s: State, s': State, n: nat, t: nat, generation: nat, cursor: string, from: int, ok: bool)
    requires InReplay(s, n, t, generation, cursor, from) && InsideStep(s, s', ok) && s'.section.Held?
    requires s.section.pc.LoopPush? ==> ok
    ensures InReplay(s', n, t, generation, cursor, from)
  {
    if s.section.pc.Loop? {
      ReplayLoops(s, s', n, t, generation, cursor, from);
    } else if s.section.pc.LoopPush? {
      ReplayTakes(s, s', n, t, generation, cursor, from);
    } else {
      ReplayOpens(s, s', n, t, generation, cursor, from, ok);
    }
  }

  lemma {:induction false} ReplayAlong(run: seq<State>, i: nat, j: nat, n: nat, t: nat, generation: nat,
                                       cursor: string, from: int)
    requires IsRun(run) && Within(run, i, j) && AllTaken(run, i, j) && InReplay(run[i], n, t, generation, cursor, from)
    ensures InReplay(run[j], n, t, generation, cursor, from)
  {
    if i < j {
      var m := j - 1;
      assert run[m + 1] == run[j] && StepAt(run, m) && TakenAt(run, m);
      ReplayAlong(run, i, m, n, t, generation, cursor, from);
      var ok := SectionStep(run[m], run[j]);
      if Around(run[m], run[j]) {
        ReplayAround(run[m], run[j], n, t, generation, cursor, from);
      } else {
        ReplayInside(run[m], run[j], n, t, generation, cursor, from, ok || run[m].section.pc.LoopPush?);
      }
    }
  }

  lemma CheckReplays(s: State, s': State, cursor: string, t: nat)
    requires Generations.Inv(s) && s.section.Held? && s.section.pc == ReplayCheck(cursor) && InsideStep(s, s', true)
    requires s.current == Some(t) && !IsInactive(s, t)
    ensures InReplay(s', |s.replays|, t, s.gens[t].replayGeneration + 1, cursor, s.now)
  {}

  /**
    A replay to an active client is made: under the next replay generation, with
    the cursor asked for and a cutoff that is the retention before the time of the
    replay; and if the send queue refuses nothing, it comes to the end of what it
    read unless the client has become inactive.
  */
  lemma ReplayIsMade(run: seq<State>, i: nat, j: nat, cursor: string, t: nat)
    requires IsRun(run) && Within(run, i, j) && i < j && AllTaken(run, i + 1, j) && InsideStep(run[i], run[i + 1], true)
    requires run[i].section.pc == ReplayCheck(cursor) && run[i].current == Some(t) && !IsInactive(run[i], t)
    requires run[j].section.pc.Done?
    ensures t < |run[i].gens| && |run[j].replays| == |run[i].replays| + 1
    ensures var r := run[j].replays[|run[i].replays|];
      && r.target == t && r.generation == run[i].gens[t].replayGeneration + 1 && r.cursor == cursor
      && run[i].now - run[j].retention <= r.cutoff <= run[j].now - run[j].retention
      && (!IsInactive(run[j], t) ==> r.cut.Whole? && r.done >= |r.tail|)
  {
    Generations.RunInv(run, i);
    CheckReplays(run[i], run[i + 1], cursor, t);
    ReplayAlong(run, i + 1, j, |run[i].replays|, t, run[i].gens[t].replayGeneration + 1, cursor, run[i].now);
  }

  /** A replay asked for by itself comes to that check with its cursor. */
  lemma ReplayIsAsked(s: State, s': State, cursor: string, ok: bool)
    requires s.section == Held(Replaying(cursor), Start) && InsideStep(s, s', ok)
    ensures s' == Go(s, ReplayCheck(cursor))
  {}

  // ------------------------------------------------------------------- handle

  /** The event as stored, between the time `from` and now. */
  ghost predicate StoredNow(s: State, events: seq<Entry>, task: Task, from: int)
    requires task.Handling?
  {
    && |s.events| == |events| + 1 && events <= s.events
    && s.events[|events|].id == task.id && s.events[|events|].name == task.name
    && from <= s.events[|events|].storedAt <= s.now
  }

  /** How far the handling of an event for generation `t` has come. */
  ghost predicate InHandle(s: State, task: Task, t: nat, generation: nat, events: seq<Entry>, pushed: seq<Push>,
                           from: int)
    requires task.Handling?
  {
    && s.section.Held? && s.section.task == task && s.current == Some(t) && t < |s.gens| && from <= s.now
    && s.gens[t].replayGeneration == generation
    && match s.section.pc
       case ReadTarget => s.events == events && s.pushed == pushed
       case StopCheck(x) => x == t && s.events == events && s.pushed == pushed
       case StoreEvent(x, y, at) => x == t && y == generation && s.events == events && s.pushed == pushed && from <= at <= s.now
       case ActiveCheck(x, y, k) =>
         x == t && y == generation && k == |events| && StoredNow(s, events, task, from) && s.pushed == pushed
       case PushEvent(x, y, k) =>
         x == t && y == generation && k == |events| && StoredNow(s, events, task, from) && s.pushed == pushed
       case Done =>
         || s.stopped
         || (StoredNow(s, events, task, from)
             && (s.gens[t].inactive || s.pushed == pushed + [Push(t, generation, |events|)]))
       case _ => false
  }

  lemma HandleAround(s: State, s': State, task: Task, t: nat, generation: nat, events: seq<Entry>, pushed: seq<Push>,
                     from: int)
    requires task.Handling? && InHandle(s, task, t, generation, events, pushed, from) && Around(s, s')
    ensures InHandle(s', task, t, generation, events, pushed, from)
  {}

  lemma HandleInside(s: State, s': State, task: Task, t: nat, generation: nat, events: seq<Entry>, pushed: seq<Push>,
                     from: int, ok: bool)
    requires task.Handling? && InHandle(s, task, t, generation, events, pushed, from) && InsideStep(s, s', ok)
    requires s'.section.Held?
    requires s.section.pc.PushEvent? ==> ok
    ensures InHandle(s', task, t, generation, events, pushed, from)
  {
    assert HandleStep(s, s', ok);
  }

  lemma {:induction false} HandleAlong(run: seq<State>, i: nat, j: nat, task: Task, t: nat, generation: nat,
                                       events: seq<Entry>, pushed: seq<Push>, from: int)
    requires task.Handling? && IsRun(run) && Within(run, i, j) && AllTaken(run, i, j)
    requires InHandle(run[i], task, t, generation, events, pushed, from)
    ensures InHandle(run[j], task, t, generation, events, pushed, from)
  {
    if i < j {
      var m := j - 1;
      assert run[m + 1] == run[j] && StepAt(run, m) && TakenAt(run, m);
      HandleAlong(run, i, m, task, t, generation, events, pushed, from);
      var ok := SectionStep(run[m], run[j]);
      if Around(run[m], run[j]) {
        HandleAround(run[m], run[j], task, t, generation, events, pushed, from);
      } else {
        HandleInside(run[m], run[j], task, t, generation, events, pushed, from, ok || run[m].section.pc.PushEvent?);
      }
    }
  }

  lemma StartHandles(s: State, s': State, t: nat, ok: bool)
    requires Generations.Inv(s) && s.section.Held? && s.section.pc.Start? && s.section.task.Handling?
    requires InsideStep(s, s', ok)
    requires s.section.task.name in s.subscribed && s.current == Some(t)
    ensures t < |s.gens| && InHandle(s', s.section.task, t, s.gens[t].replayGeneration, s.events, s.pushed, s.now)
  {}

  /**
    An event handled for a subscribed, registered client of a bus that is not
    stopped is recorded with its ID, its name and the time, and, unless the client
    is inactive or the send queue refuses it, queued once for the client's
    generation under its replay generation.
  */
  lemma HandleDelivers(run: seq<State>, i: nat, j: nat, t: nat, ok: bool)
    requires IsRun(run) && Within(run, i, j) && i < j && AllTaken(run, i + 1, j) && InsideStep(run[i], run[i + 1], ok)
    requires run[i].section.pc.Start? && run[i].section.task.Handling? && run[i].current == Some(t)
    requires run[i].section.task.name in run[i].subscribed && run[j].section.pc.Done? && !run[j].stopped
    ensures t < |run[i].gens| && StoredNow(run[j], run[i].events, run[i].section.task, run[i].now)
    ensures IsInactive(run[j], t) || run[j].pushed == run[i].pushed + [Push(t, run[i].gens[t].replayGeneration, |run[i].events|)]
  {
    Generations.RunInv(run, i);
    StartHandles(run[i], run[i + 1], t, ok);
    HandleAlong(run, i + 1, j, run[i].section.task, t, run[i].gens[t].replayGeneration, run[i].events, run[i].pushed, run[i].now);
  }
}
