/**
  A section of the lifecycle lock goes on and comes to its end: nothing in it
  waits for ever on the lock's own state.
*/
module LifecycleProgress {
  import opened Options
  import opened ReplayLog
  import opened Lifecycle
  import opened LifecycleReplay

  // -------------------------------------------------------- who is at which point

  /** A point of a registration is reached by a registration only, and so for handling an event. */
  ghost predicate TaskInv(s: State) {
    s.section.Held? ==>
      && (s.section.pc.MarkOld? || s.section.pc.SealOld? || s.section.pc.Install? ==> s.section.task.Registering?)
      && (s.section.pc.ReadTarget? || s.section.pc.StopCheck? || s.section.pc.StoreEvent? ==> s.section.task.Handling?)
  }

  lemma RegisterKeepsTask(s: State, s': State)
    requires TaskInv(s) && s.section.Held? && RegisterStep(s, s')
    ensures TaskInv(s')
  {}

  lemma ReplayKeepsTask(s: State, s': State, ok: bool)
    requires TaskInv(s) && s.section.Held? && ReplayStep(s, s', ok)
    ensures TaskInv(s')
  {
    if s.section.pc.Loop? {
      assert LoopStep(s, s');
    }
  }

  lemma HandleKeepsTask(s: State, s': State, ok: bool)
    requires TaskInv(s) && s.section.Held? && HandleStep(s, s', ok)
    ensures TaskInv(s')
  {}

  lemma RemoveKeepsTask(s: State, s': State, ok: bool)
    requires TaskInv(s) && s.section.Held? && RemoveStep(s, s', ok)
    ensures TaskInv(s')
  {}

  lemma FollowsKeepsTask(s: State, s': State)
    requires TaskInv(s) && Follows(s, s')
    ensures TaskInv(s')
  {
    var action :| Next(s, s', action);
    if !action.Inside? {
      OutsideStill(s, s', action);
    } else if RegisterStep(s, s') {
      RegisterKeepsTask(s, s');
    } else if ReplayStep(s, s', action.ok) {
      ReplayKeepsTask(s, s', action.ok);
    } else if HandleStep(s, s', action.ok) {
      HandleKeepsTask(s, s', action.ok);
    } else if RemoveStep(s, s', action.ok) {
      RemoveKeepsTask(s, s', action.ok);
    }
  }

  lemma {:induction false} RunTaskInv(run: seq<State>, n: nat)
    requires IsRun(run) && n < |run|
    ensures TaskInv(run[n])
  {
    if n > 0 {
      var m := n - 1;
      assert run[m + 1] == run[n] && StepAt(run, m);
      RunTaskInv(run, m);
      FollowsKeepsTask(run[m], run[n]);
    }
  }

  // --------------------------------------------------------------- it goes on

  lemma StartGoesOn(s: State, ok: bool) returns (s': State)
    requires s.section.Held? && s.section.pc.Start?
    ensures InsideStep(s, s', ok)
  {
    match s.section.task
    case Registering(connection, _) =>
      s' := if s.closed then Go(s, Done)
            else Go(s, if s.current.Some? then MarkOld(|s.gens|, s.current.value) else Install(|s.gens|))
                 .(gens := s.gens + [Gen(connection, false, false, 0, false)]);
      assert RegisterStep(s, s');
    case Replaying(cursor) =>
      s' := Go(s, ReplayCheck(cursor));
      assert ReplayStep(s, s', ok);
    case Handling(_, name) =>
      s' := Go(s, if name in s.subscribed then ReadTarget else Done);
      assert HandleStep(s, s', ok);
    case Disconnecting(target) =>
      s' := Go(s, if s.current == Some(target) then RetireFlag(target) else Done);
      assert RemoveStep(s, s', ok);
    case Unregistering(expected) =>
      s' := if s.current.None? || (expected.Some? && s.current != expected) || (expected.None? && !ok) then Go(s, Done)
            else Go(s, DropSubscriptions(s.current.value)).(current := None);
      assert RemoveStep(s, s', ok);
  }

  lemma RegisterGoesOn(s: State) returns (s': State)
    requires Generations.Inv(s) && TaskInv(s) && s.section.Held?
    requires s.section.pc.MarkOld? || s.section.pc.SealOld? || s.section.pc.Install?
    ensures RegisterStep(s, s')
  {
    match s.section.pc
    case MarkOld(target, former) => s' := Go(Deactivate(s, former, false), SealOld(target, former));
    case SealOld(target, former) =>
      s' := Go(Deactivate(s, former, s.gens[former].connection != s.gens[target].connection), Install(target));
    case Install(target) =>
      s' := if s.closed then Go(s, RetireFlag(target))
            else Go(s, if s.section.task.replay.Some? then ReplayCheck(s.section.task.replay.value) else Done)
                 .(current := Some(target), gens := s.gens[target := s.gens[target].(installed := true)]);
  }

  lemma LoopGoesOn(s: State) returns (s': State)
    requires LifecycleReplay.Inv(s) && s.section.Held? && s.section.pc.Loop?
    ensures LoopStep(s, s')
  {
    var r := LastReplay(s);
    assert Known(s.gens, r.target, r.generation) && ReadOk(s.events, s.retention, r) && ReplayOk(s.events, r);
    if r.done >= |r.tail| {
      s' := Go(s, Done);
    } else {
      var k := r.tail[r.done];
      s' := if s.gens[r.target].inactive then Go(SetReplay(s, r.(cut := TargetInactive)), Done)
            else if Expired(s.events, k, r.cutoff) then SetReplay(s, r.(done := r.done + 1))
            else if s.events[k].name !in s.subscribed then
              SetReplay(s, r.(done := r.done + 1, skipped := r.skipped + {k}))
            else Go(s, LoopPush);
    }
  }

  lemma LoopPushGoesOn(s: State, ok: bool) returns (s': State)
    requires LifecycleReplay.Inv(s) && s.section.Held? && s.section.pc.LoopPush?
    ensures LoopPushStep(s, s', ok)
  {
    var r := LastReplay(s);
    var k := r.tail[r.done];
    s' := if ok then Go(SetReplay(s, r.(done := r.done + 1, mine := r.mine + [k])), Loop)
                     .(pushed := s.pushed + [Push(r.target, r.generation, k)])
          else Go(SetReplay(s, r.(cut := NotQueued)), Done);
  }

  lemma ReplayGoesOn(s: State, ok: bool) returns (s': State)
    requires LifecycleReplay.Inv(s) && s.section.Held?
    requires s.section.pc.ReplayCheck? || s.section.pc.Bump? || s.section.pc.Aim? || s.section.pc.Read?
    ensures ReplayStep(s, s', ok)
  {
    match s.section.pc
    case ReplayCheck(cursor) =>
      s' := Go(s, if !ok || s.current.None? || s.gens[s.current.value].inactive then Done else Bump(cursor, s.current.value));
    case Bump(cursor, target) =>
      var generation := s.gens[target].replayGeneration + 1;
      s' := Go(s, Aim(cursor, target, generation)).(gens := s.gens[target := s.gens[target].(replayGeneration := generation)]);
    case Aim(cursor, target, generation) => s' := Go(s, Read(cursor, target, generation, s.now - s.retention));
    case Read(cursor, target, generation, cutoff) =>
      var r := Replay(target, generation, cursor, cutoff, s.now, s.log, Tail(s.events, s.log, cursor), |s.events|, s.cleared,
                      |s.pushed|, 0, [], {}, Whole);
      s' := Go(s, Loop).(replays := s.replays + [r]);
  }

  lemma HandleGoesOn(s: State, ok: bool) returns (s': State)
    requires LifecycleReplay.Inv(s) && TaskInv(s) && s.section.Held?
    requires s.section.pc.ReadTarget? || s.section.pc.StopCheck? || s.section.pc.StoreEvent?
             || s.section.pc.ActiveCheck? || s.section.pc.PushEvent?
    ensures HandleStep(s, s', ok)
  {
    match s.section.pc
    case ReadTarget => s' := Go(s, if s.current.Some? then StopCheck(s.current.value) else Done);
    case StopCheck(target) =>
      s' := Go(s, if s.stopped then Done else StoreEvent(target, s.gens[target].replayGeneration, s.now));
    case StoreEvent(target, generation, at) =>
      var e := Entry(s.section.task.id, s.section.task.name, at);
      s' := Go(s, ActiveCheck(target, generation, |s.events|))
            .(events := s.events + [e], log := if e.id != "" then s.log + [|s.events|] else s.log);
    case ActiveCheck(target, generation, entry) =>
      s' := Go(s, if s.gens[target].inactive then Done else PushEvent(target, generation, entry));
    case PushEvent(target, generation, entry) =>
      s' := if ok then Go(s, Done).(pushed := s.pushed + [Push(target, generation, entry)]) else Go(s, Done);
  }

  lemma RemoveGoesOn(s: State, ok: bool) returns (s': State)
    requires Generations.Inv(s) && s.section.Held?
    requires s.section.pc.DropSubscriptions? || s.section.pc.DropLog? || s.section.pc.RetireFlag? || s.section.pc.RetireSeal?
    ensures RemoveStep(s, s', ok)
  {
    match s.section.pc
    case DropSubscriptions(g) => s' := Go(s, DropLog(g)).(subscribed := {});
    case DropLog(g) => s' := Go(s, RetireFlag(g)).(log := [], cleared := |s.events|);
    case RetireFlag(g) => s' := Go(Deactivate(s, g, false), RetireSeal(g));
    case RetireSeal(g) => s' := Go(Deactivate(s, g, true), Done);
  }

  lemma InsideGoesOn(s: State, ok: bool) returns (s': State)
    requires LifecycleReplay.Inv(s) && TaskInv(s) && s.section.Held?
    ensures InsideStep(s, s', ok)
  {
    match s.section.pc
    case Start => s' := StartGoesOn(s, ok);
    case MarkOld(_, _) => s' := RegisterGoesOn(s);
    case SealOld(_, _) => s' := RegisterGoesOn(s);
    case Install(_) => s' := RegisterGoesOn(s);
    case Loop => s' := LoopGoesOn(s);
    case LoopPush => s' := LoopPushGoesOn(s, ok);
    case ReplayCheck(_) => s' := ReplayGoesOn(s, ok);
    case Bump(_, _) => s' := ReplayGoesOn(s, ok);
    case Aim(_, _, _) => s' := ReplayGoesOn(s, ok);
    case Read(_, _, _, _) => s' := ReplayGoesOn(s, ok);
    case DropSubscriptions(_) => s' := RemoveGoesOn(s, ok);
    case DropLog(_) => s' := RemoveGoesOn(s, ok);
    case RetireFlag(_) => s' := RemoveGoesOn(s, ok);
    case RetireSeal(_) => s' := RemoveGoesOn(s, ok);
    case Done => s' := s.(section := Free);
    case _ => s' := HandleGoesOn(s, ok);
  }

  /** Whoever is inside the lock can always take its next step. */
  lemma SectionGoesOn(run: seq<State>, n: nat, ok: bool) returns (s': State)
    requires IsRun(run) && n < |run| && run[n].section.Held?
    ensures InsideStep(run[n], s', ok)
  {
    RunInv(run, n);
    RunTaskInv(run, n);
    s' := InsideGoesOn(run[n], ok);
  }

  // -------------------------------------------------------- and comes to an end

  /** How many steps a section has left, at most. */
  function StepsLeft(s: State): (n: nat) {
    if s.section.Free? then 0
    else
      match s.section.pc
      case Done => 1
      case RetireSeal(_) => 2
      case RetireFlag(_) => 3
      case DropLog(_) => 4
      case DropSubscriptions(_) => 5
      case PushEvent(_, _, _) => 2
      case ActiveCheck(_, _, _) => 3
      case StoreEvent(_, _, _) => 4
      case StopCheck(_) => 5
      case ReadTarget => 6
      case Loop => LoopLeft(s) + 2
      case LoopPush => LoopLeft(s) + 1
      case Read(_, _, _, _) => 2 * |s.log| + 3
      case Aim(_, _, _) => 2 * |s.log| + 4
      case Bump(_, _) => 2 * |s.log| + 5
      case ReplayCheck(_) => 2 * |s.log| + 6
      case Install(_) => 2 * |s.log| + 7
      case SealOld(_, _) => 2 * |s.log| + 8
      case MarkOld(_, _) => 2 * |s.log| + 9
      case Start => 2 * |s.log| + 10
  }

  function LoopLeft(s: State): (n: nat) {
    if s.replays == [] || LastReplay(s).done >= |LastReplay(s).tail| then 0
    else 2 * (|LastReplay(s).tail| - LastReplay(s).done)
  }

  lemma RegisterShortens(s: State, s': State)
    requires s.section.Held? && RegisterStep(s, s')
    ensures StepsLeft(s') < StepsLeft(s)
  {}

  lemma LoopShortens(s: State, s': State)
    requires s.section.Held? && s.section.pc.Loop? && LoopStep(s, s')
    ensures StepsLeft(s') < StepsLeft(s)
  {}

  lemma LoopPushShortens(s: State, s': State, ok: bool)
    requires s.section.Held? && s.section.pc.LoopPush? && LoopPushStep(s, s', ok)
    ensures StepsLeft(s') < StepsLeft(s)
  {}

  lemma ReplayShortens(s: State, s': State, ok: bool)
    requires s.section.Held? && ReplayStep(s, s', ok)
    ensures StepsLeft(s') < StepsLeft(s)
  {
    if s.section.pc.Loop? {
      LoopShortens(s, s');
    } else if s.section.pc.LoopPush? {
      LoopPushShortens(s, s', ok);
    } else {
      OpeningShortens(s, s', ok);
    }
  }

  lemma OpeningShortens(s: State, s': State, ok: bool)
    requires s.section.Held? && ReplayStep(s, s', ok) && !s.section.pc.Loop? && !s.section.pc.LoopPush?
    ensures StepsLeft(s') < StepsLeft(s)
  {
    if s.section.pc.Read? {
      assert |Tail(s.events, s.log, s.section.pc.cursor)| <= |s.log|;
    }
  }

  lemma HandleShortens(s: State, s': State, ok: bool)
    requires s.section.Held? && HandleStep(s, s', ok)
    ensures StepsLeft(s') < StepsLeft(s)
  {}

  lemma RemoveShortens(s: State, s': State, ok: bool)
    requires s.section.Held? && RemoveStep(s, s', ok)
    ensures StepsLeft(s') < StepsLeft(s)
  {}

  lemma {:induction false} UnexpiredShorter<T>(log: seq<T>, at: T -> int, before: int)
    ensures |Unexpired(log, at, before)| <= |log|
  {
    if log != [] {
      UnexpiredShorter(log[..|log| - 1], at, before);
    }
  }

  /** Each step of the caller brings the end closer, and nothing that happens around it moves it away. */
  lemma SectionShortens(s: State, s': State, action: Action)
    requires Next(s, s', action) && s.section.Held?
    ensures StepsLeft(s') <= StepsLeft(s) - if action.Inside? then 1 else 0
  {
    if !action.Inside? {
      OutsideStill(s, s', action);
      if action.Purge? {
        UnexpiredShorter(s.log, TimesOf(s.events), action.before);
      }
    } else if RegisterStep(s, s') {
      RegisterShortens(s, s');
    } else if ReplayStep(s, s', action.ok) {
      ReplayShortens(s, s', action.ok);
    } else if HandleStep(s, s', action.ok) {
      HandleShortens(s, s', action.ok);
    } else if RemoveStep(s, s', action.ok) {
      RemoveShortens(s, s', action.ok);
    }
  }
}
