/** Replay of one client ID: what a replay queues, in which order, and that a reconnect leaves no gap. */
module LifecycleReplay {
  import opened Options
  import opened ReplayLog
  import opened Lifecycle
  import opened LifecycleLog
  import Generations = LifecycleGenerations

  // ------------------------------------------------------ what a replay queues

  /** What a replay queues: of the events it looked at, those neither expired nor unsubscribed when it came to them. */
  ghost function Chosen(events: seq<Entry>, tail: seq<nat>, cutoff: int, skipped: set<nat>): (r: seq<nat>) {
    if tail == [] then []
    else
      var k := tail[|tail| - 1];
      Chosen(events, tail[..|tail| - 1], cutoff, skipped) + if Expired(events, k, cutoff) || k in skipped then [] else [k]
  }

  lemma ChosenNext(events: seq<Entry>, tail: seq<nat>, n: nat, cutoff: int, skipped: set<nat>)
    requires n < |tail|
    ensures Chosen(events, tail[..n + 1], cutoff, skipped) ==
            Chosen(events, tail[..n], cutoff, skipped)
            + if Expired(events, tail[n], cutoff) || tail[n] in skipped then [] else [tail[n]]
  {
    assert tail[..n + 1][..n] == tail[..n];
  }

  lemma {:induction false} ChosenSkip(events: seq<Entry>, tail: seq<nat>, cutoff: int, skipped: set<nat>, k: nat)
    requires k !in tail
    ensures Chosen(events, tail, cutoff, skipped + {k}) == Chosen(events, tail, cutoff, skipped)
  {
    if tail != [] {
      ChosenSkip(events, tail[..|tail| - 1], cutoff, skipped, k);
    }
  }

  lemma {:induction false} ChosenStable(events: seq<Entry>, e: Entry, tail: seq<nat>, cutoff: int, skipped: set<nat>)
    requires forall i :: 0 <= i < |tail| ==> tail[i] < |events|
    ensures Chosen(events + [e], tail, cutoff, skipped) == Chosen(events, tail, cutoff, skipped)
  {
    if tail != [] {
      ChosenStable(events, e, tail[..|tail| - 1], cutoff, skipped);
    }
  }

  /** Membership in what a replay queues. */
  lemma {:induction false} ChosenContains(events: seq<Entry>, tail: seq<nat>, cutoff: int, skipped: set<nat>, k: nat)
    ensures k in Chosen(events, tail, cutoff, skipped) <==> k in tail && !Expired(events, k, cutoff) && k !in skipped
  {
    if tail != [] {
      ChosenContains(events, tail[..|tail| - 1], cutoff, skipped, k);
      assert tail == tail[..|tail| - 1] + [tail[|tail| - 1]];
    }
  }

  lemma TailStable(events: seq<Entry>, e: Entry, log: seq<nat>, cursor: string)
    requires forall i :: 0 <= i < |log| ==> log[i] < |events|
    ensures Tail(events + [e], log, cursor) == Tail(events, log, cursor)
  {
    assert Ids(log, IdsOf(events + [e])) == Ids(log, IdsOf(events));
  }

  // ---------------------------------------------------------------- histories

  ghost predicate Known(gens: seq<Gen>, target: nat, generation: nat) {
    target < |gens| && gens[target].installed && generation <= gens[target].replayGeneration
  }

  ghost predicate Under(p: Push, target: nat, generation: nat) {
    p.target == target && p.generation == generation
  }

  ghost predicate PushesOk(gens: seq<Gen>, events: seq<Entry>, pushed: seq<Push>) {
    forall p :: 0 <= p < |pushed| ==> Known(gens, pushed[p].target, pushed[p].generation) && pushed[p].entry < |events|
  }

  /** Under one replay generation events are queued in the order they were handled, none twice. */
  ghost predicate InOrder(pushed: seq<Push>) {
    forall a, b :: 0 <= a < b < |pushed| && Under(pushed[a], pushed[b].target, pushed[b].generation) ==>
      pushed[a].entry < pushed[b].entry
  }

  ghost predicate ReadOk(events: seq<Entry>, retention: nat, r: Replay) {
    && r.upto <= |events|
    && (forall i :: 0 <= i < |r.log| ==> r.log[i] < r.upto)
    && (forall k :: 0 <= k < r.upto ==> Retained(events, r.log, r.cleared, ReadCutoff(r.readAt, retention), k))
    && r.tail == Tail(events, r.log, r.cursor)
    && Rising(r.tail) && (forall i :: 0 <= i < |r.tail| ==> r.tail[i] < r.upto)
  }

  ghost function ReadCutoff(readAt: int, retention: nat): (t: int) {
    readAt - retention
  }

  ghost predicate ReplayOk(events: seq<Entry>, r: Replay) {
    && r.done <= |r.tail|
    && (forall k :: k in r.skipped ==> k in r.tail[..r.done])
    && r.mine == Chosen(events, r.tail[..r.done], r.cutoff, r.skipped)
  }

  ghost predicate Queued(pushed: seq<Push>, r: Replay) {
    && r.start + |r.mine| <= |pushed|
    && forall i :: 0 <= i < |r.mine| ==> pushed[r.start + i] == Push(r.target, r.generation, r.mine[i])
  }

  /** A later registration, or the same one at this replay or a later one. */
  ghost predicate NotBefore(r: Replay, p: Push) {
    r.target < p.target || (r.target == p.target && r.generation <= p.generation)
  }

  ghost predicate ReplaysOk(s: State) {
    forall i :: 0 <= i < |s.replays| ==>
      && Known(s.gens, s.replays[i].target, s.replays[i].generation)
      && ReadOk(s.events, s.retention, s.replays[i]) && ReplayOk(s.events, s.replays[i])
      && Queued(s.pushed, s.replays[i])
  }

  /** Whatever was handled after a replay read the log is queued for the registration it replayed to, or a later one. */
  ghost predicate NoGap(pushed: seq<Push>, replays: seq<Replay>) {
    forall i, p :: 0 <= i < |replays| && 0 <= p < |pushed| && replays[i].upto <= pushed[p].entry ==>
      NotBefore(replays[i], pushed[p])
  }

  ghost predicate DataInv(s: State) {
    PushesOk(s.gens, s.events, s.pushed) && InOrder(s.pushed) && ReplaysOk(s) && NoGap(s.pushed, s.replays)
  }

  // --------------------------------------------------------------- the section

  /** `target` is in the client map and at replay generation `generation`. */
  ghost predicate AtKey(s: State, target: nat, generation: nat) {
    s.current == Some(target) && target < |s.gens| && s.gens[target].replayGeneration == generation
  }

  ghost predicate KeyInv(s: State) {
    s.section.Held? ==>
      match s.section.pc
      case Bump(_, target) => s.current == Some(target)
      case Aim(_, target, generation) => AtKey(s, target, generation)
      case Read(_, target, generation, _) => AtKey(s, target, generation)
      case Loop => s.replays != [] && AtKey(s, LastReplay(s).target, LastReplay(s).generation)
      case LoopPush => s.replays != [] && AtKey(s, LastReplay(s).target, LastReplay(s).generation)
      case StopCheck(target) => s.current == Some(target)
      case StoreEvent(target, generation, _) => AtKey(s, target, generation)
      case ActiveCheck(target, generation, _) => AtKey(s, target, generation)
      case PushEvent(target, generation, _) => AtKey(s, target, generation)
      case _ => true
  }

  ghost predicate NoneUnder(pushed: seq<Push>, target: nat, generation: nat) {
    forall p :: 0 <= p < |pushed| ==> !Under(pushed[p], target, generation)
  }

  /** What is left to replay comes after all that is queued under the replay's generation. */
  ghost predicate Ahead(pushed: seq<Push>, r: Replay) {
    && r.start + |r.mine| == |pushed|
    && forall p, i :: 0 <= p < |pushed| && r.done <= i < |r.tail| && Under(pushed[p], r.target, r.generation) ==>
         pushed[p].entry < r.tail[i]
  }

  ghost predicate IsLatest(s: State, entry: nat) {
    entry == |s.events| - 1 && forall p :: 0 <= p < |s.pushed| ==> s.pushed[p].entry < entry
  }

  ghost predicate AheadInv(s: State) {
    s.section.Held? ==>
      match s.section.pc
      case Aim(_, target, generation) => NoneUnder(s.pushed, target, generation)
      case Read(_, target, generation, _) => NoneUnder(s.pushed, target, generation)
      case Loop => s.replays != [] && Ahead(s.pushed, LastReplay(s))
      case LoopPush => s.replays != [] && Ahead(s.pushed, LastReplay(s)) && NextIsDue(s.events, LastReplay(s))
      case ActiveCheck(_, _, entry) => IsLatest(s, entry)
      case PushEvent(_, _, entry) => IsLatest(s, entry)
      case _ => true
  }

  ghost predicate NextIsDue(events: seq<Entry>, r: Replay) {
    r.done < |r.tail| && !Expired(events, r.tail[r.done], r.cutoff)
  }

  /** A replay is complete, was cut short, or is the one going on. */
  ghost predicate EndInv(s: State) {
    forall i :: 0 <= i < |s.replays| ==>
      && (s.replays[i].done == |s.replays[i].tail| || !s.replays[i].cut.Whole? || GoingOn(s, i))
      && (s.replays[i].cut.TargetInactive? ==> Generations.Inactive(s, s.replays[i].target))
  }

  ghost predicate GoingOn(s: State, i: nat) {
    i == |s.replays| - 1 && s.section.Held? && (s.section.pc.Loop? || s.section.pc.LoopPush?)
  }

  ghost predicate Inv(s: State) {
    Generations.Inv(s) && LogInv(s) && TimesInv(s) && DataInv(s) && KeyInv(s) && AheadInv(s) && EndInv(s)
  }

  // --------------------------------------------- steps that add to no history

  ghost predicate Advances(gens: seq<Gen>, gens': seq<Gen>) {
    && |gens| <= |gens'|
    && forall g :: 0 <= g < |gens| ==>
         && (gens[g].installed ==> gens'[g].installed)
         && (gens[g].inactive ==> gens'[g].inactive)
         && gens[g].replayGeneration <= gens'[g].replayGeneration
  }

  ghost predicate Steady(s: State, s': State) {
    s'.pushed == s.pushed && s'.replays == s.replays && s'.events == s.events && s'.retention == s.retention
    && Advances(s.gens, s'.gens)
  }

  lemma SteadyKeepsData(s: State, s': State)
    requires DataInv(s) && Steady(s, s')
    ensures DataInv(s')
  {}

  ghost predicate InLoop(section: Section) {
    section.Held? && (section.pc.Loop? || section.pc.LoopPush?)
  }

  lemma SteadyKeepsEnds(s: State, s': State)
    requires EndInv(s) && Steady(s, s')
    requires InLoop(s.section) && !InLoop(s'.section) ==> s.replays != [] && LastReplay(s).done == |LastReplay(s).tail|
    ensures EndInv(s')
  {
    forall i | 0 <= i < |s'.replays|
      ensures s'.replays[i].done == |s'.replays[i].tail| || !s'.replays[i].cut.Whole? || GoingOn(s', i)
      ensures s'.replays[i].cut.TargetInactive? ==> Generations.Inactive(s', s'.replays[i].target)
    {
      assert s'.replays[i] == s.replays[i];
      if GoingOn(s, i) && !InLoop(s'.section) {
        assert s.replays[i] == LastReplay(s);
      }
    }
  }

  /** Nothing the section relies on has changed. */
  ghost predicate Still(s: State, s': State) {
    && Steady(s, s') && s'.current == s.current && |s'.gens| == |s.gens|
    && forall g :: 0 <= g < |s.gens| ==> s'.gens[g].replayGeneration == s.gens[g].replayGeneration
  }

  lemma StillKeepsSection(s: State, s': State)
    requires KeyInv(s) && AheadInv(s) && Still(s, s') && s'.section == s.section
    ensures KeyInv(s') && AheadInv(s')
  {}

  lemma OutsideStill(s: State, s': State, action: Action)
    requires OutsideStep(s, s', action)
    ensures Still(s, s')
    ensures s'.section == s.section || (s.section.Free? && s'.section.Held? && s'.section.pc.Start?)
  {
    match action
    case ShutDown => ShutdownStill(s, s');
    case Exhaust(g) => assert ExhaustStep(s, s', g);
    case _ =>
  }

  lemma ShutdownStill(s: State, s': State)
    requires ShutdownStep(s, s')
    ensures Still(s, s') && s'.section == s.section
  {}

  ghost predicate Rest(s: State) {
    DataInv(s) && KeyInv(s) && AheadInv(s) && EndInv(s)
  }

  lemma OutsideKeepsRest(s: State, s': State, action: Action)
    requires Rest(s) && OutsideStep(s, s', action)
    ensures Rest(s')
  {
    OutsideStill(s, s', action);
    SteadyKeepsData(s, s');
    SteadyKeepsEnds(s, s');
    if s'.section == s.section {
      StillKeepsSection(s, s');
    }
  }

  /** The section has come to a point where it relies on nothing here. */
  ghost predicate Unclaiming(section: Section) {
    section.Held? ==>
      && !section.pc.Bump? && !section.pc.Aim? && !section.pc.Read? && !section.pc.Loop? && !section.pc.LoopPush?
      && !section.pc.StopCheck? && !section.pc.StoreEvent? && !section.pc.ActiveCheck? && !section.pc.PushEvent?
  }

  lemma RegisterSteady(s: State, s': State)
    requires s.section.Held? && RegisterStep(s, s')
    ensures Steady(s, s') && Unclaiming(s.section) && Unclaiming(s'.section)
  {}

  lemma RemoveSteady(s: State, s': State, ok: bool)
    requires s.section.Held? && RemoveStep(s, s', ok)
    ensures Steady(s, s') && Unclaiming(s.section) && Unclaiming(s'.section)
  {}

  lemma UnclaimingKeepsRest(s: State, s': State)
    requires Rest(s) && Steady(s, s') && Unclaiming(s'.section)
    requires InLoop(s.section) ==> s.replays != [] && LastReplay(s).done == |LastReplay(s).tail|
    ensures Rest(s')
  {
    SteadyKeepsData(s, s');
    SteadyKeepsEnds(s, s');
  }

  // ------------------------------------------------------------- replay steps

  /** A new replay generation: nothing is queued under it yet. */
  lemma BumpKeepsRest(s: State, s': State, ok: bool)
    requires Rest(s) && s.section.Held? && s.section.pc.Bump? && ReplayStep(s, s', ok)
    ensures Rest(s')
  {
    SteadyKeepsData(s, s');
    SteadyKeepsEnds(s, s');
  }

  lemma CheckKeepsRest(s: State, s': State, ok: bool)
    requires Rest(s) && s.section.Held? && (s.section.pc.Start? || s.section.pc.ReplayCheck? || s.section.pc.Aim?)
    requires ReplayStep(s, s', ok)
    ensures Rest(s')
  {
    SteadyKeepsData(s, s');
    SteadyKeepsEnds(s, s');
  }

  lemma ReadIsOk(s: State, s': State, cursor: string, target: nat, generation: nat, cutoff: int)
    requires LogInv(s) && s.section.Held? && ReadStep(s, s', cursor, target, generation, cutoff)
    ensures ReadOk(s'.events, s'.retention, LastReplay(s')) && ReplayOk(s'.events, LastReplay(s'))
    ensures Queued(s'.pushed, LastReplay(s'))
  {
    var r := LastReplay(s');
    assert ReadCutoff(r.readAt, s.retention) == Cutoff(s);
    assert r.tail[..0] == [];
  }

  /** A replay record is added, or the last one replaced by a further one of the same replay. */
  ghost predicate Recorded(replays: seq<Replay>, replays': seq<Replay>, r: Replay) {
    || replays' == replays + [r]
    || (replays != [] && replays' == replays[|replays| - 1 := r])
  }

  lemma RecordKeepsData(s: State, s': State, r: Replay)
    requires DataInv(s) && Recorded(s.replays, s'.replays, r)
    requires s'.gens == s.gens && s'.events == s.events && s'.pushed == s.pushed && s'.retention == s.retention
    requires Known(s.gens, r.target, r.generation) && ReadOk(s.events, s.retention, r) && ReplayOk(s.events, r)
    requires Queued(s.pushed, r)
    requires forall p :: 0 <= p < |s.pushed| && r.upto <= s.pushed[p].entry ==> NotBefore(r, s.pushed[p])
    ensures DataInv(s')
  {}

  lemma ReadKeepsRest(s: State, s': State, ok: bool)
    requires Inv(s) && s.section.Held? && s.section.pc.Read? && ReplayStep(s, s', ok)
    ensures Rest(s')
  {
    var Read(cursor, target, generation, cutoff) := s.section.pc;
    ReadIsOk(s, s', cursor, target, generation, cutoff);
    RecordKeepsData(s, s', LastReplay(s'));
    ReadKeepsEnds(s, s', cursor, target, generation, cutoff);
    ReadKeepsSection(s, s', cursor, target, generation, cutoff);
  }

  lemma ReadKeepsEnds(s: State, s': State, cursor: string, target: nat, generation: nat, cutoff: int)
    requires s.section.Held? && s.section.pc.Read? && EndInv(s) && ReadStep(s, s', cursor, target, generation, cutoff)
    ensures EndInv(s')
  {
    forall i | 0 <= i < |s.replays|
      ensures s'.replays[i] == s.replays[i] && !GoingOn(s, i)
    {}
  }

  lemma ReadKeepsSection(s: State, s': State, cursor: string, target: nat, generation: nat, cutoff: int)
    requires s.section.Held? && AtKey(s, target, generation) && NoneUnder(s.pushed, target, generation)
    requires ReadStep(s, s', cursor, target, generation, cutoff)
    ensures KeyInv(s') && AheadInv(s')
  {}

  // --------------------------------------------------------------- replay loop

  lemma SkipIsOk(events: seq<Entry>, r: Replay, r': Replay)
    requires ReplayOk(events, r) && Rising(r.tail) && r.done < |r.tail|
    requires var k := r.tail[r.done];
      || (Expired(events, k, r.cutoff) && r' == r.(done := r.done + 1))
      || (!Expired(events, k, r.cutoff) && r' == r.(done := r.done + 1, skipped := r.skipped + {k}))
    ensures ReplayOk(events, r')
  {
    var k := r.tail[r.done];
    ChosenNext(events, r.tail, r.done, r.cutoff, r'.skipped);
    assert r.tail[..r.done + 1] == r.tail[..r.done] + [k];
    assert k !in r.tail[..r.done];
    ChosenSkip(events, r.tail[..r.done], r.cutoff, r.skipped, k);
  }

  lemma TakeIsOk(events: seq<Entry>, r: Replay, r': Replay)
    requires ReplayOk(events, r) && Rising(r.tail) && NextIsDue(events, r)
    requires r' == r.(done := r.done + 1, mine := r.mine + [r.tail[r.done]])
    ensures ReplayOk(events, r')
  {
    ChosenNext(events, r.tail, r.done, r.cutoff, r.skipped);
    assert r.tail[..r.done + 1] == r.tail[..r.done] + [r.tail[r.done]];
    assert r.tail[r.done] !in r.tail[..r.done];
  }

  /** The loop looks at one event and passes over it. */
  ghost predicate Passes(s: State, s': State, r': Replay) {
    && s.replays != [] && s.section.Held? && s' == SetReplay(s, r')
    && LastReplay(s).done < |LastReplay(s).tail| && LastReplay(s).tail[LastReplay(s).done] < |s.events|
    && var r := LastReplay(s);
       var k := r.tail[r.done];
       || (Expired(s.events, k, r.cutoff) && r' == r.(done := r.done + 1))
       || (!Expired(s.events, k, r.cutoff) && s.events[k].name !in s.subscribed
           && r' == r.(done := r.done + 1, skipped := r.skipped + {k}))
  }

  /** The same replay, further on. */
  ghost predicate Continues(r: Replay, r': Replay) {
    r' == r.(done := r'.done, mine := r'.mine, skipped := r'.skipped, cut := r'.cut)
  }

  lemma ContinuesKeepsRead(events: seq<Entry>, pushed: seq<Push>, retention: nat, r: Replay, r': Replay)
    requires ReadOk(events, retention, r) && Continues(r, r')
    ensures ReadOk(events, retention, r')
    ensures forall p :: 0 <= p < |pushed| && NotBefore(r, pushed[p]) ==> NotBefore(r', pushed[p])
  {}

  lemma ContinueKeepsData(s: State, s': State, r': Replay)
    requires DataInv(s) && s.replays != [] && Continues(LastReplay(s), r')
    requires s'.replays == s.replays[|s.replays| - 1 := r']
    requires s'.gens == s.gens && s'.events == s.events && s'.pushed == s.pushed && s'.retention == s.retention
    requires ReplayOk(s.events, r') && Queued(s.pushed, r')
    ensures DataInv(s')
  {
    ContinuesKeepsRead(s.events, s.pushed, s.retention, LastReplay(s), r');
    RecordKeepsData(s, s', r');
  }

  lemma PassKeepsData(s: State, s': State, r': Replay)
    requires DataInv(s) && Passes(s, s', r')
    ensures DataInv(s')
  {
    var r := LastReplay(s);
    assert ReadOk(s.events, s.retention, r) && ReplayOk(s.events, r) && Queued(s.pushed, r);
    SkipIsOk(s.events, r, r');
    ContinueKeepsData(s, s', r');
  }

  lemma PassKeepsEnds(s: State, s': State, r': Replay)
    requires EndInv(s) && s.section.Held? && s.section.pc.Loop? && Passes(s, s', r')
    ensures EndInv(s')
  {
    forall i | 0 <= i < |s.replays| - 1
      ensures s'.replays[i] == s.replays[i] && !GoingOn(s, i)
    {}
  }

  lemma PassKeepsRest(s: State, s': State, r': Replay)
    requires Rest(s) && s.section.Held? && s.section.pc.Loop? && Passes(s, s', r')
    ensures Rest(s')
  {
    PassKeepsData(s, s', r');
    PassKeepsEnds(s, s', r');
    PassKeepsSection(s, s', r');
  }

  lemma PassKeepsSection(s: State, s': State, r': Replay)
    requires KeyInv(s) && AheadInv(s) && s.section.Held? && s.section.pc.Loop? && Passes(s, s', r')
    ensures KeyInv(s') && AheadInv(s')
  {
    assert LastReplay(s') == r';
  }

  /** The loop ends before its list does. */
  ghost predicate Cuts(s: State, s': State, cut: Cut) {
    && s.replays != [] && s.section.Held? && !cut.Whole?
    && (cut.TargetInactive? ==> Generations.Inactive(s, LastReplay(s).target))
    && s' == Go(SetReplay(s, LastReplay(s).(cut := cut)), Done)
  }

  lemma CutKeepsRest(s: State, s': State, cut: Cut)
    requires Rest(s) && InLoop(s.section) && Cuts(s, s', cut)
    ensures Rest(s')
  {
    var r := LastReplay(s);
    assert ReplayOk(s.events, r) && Queued(s.pushed, r);
    ContinueKeepsData(s, s', r.(cut := cut));
    forall i | 0 <= i < |s.replays| - 1
      ensures s'.replays[i] == s.replays[i] && !GoingOn(s, i)
    {}
  }

  lemma LoopKeepsRest(s: State, s': State)
    requires Rest(s) && s.section.Held? && s.section.pc.Loop? && LoopStep(s, s')
    ensures Rest(s')
  {
    var r := LastReplay(s);
    assert r.done <= |r.tail|;
    if r.done == |r.tail| {
      UnclaimingKeepsRest(s, s');
    } else if s.gens[r.target].inactive {
      CutKeepsRest(s, s', TargetInactive);
    } else if Expired(s.events, r.tail[r.done], r.cutoff) {
      PassKeepsRest(s, s', r.(done := r.done + 1));
    } else if s.events[r.tail[r.done]].name !in s.subscribed {
      PassKeepsRest(s, s', r.(done := r.done + 1, skipped := r.skipped + {r.tail[r.done]}));
    } else {
      DecideKeepsRest(s, s');
    }
  }

  /** The loop has decided to queue the next event. */
  lemma DecideKeepsRest(s: State, s': State)
    requires Rest(s) && s.section.Held? && s.section.pc.Loop? && s' == Go(s, LoopPush)
    requires NextIsDue(s.events, LastReplay(s))
    ensures Rest(s')
  {
    SteadyKeepsData(s, s');
    SteadyKeepsEnds(s, s');
  }

  // -------------------------------------------------------------------- pushes

  /** A push for the client in the map, at its replay generation, is behind no replay. */
  lemma PushIsLast(s: State, p: Push, i: nat)
    requires Generations.Inv(s) && ReplaysOk(s) && AtKey(s, p.target, p.generation) && i < |s.replays|
    ensures NotBefore(s.replays[i], p)
  {
    assert Known(s.gens, s.replays[i].target, s.replays[i].generation);
    assert Generations.Newest(s, p.target);
  }

  lemma QueuedStable(pushed: seq<Push>, p: Push, r: Replay)
    requires Queued(pushed, r)
    ensures Queued(pushed + [p], r)
  {}

  lemma PushKeepsData(s: State, s': State, p: Push)
    requires Generations.Inv(s) && DataInv(s) && AtKey(s, p.target, p.generation) && p.entry < |s.events|
    requires forall q :: 0 <= q < |s.pushed| && Under(s.pushed[q], p.target, p.generation) ==>
               s.pushed[q].entry < p.entry
    requires s'.gens == s.gens && s'.events == s.events && s'.replays == s.replays && s'.retention == s.retention
    requires s'.pushed == s.pushed + [p]
    ensures DataInv(s')
  {
    forall i | 0 <= i < |s.replays|
      ensures NotBefore(s.replays[i], p) && Queued(s'.pushed, s.replays[i])
    {
      PushIsLast(s, p, i);
      QueuedStable(s.pushed, p, s.replays[i]);
    }
    PushKeepsOrder(s.pushed, p);
  }

  lemma PushKeepsOrder(pushed: seq<Push>, p: Push)
    requires InOrder(pushed)
    requires forall q :: 0 <= q < |pushed| && Under(pushed[q], p.target, p.generation) ==> pushed[q].entry < p.entry
    ensures InOrder(pushed + [p])
  {}

  lemma LoopPushKeepsRest(s: State, s': State, ok: bool)
    requires Inv(s) && s.section.Held? && s.section.pc.LoopPush? && LoopPushStep(s, s', ok)
    ensures Rest(s')
  {
    if ok {
      TakeKeepsData(s, s');
      TakeKeepsSection(s, s');
      TakeKeepsEnds(s, s');
    } else {
      CutKeepsRest(s, s', NotQueued);
    }
  }

  lemma TakeKeepsData(s: State, s': State)
    requires Inv(s) && s.section.Held? && s.section.pc.LoopPush? && LoopPushStep(s, s', true)
    ensures DataInv(s')
  {
    var r := LastReplay(s);
    var k := r.tail[r.done];
    assert ReadOk(s.events, s.retention, r) && ReplayOk(s.events, r) && Queued(s.pushed, r);
    var middle := s.(pushed := s'.pushed);
    PushKeepsData(s, middle, Push(r.target, r.generation, k));
    var r' := r.(done := r.done + 1, mine := r.mine + [k]);
    TakeIsOk(s.events, r, r');
    TakeIsQueued(s.pushed, r, r', k);
    ContinueKeepsData(middle, s', r');
  }

  lemma TakeIsQueued(pushed: seq<Push>, r: Replay, r': Replay, k: nat)
    requires Queued(pushed, r) && r.start + |r.mine| == |pushed|
    requires r'.start == r.start && r'.target == r.target && r'.generation == r.generation && r'.mine == r.mine + [k]
    ensures Queued(pushed + [Push(r.target, r.generation, k)], r')
  {}

  lemma TakeKeepsSection(s: State, s': State)
    requires DataInv(s) && KeyInv(s) && AheadInv(s) && s.section.Held? && s.section.pc.LoopPush?
    requires LoopPushStep(s, s', true)
    ensures KeyInv(s') && AheadInv(s')
  {
    var r, r' := LastReplay(s), LastReplay(s');
    assert Rising(r.tail) by {
      assert ReadOk(s.events, s.retention, r);
    }
  }

  lemma TakeKeepsEnds(s: State, s': State)
    requires EndInv(s) && s.section.Held? && s.section.pc.LoopPush? && LoopPushStep(s, s', true)
    ensures EndInv(s')
  {
    forall i | 0 <= i < |s.replays| - 1
      ensures s'.replays[i] == s.replays[i] && !GoingOn(s, i)
    {}
  }

  lemma ReplayKeepsRest(s: State, s': State, ok: bool)
    requires Inv(s) && s.section.Held? && ReplayStep(s, s', ok)
    ensures Rest(s')
  {
    if s.section.pc.Bump? {
      BumpKeepsRest(s, s', ok);
    } else if s.section.pc.Read? {
      ReadKeepsRest(s, s', ok);
    } else if s.section.pc.Loop? {
      LoopKeepsRest(s, s');
    } else if s.section.pc.LoopPush? {
      LoopPushKeepsRest(s, s', ok);
    } else {
      CheckKeepsRest(s, s', ok);
    }
  }

  // ------------------------------------------------------------------ handling

  lemma StoreKeepsReplay(events: seq<Entry>, e: Entry, retention: nat, r: Replay)
    requires ReadOk(events, retention, r) && ReplayOk(events, r)
    ensures ReadOk(events + [e], retention, r) && ReplayOk(events + [e], r)
  {
    TailStable(events, e, r.log, r.cursor);
    ChosenStable(events, e, r.tail[..r.done], r.cutoff, r.skipped);
    forall k | 0 <= k < r.upto
      ensures Retained(events + [e], r.log, r.cleared, ReadCutoff(r.readAt, retention), k)
    {
      assert Retained(events, r.log, r.cleared, ReadCutoff(r.readAt, retention), k);
    }
  }

  lemma StoreKeepsRest(s: State, s': State, ok: bool)
    requires Rest(s) && s.section.Held? && s.section.pc.StoreEvent? && HandleStep(s, s', ok)
    ensures Rest(s')
  {
    forall i | 0 <= i < |s.replays|
      ensures ReadOk(s'.events, s.retention, s.replays[i]) && ReplayOk(s'.events, s.replays[i])
    {
      StoreKeepsReplay(s.events, s'.events[|s.events|], s.retention, s.replays[i]);
    }
  }

  lemma PushEventKeepsRest(s: State, s': State, ok: bool)
    requires Inv(s) && s.section.Held? && s.section.pc.PushEvent? && HandleStep(s, s', ok)
    ensures Rest(s')
  {
    if ok {
      var PushEvent(target, generation, entry) := s.section.pc;
      PushKeepsData(s, s', Push(target, generation, entry));
    } else {
      UnclaimingKeepsRest(s, s');
    }
  }

  lemma HandleOpensKeepsRest(s: State, s': State, ok: bool)
    requires Rest(s) && s.section.Held? && (s.section.pc.Start? || s.section.pc.ReadTarget?) && HandleStep(s, s', ok)
    ensures Rest(s')
  {
    SteadyKeepsData(s, s');
    SteadyKeepsEnds(s, s');
  }

  lemma HandleCheckKeepsRest(s: State, s': State, ok: bool)
    requires Rest(s) && s.section.Held? && (s.section.pc.StopCheck? || s.section.pc.ActiveCheck?)
    requires HandleStep(s, s', ok)
    ensures Rest(s')
  {
    SteadyKeepsData(s, s');
    SteadyKeepsEnds(s, s');
  }

  // ------------------------------------------------------------- over all runs

  lemma InsideKeepsRest(s: State, s': State, ok: bool)
    requires Inv(s) && InsideStep(s, s', ok)
    ensures Rest(s')
  {
    if RegisterStep(s, s') {
      RegisterSteady(s, s');
      UnclaimingKeepsRest(s, s');
    } else if ReplayStep(s, s', ok) {
      ReplayKeepsRest(s, s', ok);
    } else if HandleStep(s, s', ok) {
      HandleKeepsRest(s, s', ok);
    } else if RemoveStep(s, s', ok) {
      RemoveSteady(s, s', ok);
      UnclaimingKeepsRest(s, s');
    } else {
      UnclaimingKeepsRest(s, s');
    }
  }

  lemma HandleKeepsRest(s: State, s': State, ok: bool)
    requires Inv(s) && s.section.Held? && HandleStep(s, s', ok)
    ensures Rest(s')
  {
    if s.section.pc.StoreEvent? {
      StoreKeepsRest(s, s', ok);
    } else if s.section.pc.PushEvent? {
      PushEventKeepsRest(s, s', ok);
    } else if s.section.pc.StopCheck? || s.section.pc.ActiveCheck? {
      HandleCheckKeepsRest(s, s', ok);
    } else {
      HandleOpensKeepsRest(s, s', ok);
    }
  }

  lemma FollowsKeepsInv(s: State, s': State)
    requires Inv(s) && Follows(s, s')
    ensures Inv(s')
  {
    var action :| Next(s, s', action);
    Generations.StepKeepsInv(s, s', action);
    StepKeepsLog(s, s', action);
    if action.Inside? {
      InsideKeepsRest(s, s', action.ok);
    } else {
      OutsideKeepsRest(s, s', action);
    }
  }

  lemma {:induction false} RunInv(run: seq<State>, n: nat)
    requires IsRun(run) && n < |run|
    ensures Inv(run[n])
  {
    if n > 0 {
      var i := n - 1;
      assert run[i + 1] == run[n] && StepAt(run, i);
      RunInv(run, i);
      FollowsKeepsInv(run[i], run[n]);
    }
  }
}
