/**
  One client ID over its whole life: registration, replacement, disconnection,
  removal, publishing and replay, which run under the lifecycle lock of the ID,
  while sends, attempt exhaustion, subscription changes, replay cleanup and
  shutdown act at any time. A step is one critical section, one atomic load or
  store, or one call of the replay store or the send queue.

  That at most one caller is inside the lock is proved in `LockTable`; here the
  one inside is `section`, the others wait. Different IDs share only `closed`
  and `stopped`.
*/
module Lifecycle {
  import opened Options
  import opened ReplayLog

  /** One registration of the ID (`client`). `installed`: it was put in the client map. */
  datatype Gen = Gen(connection: nat, inactive: bool, connectionClosed: bool, replayGeneration: nat, installed: bool)

  /** A handled event. It is put in the replay log when it has an ID. */
  datatype Entry = Entry(id: string, name: string, storedAt: int)

  /** A delivery put in the send queue, for a generation and under its replay generation. */
  datatype Push = Push(target: nat, generation: nat, entry: nat)

  datatype Cut = Whole | TargetInactive | NotQueued

  /**
    One replay: what it read and when, and what it has done so far. `upto` and
    `cleared` are the number of events handled, and removed with an earlier
    registration, at the time of reading.
  */
  datatype Replay = Replay(
    target: nat,
    generation: nat,
    cursor: string,
    cutoff: int,
    readAt: int,
    log: seq<nat>,
    tail: seq<nat>,
    upto: nat,
    cleared: nat,
    start: nat,
    done: nat,
    mine: seq<nat>,
    skipped: set<nat>,
    cut: Cut)

  datatype Task =
    | Registering(connection: nat, replay: Option<string>)
    | Replaying(cursor: string)
    | Handling(id: string, name: string)
    | Disconnecting(target: nat)
    | Unregistering(expected: Option<nat>)

  /** Where the caller inside the lock is. */
  datatype Pc =
    | Start
    | MarkOld(target: nat, former: nat)
    | SealOld(target: nat, former: nat)
    | Install(target: nat)
    | ReplayCheck(cursor: string)
    | Bump(cursor: string, target: nat)
    | Aim(cursor: string, target: nat, generation: nat)
    | Read(cursor: string, target: nat, generation: nat, cutoff: int)
    | Loop
    | LoopPush
    | ReadTarget
    | StopCheck(target: nat)
    | StoreEvent(target: nat, generation: nat, at: int)
    | ActiveCheck(target: nat, generation: nat, entry: nat)
    | PushEvent(target: nat, generation: nat, entry: nat)
    | DropSubscriptions(removed: nat)
    | DropLog(removed: nat)
    | RetireFlag(target: nat)
    | RetireSeal(target: nat)
    | Done

  datatype Section = Free | Held(task: Task, pc: Pc)

  /** The end of `Close`: copy the client map, then retire what is in it. */
  datatype Shutdown = Pending | Copied(found: Option<nat>) | Sealing(client: nat) | Finished

  /**
    `gens` are all generations ever created, `events` all events handled; a
    position in them is the identity. `log` is the replay log, as positions in
    `events`. `pushed` and `replays` are histories.
  */
  datatype State = State(
    retention: nat,
    now: int,
    closed: bool,
    stopped: bool,
    shutdown: Shutdown,
    current: Option<nat>,
    gens: seq<Gen>,
    waiting: multiset<Task>,
    section: Section,
    subscribed: set<string>,
    events: seq<Entry>,
    log: seq<nat>,
    cleared: nat,
    pushed: seq<Push>,
    replays: seq<Replay>)

  datatype Action =
    | Inside(ok: bool)
    | Enter(task: Task)
    | GiveUp(task: Task)
    | Request(task: Task)
    | AskDisconnect(connection: nat)
    | Exhaust(client: nat)
    | SendEnds(client: nat)
    | Purge(before: int)
    | Subscriptions(names: set<string>)
    | Tick(time: int)
    | ShutDown

  ghost predicate Init(s: State) {
    && !s.closed && !s.stopped && s.shutdown.Pending? && s.current.None? && s.gens == [] && s.waiting == multiset{}
    && s.section.Free? && s.events == [] && s.log == [] && s.cleared == 0 && s.pushed == [] && s.replays == []
  }

  // ------------------------------------------------------------------ helpers

  function Go(s: State, pc: Pc): (r: State)
    requires s.section.Held?
  {
    s.(section := s.section.(pc := pc))
  }

  /** `g` becomes inactive; `seal`: its connection is also marked closed. */
  function Deactivate(s: State, g: nat, seal: bool): (r: State)
    requires g < |s.gens|
  {
    s.(gens := s.gens[g := s.gens[g].(inactive := true, connectionClosed := s.gens[g].connectionClosed || seal)])
  }

  function IdOf(events: seq<Entry>, k: nat): (id: string) {
    if k < |events| then events[k].id else ""
  }

  function TimeOf(events: seq<Entry>, k: nat): (t: int) {
    if k < |events| then events[k].storedAt else 0
  }

  function IdsOf(events: seq<Entry>): nat -> string {
    (k: nat) => IdOf(events, k)
  }

  function TimesOf(events: seq<Entry>): nat -> int {
    (k: nat) => TimeOf(events, k)
  }

  /** What `EventsSince` reads of the log. */
  function Tail(events: seq<Entry>, log: seq<nat>, cursor: string): (tail: seq<nat>) {
    Since(log, IdsOf(events), cursor)
  }

  predicate Expired(events: seq<Entry>, k: nat, before: int) {
    TimeOf(events, k) < before
  }

  /** What `PurgeExpired` leaves of the log. */
  function Fresh(events: seq<Entry>, log: seq<nat>, before: int): (r: seq<nat>) {
    Unexpired(log, TimesOf(events), before)
  }

  function LastReplay(s: State): (r: Replay)
    requires s.replays != []
  {
    s.replays[|s.replays| - 1]
  }

  function SetReplay(s: State, r: Replay): (s': State)
    requires s.replays != []
  {
    s.(replays := s.replays[|s.replays| - 1 := r])
  }

  // ------------------------------------------------------- inside the lock


  /** `RegisterContext`. The subscription changes it makes are `Subscriptions` actions. */
  ghost predicate RegisterStep(s: State, s': State)
    requires s.section.Held?
  {
    match s.section.pc
    case Start =>
      && s.section.task.Registering?
      && s' == if s.closed then Go(s, Done)
               else Go(s, if s.current.Some? then MarkOld(|s.gens|, s.current.value) else Install(|s.gens|))
                    .(gens := s.gens + [Gen(s.section.task.connection, false, false, 0, false)])
    case MarkOld(target, former) =>
      former < |s.gens| && s' == Go(Deactivate(s, former, false), SealOld(target, former))
    case SealOld(target, former) =>
      && former < |s.gens| && target < |s.gens|
      && s' == Go(Deactivate(s, former, s.gens[former].connection != s.gens[target].connection), Install(target))
    case Install(target) =>
      && s.section.task.Registering? && target < |s.gens|
      && s' == if s.closed then Go(s, RetireFlag(target))
               else Go(s, if s.section.task.replay.Some? then ReplayCheck(s.section.task.replay.value) else Done)
                    .(current := Some(target), gens := s.gens[target := s.gens[target].(installed := true)])
    case _ => false
  }

  /** `replayMissedEventsLocked`. `ok`: the context is good, the send queue takes the event. */
  ghost predicate ReplayStep(s: State, s': State, ok: bool)
    requires s.section.Held?
  {
    match s.section.pc
    case Start => s.section.task.Replaying? && s' == Go(s, ReplayCheck(s.section.task.cursor))
    case ReplayCheck(cursor) =>
      && (s.current.Some? ==> s.current.value < |s.gens|)
      && s' == Go(s, if !ok || s.current.None? || s.gens[s.current.value].inactive then Done else Bump(cursor, s.current.value))
    case Bump(cursor, target) =>
      && target < |s.gens|
      && var generation := s.gens[target].replayGeneration + 1;
         s' == Go(s, Aim(cursor, target, generation)).(gens := s.gens[target := s.gens[target].(replayGeneration := generation)])
    case Aim(cursor, target, generation) => s' == Go(s, Read(cursor, target, generation, s.now - s.retention))
    case Read(cursor, target, generation, cutoff) => ReadStep(s, s', cursor, target, generation, cutoff)
    case Loop => LoopStep(s, s')
    case LoopPush => LoopPushStep(s, s', ok)
    case _ => false
  }

  ghost predicate ReadStep(s: State, s': State, cursor: string, target: nat, generation: nat, cutoff: int)
    requires s.section.Held?
  {
    var r := Replay(target, generation, cursor, cutoff, s.now, s.log, Tail(s.events, s.log, cursor), |s.events|, s.cleared,
                    |s.pushed|, 0, [], {}, Whole);
    s' == Go(s, Loop).(replays := s.replays + [r])
  }

  ghost predicate LoopStep(s: State, s': State)
    requires s.section.Held?
  {
    && s.replays != []
    && var r := LastReplay(s);
       if r.done >= |r.tail| then s' == Go(s, Done)
       else
         && r.target < |s.gens| && r.tail[r.done] < |s.events|
         && var k := r.tail[r.done];
            s' == if s.gens[r.target].inactive then Go(SetReplay(s, r.(cut := TargetInactive)), Done)
                  else if Expired(s.events, k, r.cutoff) then SetReplay(s, r.(done := r.done + 1))
                  else if s.events[k].name !in s.subscribed then SetReplay(s, r.(done := r.done + 1, skipped := r.skipped + {k}))
                  else Go(s, LoopPush)
  }

  ghost predicate LoopPushStep(s: State, s': State, ok: bool)
    requires s.section.Held?
  {
    && s.replays != [] && LastReplay(s).done < |LastReplay(s).tail|
    && var r := LastReplay(s);
       var k := r.tail[r.done];
       s' == if ok then Go(SetReplay(s, r.(done := r.done + 1, mine := r.mine + [k])), Loop)
                        .(pushed := s.pushed + [Push(r.target, r.generation, k)])
             else Go(SetReplay(s, r.(cut := NotQueued)), Done)
  }

  /** The part of `handle` inside the lock. */
  ghost predicate HandleStep(s: State, s': State, ok: bool)
    requires s.section.Held?
  {
    match s.section.pc
    case Start =>
      s.section.task.Handling? && s' == Go(s, if s.section.task.name in s.subscribed then ReadTarget else Done)
    case ReadTarget => s' == Go(s, if s.current.Some? then StopCheck(s.current.value) else Done)
    case StopCheck(target) =>
      && target < |s.gens|
      && s' == Go(s, if s.stopped then Done else StoreEvent(target, s.gens[target].replayGeneration, s.now))
    case StoreEvent(target, generation, at) =>
      && s.section.task.Handling?
      && var e := Entry(s.section.task.id, s.section.task.name, at);
         s' == Go(s, ActiveCheck(target, generation, |s.events|))
               .(events := s.events + [e], log := if e.id != "" then s.log + [|s.events|] else s.log)
    case ActiveCheck(target, generation, entry) =>
      target < |s.gens| && s' == Go(s, if s.gens[target].inactive then Done else PushEvent(target, generation, entry))
    case PushEvent(target, generation, entry) =>
      s' == if ok then Go(s, Done).(pushed := s.pushed + [Push(target, generation, entry)]) else Go(s, Done)
    case _ => false
  }

  /** `Disconnect` and `unregister`. `ok`: the client is stale enough to be removed. */
  ghost predicate RemoveStep(s: State, s': State, ok: bool)
    requires s.section.Held?
  {
    match s.section.pc
    case Start =>
      if s.section.task.Disconnecting? then
        s' == Go(s, if s.current == Some(s.section.task.target) then RetireFlag(s.section.task.target) else Done)
      else
        && s.section.task.Unregistering?
        && var expected := s.section.task.expected;
           s' == if s.current.None? || (expected.Some? && s.current != expected) || (expected.None? && !ok) then Go(s, Done)
                 else Go(s, DropSubscriptions(s.current.value)).(current := None)
    case DropSubscriptions(g) => s' == Go(s, DropLog(g)).(subscribed := {})
    case DropLog(g) => s' == Go(s, RetireFlag(g)).(log := [], cleared := |s.events|)
    case RetireFlag(g) => g < |s.gens| && s' == Go(Deactivate(s, g, false), RetireSeal(g))
    case RetireSeal(g) => g < |s.gens| && s' == Go(Deactivate(s, g, true), Done)
    case _ => false
  }

  ghost predicate InsideStep(s: State, s': State, ok: bool) {
    && s.section.Held?
    && (|| RegisterStep(s, s') || ReplayStep(s, s', ok) || HandleStep(s, s', ok) || RemoveStep(s, s', ok)
        || (s.section.pc.Done? && s' == s.(section := Free)))
  }

  // ------------------------------------------------------ outside the lock

  ghost predicate ShutdownStep(s: State, s': State) {
    if !s.closed then s' == s.(closed := true)
    else if !s.stopped then s' == s.(stopped := true)
    else
      match s.shutdown
      case Pending => s' == s.(shutdown := Copied(s.current))
      case Copied(None) => s' == s.(shutdown := Finished)
      case Copied(Some(g)) => g < |s.gens| && s' == Deactivate(s, g, false).(shutdown := Sealing(g))
      case Sealing(g) => g < |s.gens| && s' == Deactivate(s, g, true).(shutdown := Finished)
      case Finished => false
  }

  /** Attempts exhausted: the flag is set by compare-and-swap; success starts a removal on behalf of `g`. */
  ghost predicate ExhaustStep(s: State, s': State, g: nat) {
    && g < |s.gens| && s.gens[g].installed
    && s' == if s.gens[g].inactive then s
             else Deactivate(s, g, false).(waiting := s.waiting + multiset{Unregistering(Some(g))})
  }

  ghost predicate OutsideStep(s: State, s': State, action: Action) {
    match action
    case Enter(task) => s.section.Free? && task in s.waiting && s' == s.(section := Held(task, Start),
                            waiting := s.waiting - multiset{task})
    case GiveUp(task) => s' == s.(waiting := s.waiting - multiset{task})
    case Request(task) =>
      !task.Disconnecting? && (task.Unregistering? ==> task.expected.None?) && s' == s.(waiting := s.waiting + multiset{task})
    case AskDisconnect(connection) =>
      && s.current.Some? && s.current.value < |s.gens| && s.gens[s.current.value].connection == connection
      && s' == s.(waiting := s.waiting + multiset{Disconnecting(s.current.value)})
    case Exhaust(g) => ExhaustStep(s, s', g)
    case SendEnds(g) => g < |s.gens| && s.gens[g].installed && s' == Deactivate(s, g, true)
    case Purge(before) => before <= s.now - s.retention && s' == s.(log := Fresh(s.events, s.log, before))
    case Subscriptions(names) => s' == s.(subscribed := names)
    case Tick(time) => s.now <= time && s' == s.(now := time)
    case ShutDown => ShutdownStep(s, s')
    case Inside(_) => false
  }

  ghost predicate Next(s: State, s': State, action: Action) {
    if action.Inside? then InsideStep(s, s', action.ok) else OutsideStep(s, s', action)
  }

  ghost predicate Follows(s: State, s': State) {
    exists action :: Next(s, s', action)
  }

  ghost predicate StepAt(run: seq<State>, i: nat)
    requires i + 1 < |run|
  {
    Follows(run[i], run[i + 1])
  }

  ghost predicate IsRun(run: seq<State>) {
    run != [] && Init(run[0]) && forall i :: 0 <= i < |run| - 1 ==> StepAt(run, i)
  }
}
