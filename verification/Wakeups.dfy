/**
  The two one-slot notification channels of the send queue, `itemReady` and
  `spaceReady`, with any number of producers and consumers. A step is one
  critical section of the queue, or one case of a `select`.
*/
module Wakeups {

  /** `Checking`: about to look at the queue; `woken` when a token made it look again. */
  datatype Pc = Checking(woken: bool) | Waiting

  datatype State = State(
    capacity: nat,
    size: nat,
    closed: bool,
    itemReady: bool,
    spaceReady: bool,
    producers: map<nat, Pc>,
    consumers: map<nat, Pc>)

  datatype Step =
    | BeginPush(t: nat)
    | TryPush(t: nat)
    | TakeSpace(t: nat)
    | GiveUp(t: nat)
    | BeginPop(t: nat)
    | TryPop(t: nat)
    | TakeItem(t: nat)
    | SeeClosed(t: nat)
    | Remove(left: nat)
    | Close

  ghost predicate Init(s: State) {
    s.capacity >= 1 && s == State(s.capacity, 0, false, false, false, map[], map[])
  }

  ghost predicate IsProducer(s: State, t: nat, pc: Pc) {
    t in s.producers && s.producers[t] == pc
  }

  ghost predicate IsConsumer(s: State, t: nat, pc: Pc) {
    t in s.consumers && s.consumers[t] == pc
  }

  /** The critical section of `push`. A notification may stand for several free slots, so it is passed on. */
  ghost predicate TryPushStep(s: State, s': State, t: nat) {
    && t in s.producers && s.producers[t].Checking?
    && s' == if s.closed then s.(producers := s.producers - {t})
             else if s.size < s.capacity then
               s.(producers := s.producers - {t}, size := s.size + 1, itemReady := true,
                  spaceReady := s.spaceReady || s.size + 1 < s.capacity)
             else s.(producers := s.producers[t := Waiting])
  }

  /** The critical section of `pop`. */
  ghost predicate TryPopStep(s: State, s': State, t: nat) {
    && t in s.consumers && s.consumers[t].Checking?
    && s' == if s.closed then s.(consumers := s.consumers - {t})
             else if s.size > 0 then
               s.(consumers := s.consumers - {t}, size := s.size - 1, spaceReady := true,
                  itemReady := s.itemReady || s.size > 1)
             else s.(consumers := s.consumers[t := Waiting])
  }

  ghost predicate Next(s: State, s': State, step: Step) {
    match step
    case BeginPush(t) => t !in s.producers && s' == s.(producers := s.producers[t := Checking(false)])
    case TryPush(t) => TryPushStep(s, s', t)
    case TakeSpace(t) =>
      IsProducer(s, t, Waiting) && s.spaceReady
      && s' == s.(spaceReady := false, producers := s.producers[t := Checking(true)])
    // The context is canceled, at the check before the critical section or while waiting.
    case GiveUp(t) => t in s.producers && s' == s.(producers := s.producers - {t})
    case BeginPop(t) => t !in s.consumers && s' == s.(consumers := s.consumers[t := Checking(false)])
    case TryPop(t) => TryPopStep(s, s', t)
    case TakeItem(t) =>
      IsConsumer(s, t, Waiting) && s.itemReady
      && s' == s.(itemReady := false, consumers := s.consumers[t := Checking(true)])
    case SeeClosed(t) =>
      && s.closed
      && ((IsProducer(s, t, Waiting) && s' == s.(producers := s.producers - {t}))
          || (IsConsumer(s, t, Waiting) && s' == s.(consumers := s.consumers - {t})))
    // `remove` and `drain`.
    case Remove(left) => left <= s.size && s' == s.(size := left, spaceReady := true)
    case Close => s' == s.(closed := true)
  }

  // ---------------------------------------------------------------- invariants

  ghost predicate WokenConsumer(s: State) {
    exists t :: IsConsumer(s, t, Checking(true))
  }

  ghost predicate WokenProducer(s: State) {
    exists t :: IsProducer(s, t, Checking(true))
  }

  ghost predicate WaitingProducer(s: State) {
    exists t :: IsProducer(s, t, Waiting)
  }

  /** An event in the queue has been announced, and the announcement is not lost. */
  ghost predicate ItemsAnnounced(s: State) {
    !s.closed && s.size > 0 ==> s.itemReady || WokenConsumer(s)
  }

  /** So has been a free slot to those who wait for one. */
  ghost predicate SpaceAnnounced(s: State) {
    !s.closed && s.size < s.capacity && WaitingProducer(s) ==> s.spaceReady || WokenProducer(s)
  }

  lemma StepKeepsItems(s: State, s': State, step: Step)
    requires ItemsAnnounced(s) && Next(s, s', step)
    ensures ItemsAnnounced(s')
  {
    if !s'.closed && s'.size > 0 && !s'.itemReady && s.size > 0 {
      if step.TakeItem? {
        assert IsConsumer(s', step.t, Checking(true));
      } else if !step.TryPop? && !step.TryPush? {
        var t :| IsConsumer(s, t, Checking(true));
        assert IsConsumer(s', t, Checking(true));
      } else {
        StepKeepsWokenConsumer(s, s', step);
      }
    }
  }

  lemma StepKeepsWokenConsumer(s: State, s': State, step: Step)
    requires WokenConsumer(s) && Next(s, s', step) && (step.TryPop? || step.TryPush?)
    requires !s'.closed && s.size > 0 && s'.size > 0 && !s'.itemReady
    ensures WokenConsumer(s')
  {
    var t :| IsConsumer(s, t, Checking(true));
    assert IsConsumer(s', t, Checking(true));
  }

  /** A token is lost: its taker gives up before looking again, others wait, there is room, and nobody else was told. */
  ghost predicate Loses(s: State, step: Step) {
    && step.GiveUp? && IsProducer(s, step.t, Checking(true)) && !s.closed && !s.spaceReady && s.size < s.capacity
    && WaitingProducer(s)
    && forall t :: IsProducer(s, t, Checking(true)) ==> t == step.t
  }

  /** Exactly that breaks the announcement of free slots; every other step keeps it. */
  lemma SpaceLostExactly(s: State, s': State, step: Step)
    requires SpaceAnnounced(s) && Next(s, s', step)
    ensures SpaceAnnounced(s') <==> !Loses(s, step)
  {
    if Loses(s, step) {
      LosingBreaks(s, s', step);
    } else {
      OthersKeepSpace(s, s', step);
    }
  }

  lemma LosingBreaks(s: State, s': State, step: Step)
    requires Next(s, s', step) && Loses(s, step)
    ensures !SpaceAnnounced(s')
  {
    var t :| IsProducer(s, t, Waiting);
    assert IsProducer(s', t, Waiting);
    forall u
      ensures !IsProducer(s', u, Checking(true))
    {
      if IsProducer(s', u, Checking(true)) {
        assert IsProducer(s, u, Checking(true));
      }
    }
  }

  lemma OthersKeepSpace(s: State, s': State, step: Step)
    requires SpaceAnnounced(s) && Next(s, s', step) && !Loses(s, step)
    ensures SpaceAnnounced(s')
  {
    if !s'.closed && s'.size < s'.capacity && !s'.spaceReady && WaitingProducer(s') {
      if step.TakeSpace? {
        assert IsProducer(s', step.t, Checking(true));
      } else {
        assert s.size < s.capacity;
        var t :| IsProducer(s', t, Waiting);
        assert IsProducer(s, t, Waiting);
        var u :| IsProducer(s, u, Checking(true)) && !(step.GiveUp? && step.t == u);
        assert IsProducer(s', u, Checking(true));
      }
    }
  }

  // ------------------------------------------------------------- over all runs

  ghost predicate StepAt(run: seq<State>, steps: seq<Step>, i: nat)
    requires i + 1 < |run| && i < |steps|
  {
    Next(run[i], run[i + 1], steps[i])
  }

  ghost predicate IsRun(run: seq<State>, steps: seq<Step>) {
    |run| == |steps| + 1 && Init(run[0]) && forall i :: 0 <= i < |steps| ==> StepAt(run, steps, i)
  }

  /**
    In every reachable open state with a non-empty queue, a token is there or a
    consumer who took it will look again.
  */
  lemma {:induction false} NoLostItem(run: seq<State>, steps: seq<Step>, n: nat)
    requires IsRun(run, steps) && n < |run|
    ensures ItemsAnnounced(run[n])
  {
    if n > 0 {
      NoLostItem(run, steps, n - 1);
      assert StepAt(run, steps, n - 1);
      StepKeepsItems(run[n - 1], run[n], steps[n - 1]);
    }
  }

  /** The same for free slots and waiting producers, unless on the way a token was lost. */
  lemma {:induction false} NoLostSpace(run: seq<State>, steps: seq<Step>, n: nat)
    requires IsRun(run, steps) && n < |run|
    requires forall i :: 0 <= i < n ==> !Loses(run[i], steps[i])
    ensures SpaceAnnounced(run[n])
  {
    if n > 0 {
      NoLostSpace(run, steps, n - 1);
      assert StepAt(run, steps, n - 1);
      SpaceLostExactly(run[n - 1], run[n], steps[n - 1]);
    }
  }

  /** The first loss in a run is the first state in which a free slot is not announced. */
  lemma FirstLoss(run: seq<State>, steps: seq<Step>, n: nat)
    requires IsRun(run, steps) && n < |steps| && Loses(run[n], steps[n])
    requires forall i :: 0 <= i < n ==> !Loses(run[i], steps[i])
    ensures SpaceAnnounced(run[n]) && !SpaceAnnounced(run[n + 1])
  {
    NoLostSpace(run, steps, n);
    assert StepAt(run, steps, n);
    SpaceLostExactly(run[n], run[n + 1], steps[n]);
  }

  /** Whatever is put in or taken out announces the slots that are free then. */
  ghost predicate Changes(s: State, step: Step) {
    || step.Remove?
    || (step.TryPop? && !s.closed && s.size > 0)
    || (step.TryPush? && !s.closed && s.size < s.capacity)
  }

  lemma ChangesRepair(s: State, s': State, step: Step)
    requires Next(s, s', step) && Changes(s, step)
    ensures SpaceAnnounced(s')
  {}

  /** Nothing else does while the queue is open and somebody waits for the free slot, except a waiter that gives up. */
  lemma OnlyChangesRepair(s: State, s': State, step: Step)
    requires !SpaceAnnounced(s) && Next(s, s', step) && !Changes(s, step)
    ensures SpaceAnnounced(s') ==> s'.closed || !WaitingProducer(s')
  {
    if WokenProducer(s') && !WokenProducer(s) {
      var t :| IsProducer(s', t, Checking(true));
      assert !IsProducer(s, t, Checking(true));
    }
  }

  /** A run and its steps, one step longer. */
  lemma Extended(run: seq<State>, steps: seq<Step>, s': State, step: Step)
    requires IsRun(run, steps) && Next(run[|steps|], s', step)
    ensures IsRun(run + [s'], steps + [step])
  {
    var longer, more := run + [s'], steps + [step];
    forall i | 0 <= i < |more|
      ensures StepAt(longer, more, i)
    {
      if i < |steps| {
        assert StepAt(run, steps, i);
      }
    }
  }

  /** A queue of one slot is full, and producers 2 and 3 wait. */
  lemma TwoWait() returns (run: seq<State>, steps: seq<Step>)
    ensures IsRun(run, steps)
    ensures run[|steps|] == State(1, 1, false, true, false, map[2 := Waiting, 3 := Waiting], map[])
  {
    var s := State(1, 0, false, false, false, map[], map[]);
    run, steps := [s], [];
    run, steps := Taken(run, steps, s.(producers := map[1 := Checking(false)]), BeginPush(1));
    s := s.(size := 1, itemReady := true);
    run, steps := Taken(run, steps, s, TryPush(1));
    run, steps := Taken(run, steps, s.(producers := map[2 := Checking(false)]), BeginPush(2));
    run, steps := Taken(run, steps, s.(producers := map[2 := Waiting]), TryPush(2));
    run, steps := Taken(run, steps, s.(producers := map[2 := Waiting, 3 := Checking(false)]), BeginPush(3));
    run, steps := Taken(run, steps, s.(producers := map[2 := Waiting, 3 := Waiting]), TryPush(3));
  }

  lemma Taken(run: seq<State>, steps: seq<Step>, s': State, step: Step) returns (run': seq<State>, steps': seq<Step>)
    requires IsRun(run, steps) && Next(run[|steps|], s', step)
    ensures IsRun(run', steps') && run'[|steps'|] == s'
  {
    Extended(run, steps, s', step);
    run', steps' := run + [s'], steps + [step];
  }

  /**
    A token can indeed be lost: a queue of one slot is full, producers 2 and 3
    wait, a consumer takes the event out, producer 2 takes the token and is
    canceled before it looks again. Producer 3 goes on waiting at an empty queue.
  */
  lemma SpaceCanBeLost() returns (run: seq<State>, steps: seq<Step>)
    ensures IsRun(run, steps)
    ensures var s := run[|run| - 1];
      s.size == 0 && s.capacity == 1 && !s.closed && !s.spaceReady && s.producers == map[3 := Waiting]
      && s.consumers == map[]
  {
    run, steps := TwoWait();
    var s := run[|steps|];
    run, steps := Taken(run, steps, s.(consumers := map[1 := Checking(false)]), BeginPop(1));
    s := s.(size := 0, spaceReady := true);
    run, steps := Taken(run, steps, s, TryPop(1));
    s := s.(spaceReady := false, producers := map[2 := Checking(true), 3 := Waiting]);
    run, steps := Taken(run, steps, s, TakeSpace(2));
    run, steps := Taken(run, steps, s.(producers := map[3 := Waiting]), GiveUp(2));
  }
}
