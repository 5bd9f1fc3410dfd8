/**
  One client generation under its mutex: `send`, `heartbeat`, `retire`,
  `replaceWith` and the exhaustion flag, run by any number of goroutines. A
  step is an atomic store, a critical section of `client.mu`, or the start or
  end of a call on the connection.
*/
module Generation {
  import opened Options

  datatype Outcome = Delivered | Failed | ConnectionClosed

  /** Where a goroutine is. `app`: an application send, not a heartbeat. `closes`: it may close the connection. */
  datatype Place =
    | WantsSend(app: bool)
    | InSend(app: bool)
    | WantsRetire(closes: bool)
    | MustClose(retiring: bool)
    | InClose(retiring: bool)

  /** What can be observed at the connection, and the call and the return of `retire` or `replaceWith`. */
  datatype Event =
    | SendStart(t: nat)
    | SendEnd(t: nat, app: bool, outcome: Outcome)
    | RetireStart(t: nat)
    | CloseStart(t: nat)
    | CloseEnd(t: nat)
    | Retired(t: nat)

  datatype State = State(
    completeAfterMessage: bool,
    inactive: bool,
    connectionClosed: bool,
    mu: Option<nat>,
    threads: map<nat, Place>,
    removals: nat,
    trace: seq<Event>)

  ghost predicate Init(s: State) {
    && !s.inactive && !s.connectionClosed && s.mu.None? && s.threads == map[] && s.removals == 0 && s.trace == []
  }

  // -------------------------------------------------------------------- steps

  ghost predicate At(s: State, t: nat, p: Place) {
    t in s.threads && s.threads[t] == p
  }

  function Go(s: State, t: nat, p: Place): (r: State) {
    s.(threads := s.threads[t := p])
  }

  function Leave(s: State, t: nat): (r: State) {
    s.(threads := s.threads - {t})
  }

  function Log(s: State, e: Event): (r: State) {
    s.(trace := s.trace + [e])
  }

  ghost predicate StartSend(s: State, s': State, t: nat, app: bool) {
    t !in s.threads && s' == Go(s, t, WantsSend(app))
  }

  /** `mu` is free: an inactive generation refuses, an active one calls `Connection.Send` under the lock. */
  ghost predicate EnterSend(s: State, s': State, t: nat, app: bool) {
    && At(s, t, WantsSend(app)) && s.mu.None?
    && s' == if s.inactive then Leave(s, t) else Log(Go(s, t, InSend(app)), SendStart(t)).(mu := Some(t))
  }

  ghost predicate EndSend(s: State, s': State, t: nat, app: bool, outcome: Outcome) {
    && At(s, t, InSend(app))
    && var done := Log(s, SendEnd(t, app, outcome)).(mu := None);
       if app && ((outcome.Delivered? && s.completeAfterMessage) || outcome.ConnectionClosed?) then
         s' == if s.connectionClosed then Leave(done, t).(inactive := true)
               else Go(done, t, MustClose(false)).(inactive := true, connectionClosed := true)
       else s' == Leave(done, t)
  }

  /** `retire`, or `replaceWith` (which closes unless the replacement has the same connection): the flag first. */
  ghost predicate BeginRetire(s: State, s': State, t: nat, closes: bool) {
    t !in s.threads && s' == Log(Go(s, t, WantsRetire(closes)), RetireStart(t)).(inactive := true)
  }

  ghost predicate RetireSection(s: State, s': State, t: nat, closes: bool) {
    && At(s, t, WantsRetire(closes)) && s.mu.None?
    && s' == if closes && !s.connectionClosed then Go(s, t, MustClose(true)).(connectionClosed := true)
             else Log(Leave(s, t), Retired(t))
  }

  ghost predicate BeginClose(s: State, s': State, t: nat, retiring: bool) {
    At(s, t, MustClose(retiring)) && s' == Log(Go(s, t, InClose(retiring)), CloseStart(t))
  }

  ghost predicate EndClose(s: State, s': State, t: nat, retiring: bool) {
    && At(s, t, InClose(retiring))
    && var done := Log(Leave(s, t), CloseEnd(t));
       s' == if retiring then Log(done, Retired(t)) else done
  }

  /** Attempts exhausted: compare-and-swap on the flag; success starts one removal. */
  ghost predicate Exhaust(s: State, s': State) {
    s' == if s.inactive then s else s.(inactive := true, removals := s.removals + 1)
  }

  ghost predicate StepOf(s: State, s': State, t: nat, flag: bool, outcome: Outcome) {
    || StartSend(s, s', t, flag) || EnterSend(s, s', t, flag) || EndSend(s, s', t, flag, outcome)
    || BeginRetire(s, s', t, flag) || RetireSection(s, s', t, flag)
    || BeginClose(s, s', t, flag) || EndClose(s, s', t, flag) || Exhaust(s, s')
  }

  ghost predicate Next(s: State, s': State) {
    exists t, flag, outcome :: StepOf(s, s', t, flag, outcome)
  }

  // ----------------------------------------------------- reading the trace

  ghost function Flying(before: set<nat>, e: Event): (r: set<nat>) {
    match e
    case SendStart(t) => before + {t}
    case SendEnd(t, _, _) => before - {t}
    case _ => before
  }

  /** The goroutines whose `Connection.Send` has started and not ended. */
  ghost function InFlight(trace: seq<Event>): (r: set<nat>) {
    if trace == [] then {} else Flying(InFlight(trace[..|trace| - 1]), trace[|trace| - 1])
  }

  ghost predicate Seals(e: Event) {
    e.CloseStart? || e.Retired?
  }

  ghost predicate Sealed(trace: seq<Event>) {
    exists i :: 0 <= i < |trace| && Seals(trace[i])
  }

  ghost function Closes(trace: seq<Event>): (n: nat) {
    if trace == [] then 0 else Closes(trace[..|trace| - 1]) + if trace[|trace| - 1].CloseStart? then 1 else 0
  }

  ghost predicate IsDelivery(e: Event) {
    e.SendEnd? && e.app && e.outcome.Delivered?
  }

  ghost function Deliveries(trace: seq<Event>): (n: nat) {
    if trace == [] then 0 else Deliveries(trace[..|trace| - 1]) + if IsDelivery(trace[|trace| - 1]) then 1 else 0
  }

  /** Once the connection is being closed, or a retiring call has returned, no send is running or will start. */
  ghost predicate QuietAfterSeal(trace: seq<Event>) {
    && (forall i, j :: 0 <= i < j < |trace| && Seals(trace[i]) ==> !trace[j].SendStart?)
    && (forall i :: 0 <= i < |trace| && Seals(trace[i]) ==> InFlight(trace[..i]) == {})
  }

  lemma AppendReads(trace: seq<Event>, e: Event)
    ensures InFlight(trace + [e]) == Flying(InFlight(trace), e)
    ensures Closes(trace + [e]) == Closes(trace) + if e.CloseStart? then 1 else 0
    ensures Deliveries(trace + [e]) == Deliveries(trace) + if IsDelivery(e) then 1 else 0
    ensures Sealed(trace + [e]) <==> Sealed(trace) || Seals(e)
  {
    var longer := trace + [e];
    assert longer[..|longer| - 1] == trace;
    if Sealed(trace) {
      var i :| 0 <= i < |trace| && Seals(trace[i]);
      assert Seals(longer[i]);
    }
    assert Seals(e) ==> Seals(longer[|trace|]);
  }

  lemma AppendQuiet(trace: seq<Event>, e: Event)
    requires QuietAfterSeal(trace)
    requires e.SendStart? ==> !Sealed(trace)
    requires Seals(e) ==> InFlight(trace) == {}
    ensures QuietAfterSeal(trace + [e])
  {
    var longer := trace + [e];
    forall i | 0 <= i < |longer| && Seals(longer[i])
      ensures InFlight(longer[..i]) == {}
    {
      if i < |trace| {
        assert longer[..i] == trace[..i];
      } else {
        assert longer[..i] == trace;
      }
    }
  }

  // ---------------------------------------------------------------- invariant

  ghost predicate LockInv(s: State) {
    && (forall t :: t in s.threads && s.threads[t].InSend? ==> s.mu == Some(t))
    && (s.mu.Some? ==> s.mu.value in s.threads && s.threads[s.mu.value].InSend?)
    && InFlight(s.trace) == (if s.mu.Some? then {s.mu.value} else {})
  }

  ghost predicate FlagInv(s: State) {
    && (s.connectionClosed ==> s.inactive && s.mu.None?)
    && (Sealed(s.trace) ==> s.inactive && s.mu.None?)
    && (forall t :: t in s.threads && s.threads[t].WantsRetire? ==> s.inactive)
    && (forall t :: t in s.threads && (s.threads[t].MustClose? || s.threads[t].InClose?) ==> s.connectionClosed)
    && (s.removals > 0 ==> s.inactive) && s.removals <= 1
  }

  ghost predicate CloseInv(s: State) {
    && (!s.connectionClosed ==> Closes(s.trace) == 0)
    && Closes(s.trace) <= 1
    && (forall t :: t in s.threads && s.threads[t].MustClose? ==> Closes(s.trace) == 0)
    && (forall t, t' :: t in s.threads && t' in s.threads && s.threads[t].MustClose? && s.threads[t'].MustClose? ==>
          t == t')
  }

  ghost predicate DeliveryInv(s: State) {
    s.completeAfterMessage ==> Deliveries(s.trace) <= 1 && (Deliveries(s.trace) == 1 ==> s.inactive && s.mu.None?)
  }

  ghost predicate Inv(s: State) {
    LockInv(s) && FlagInv(s) && CloseInv(s) && DeliveryInv(s) && QuietAfterSeal(s.trace)
  }

  lemma EnterSendKeepsInv(s: State, s': State, t: nat, app: bool)
    requires Inv(s) && EnterSend(s, s', t, app)
    ensures Inv(s')
  {
    if !s.inactive {
      AppendReads(s.trace, SendStart(t));
      AppendQuiet(s.trace, SendStart(t));
    }
  }

  lemma EndSendKeepsInv(s: State, s': State, t: nat, app: bool, outcome: Outcome)
    requires Inv(s) && EndSend(s, s', t, app, outcome)
    ensures Inv(s')
  {
    AppendReads(s.trace, SendEnd(t, app, outcome));
    AppendQuiet(s.trace, SendEnd(t, app, outcome));
  }

  lemma BeginRetireKeepsInv(s: State, s': State, t: nat, closes: bool)
    requires Inv(s) && BeginRetire(s, s', t, closes)
    ensures Inv(s')
  {
    AppendReads(s.trace, RetireStart(t));
    AppendQuiet(s.trace, RetireStart(t));
  }

  lemma RetireClosesKeepsInv(s: State, s': State, t: nat)
    requires Inv(s) && At(s, t, WantsRetire(true)) && s.mu.None? && !s.connectionClosed
    requires s' == Go(s, t, MustClose(true)).(connectionClosed := true)
    ensures Inv(s')
  {}

  lemma RetireReturnsKeepsInv(s: State, s': State, t: nat, closes: bool)
    requires Inv(s) && At(s, t, WantsRetire(closes)) && s.mu.None? && s' == Log(Leave(s, t), Retired(t))
    ensures Inv(s')
  {
    AppendReads(s.trace, Retired(t));
    AppendQuiet(s.trace, Retired(t));
  }

  lemma RetireSectionKeepsInv(s: State, s': State, t: nat, closes: bool)
    requires Inv(s) && RetireSection(s, s', t, closes)
    ensures Inv(s')
  {
    if closes && !s.connectionClosed {
      RetireClosesKeepsInv(s, s', t);
    } else {
      RetireReturnsKeepsInv(s, s', t, closes);
    }
  }

  lemma BeginCloseKeepsInv(s: State, s': State, t: nat, retiring: bool)
    requires Inv(s) && BeginClose(s, s', t, retiring)
    ensures Inv(s')
  {
    AppendReads(s.trace, CloseStart(t));
    AppendQuiet(s.trace, CloseStart(t));
  }

  lemma EndCloseKeepsInv(s: State, s': State, t: nat, retiring: bool)
    requires Inv(s) && EndClose(s, s', t, retiring)
    ensures Inv(s')
  {
    AppendReads(s.trace, CloseEnd(t));
    AppendQuiet(s.trace, CloseEnd(t));
    if retiring {
      AppendReads(s.trace + [CloseEnd(t)], Retired(t));
      AppendQuiet(s.trace + [CloseEnd(t)], Retired(t));
    }
  }

  lemma StartSendKeepsInv(s: State, s': State, t: nat, app: bool)
    requires Inv(s) && StartSend(s, s', t, app)
    ensures Inv(s')
  {}

  lemma ExhaustKeepsInv(s: State, s': State)
    requires Inv(s) && Exhaust(s, s')
    ensures Inv(s')
  {}

  lemma StepKeepsInv(s: State, s': State, t: nat, flag: bool, outcome: Outcome)
    requires Inv(s) && StepOf(s, s', t, flag, outcome)
    ensures Inv(s')
  {
    if StartSend(s, s', t, flag) {
      StartSendKeepsInv(s, s', t, flag);
    } else if EnterSend(s, s', t, flag) {
      EnterSendKeepsInv(s, s', t, flag);
    } else if EndSend(s, s', t, flag, outcome) {
      EndSendKeepsInv(s, s', t, flag, outcome);
    } else if BeginRetire(s, s', t, flag) {
      BeginRetireKeepsInv(s, s', t, flag);
    } else if RetireSection(s, s', t, flag) {
      RetireSectionKeepsInv(s, s', t, flag);
    } else if BeginClose(s, s', t, flag) {
      BeginCloseKeepsInv(s, s', t, flag);
    } else if EndClose(s, s', t, flag) {
      EndCloseKeepsInv(s, s', t, flag);
    } else {
      ExhaustKeepsInv(s, s');
    }
  }

  // ------------------------------------------------------------- over all runs

  ghost predicate StepAt(run: seq<State>, i: nat)
    requires i + 1 < |run|
  {
    Next(run[i], run[i + 1])
  }

  ghost predicate IsRun(run: seq<State>) {
    run != [] && Init(run[0]) && forall i :: 0 <= i < |run| - 1 ==> StepAt(run, i)
  }

  lemma {:induction false} RunInv(run: seq<State>, n: nat)
    requires IsRun(run) && n < |run|
    ensures Inv(run[n])
  {
    if n > 0 {
      RunInv(run, n - 1);
      assert StepAt(run, n - 1);
      var t, flag, outcome :| StepOf(run[n - 1], run[n], t, flag, outcome);
      StepKeepsInv(run[n - 1], run[n], t, flag, outcome);
    }
  }

  /**
    No `Send` overlaps or follows the bus's `Close` of the connection, or the
    return of a call that retired the generation.
  */
  lemma NoSendAfterClose(run: seq<State>, n: nat)
    requires IsRun(run) && n < |run|
    ensures QuietAfterSeal(run[n].trace)
  {
    RunInv(run, n);
  }

  /** The bus closes the connection of a generation at most once. */
  lemma ClosedAtMostOnce(run: seq<State>, n: nat)
    requires IsRun(run) && n < |run|
    ensures Closes(run[n].trace) <= 1
  {
    RunInv(run, n);
  }

  /** Sends through one generation never overlap. */
  lemma SendsDoNotOverlap(run: seq<State>, n: nat)
    requires IsRun(run) && n < |run|
    ensures |InFlight(run[n].trace)| <= 1
  {
    RunInv(run, n);
  }

  /** A complete-after-message generation makes at most one successful application send, however many workers try. */
  lemma CompletesOnce(run: seq<State>, n: nat)
    requires IsRun(run) && n < |run| && run[n].completeAfterMessage
    ensures Deliveries(run[n].trace) <= 1
  {
    RunInv(run, n);
  }

  lemma RemovedAtMostOnce(run: seq<State>, n: nat)
    requires IsRun(run) && n < |run|
    ensures run[n].removals <= 1
  {
    RunInv(run, n);
  }

  // ----------------------------------------------------------- what does happen

  /** The trace only grows, flags are only raised, and at most thread `o` moves. */
  ghost predicate Grows(s: State, s': State, o: nat) {
    && s.trace <= s'.trace && s'.completeAfterMessage == s.completeAfterMessage
    && (s.inactive ==> s'.inactive) && (s.connectionClosed ==> s'.connectionClosed)
    && (s'.threads == s.threads || s'.threads == s.threads - {o}
        || (o in s'.threads && s'.threads == s.threads[o := s'.threads[o]]))
  }

  lemma SendGrows(s: State, s': State, o: nat, flag: bool)
    requires StartSend(s, s', o, flag) || EnterSend(s, s', o, flag)
    ensures Grows(s, s', o) && |s'.trace| <= |s.trace| + 1
    ensures |s'.trace| > |s.trace| ==> s'.trace[|s.trace|] == SendStart(o)
    ensures At(s, o, WantsSend(flag)) ==> s.inactive || |s'.trace| > |s.trace|
  {}

  lemma EndSendGrows(s: State, s': State, o: nat, flag: bool, outcome: Outcome)
    requires EndSend(s, s', o, flag, outcome)
    ensures Grows(s, s', o) && s'.trace == s.trace + [SendEnd(o, flag, outcome)]
    ensures Final(s, SendEnd(o, flag, outcome)) ==> s'.inactive && s'.connectionClosed
    ensures s'.connectionClosed && !s.connectionClosed ==> o in s'.threads && s'.threads[o].MustClose?
  {}

  lemma RetireGrows(s: State, s': State, o: nat, flag: bool)
    requires BeginRetire(s, s', o, flag) || RetireSection(s, s', o, flag)
    ensures Grows(s, s', o) && |s'.trace| <= |s.trace| + 1
    ensures |s'.trace| > |s.trace| ==> s'.trace[|s.trace|] == Retired(o) || s'.trace[|s.trace|] == RetireStart(o)
    ensures s'.inactive && !s.inactive ==> |s'.trace| > |s.trace| && s'.trace[|s.trace|] == RetireStart(o)
    ensures s'.connectionClosed && !s.connectionClosed ==> o in s'.threads && s'.threads[o].MustClose?
  {}

  lemma CloseGrows(s: State, s': State, o: nat, flag: bool)
    requires BeginClose(s, s', o, flag) || EndClose(s, s', o, flag)
    ensures Grows(s, s', o)
    ensures forall k :: |s.trace| <= k < |s'.trace| ==> s'.trace[k] in {CloseStart(o), CloseEnd(o), Retired(o)}
    ensures s'.connectionClosed == s.connectionClosed
  {}

  /** What a step other than the end of a send does. */
  lemma StepGrows(s: State, s': State, o: nat, flag: bool, outcome: Outcome)
    requires StepOf(s, s', o, flag, outcome)
    ensures Grows(s, s', o)
    ensures !EndSend(s, s', o, flag, outcome) ==> forall k :: |s.trace| <= k < |s'.trace| ==> !s'.trace[k].SendEnd?
    ensures s'.connectionClosed && !s.connectionClosed ==> o in s'.threads && s'.threads[o].MustClose?
  {
    if StartSend(s, s', o, flag) || EnterSend(s, s', o, flag) {
      SendGrows(s, s', o, flag);
    } else if EndSend(s, s', o, flag, outcome) {
      EndSendGrows(s, s', o, flag, outcome);
    } else if BeginRetire(s, s', o, flag) || RetireSection(s, s', o, flag) {
      RetireGrows(s, s', o, flag);
    } else if BeginClose(s, s', o, flag) || EndClose(s, s', o, flag) {
      CloseGrows(s, s', o, flag);
    }
  }

  /** `t` is still to retire the generation, or its connection is marked closed; the generation is inactive anyway. */
  ghost predicate RetiringOrClosed(s: State, t: nat) {
    s.inactive && (At(s, t, WantsRetire(true)) || s.connectionClosed)
  }

  lemma StepKeepsRetiring(s: State, s': State, o: nat, flag: bool, outcome: Outcome, t: nat)
    requires RetiringOrClosed(s, t) && StepOf(s, s', o, flag, outcome)
    ensures RetiringOrClosed(s', t)
  {}

  /**
    A call of `retire`, or of `replaceWith` with another connection, does not
    return before the connection is marked closed.
  */
  lemma {:induction false} RetireCloses(run: seq<State>, i: nat, j: nat, t: nat)
    requires IsRun(run) && i <= j < |run| && At(run[i], t, WantsRetire(true))
    ensures run[j].inactive && (At(run[j], t, WantsRetire(true)) || run[j].connectionClosed)
  {
    if i == j {
      RunInv(run, i);
    } else {
      var m := j - 1;
      assert run[m + 1] == run[j] && StepAt(run, m);
      RetireCloses(run, i, m, t);
      var o, flag, outcome :| StepOf(run[m], run[j], o, flag, outcome);
      StepKeepsRetiring(run[m], run[j], o, flag, outcome, t);
    }
  }

  /** A connection marked closed has been closed, or somebody is just about to. */
  ghost predicate ClosedInv(s: State) {
    s.connectionClosed ==> Closes(s.trace) == 1 || exists t :: t in s.threads && s.threads[t].MustClose?
  }

  lemma MustCloseStays(s: State, s': State, o: nat)
    requires (exists t :: t in s.threads && s.threads[t].MustClose? && t != o)
    requires s'.threads == s.threads - {o} || (o in s'.threads && s'.threads == s.threads[o := s'.threads[o]])
    ensures exists t :: t in s'.threads && s'.threads[t].MustClose?
  {
    var t :| t in s.threads && s.threads[t].MustClose? && t != o;
    assert t in s'.threads && s'.threads[t].MustClose?;
  }

  lemma MustCloseMoves(s: State, s': State, o: nat, flag: bool, outcome: Outcome)
    requires StepOf(s, s', o, flag, outcome) && o in s.threads && s.threads[o].MustClose? && s'.threads != s.threads
    ensures BeginClose(s, s', o, flag)
  {}

  lemma StepKeepsClosed(s: State, s': State, o: nat, flag: bool, outcome: Outcome)
    requires CloseInv(s) && ClosedInv(s) && StepOf(s, s', o, flag, outcome)
    ensures ClosedInv(s')
  {
    StepGrows(s, s', o, flag, outcome);
    if BeginClose(s, s', o, flag) {
      AppendReads(s.trace, CloseStart(o));
    } else if s.connectionClosed {
      ClosesStays(s, s', o, flag, outcome);
      if Closes(s.trace) != 1 && s'.threads != s.threads {
        if o in s.threads && s.threads[o].MustClose? {
          MustCloseMoves(s, s', o, flag, outcome);
        }
        MustCloseStays(s, s', o);
      }
    }
  }

  lemma ClosesStays(s: State, s': State, o: nat, flag: bool, outcome: Outcome)
    requires StepOf(s, s', o, flag, outcome) && !BeginClose(s, s', o, flag)
    ensures Closes(s'.trace) == Closes(s.trace)
  {
    AppendReads(s.trace, SendStart(o));
    AppendReads(s.trace, SendEnd(o, flag, outcome));
    AppendReads(s.trace, RetireStart(o));
    AppendReads(s.trace, Retired(o));
    AppendReads(s.trace, CloseEnd(o));
    AppendReads(s.trace + [CloseEnd(o)], Retired(o));
  }

  lemma {:induction false} RunClosedInv(run: seq<State>, n: nat)
    requires IsRun(run) && n < |run|
    ensures ClosedInv(run[n])
  {
    if n > 0 {
      var m := n - 1;
      assert run[m + 1] == run[n] && StepAt(run, m);
      RunClosedInv(run, m);
      RunInv(run, m);
      var o, flag, outcome :| StepOf(run[m], run[n], o, flag, outcome);
      StepKeepsClosed(run[m], run[n], o, flag, outcome);
    }
  }

  /** With nobody about to close it, a connection marked closed has been closed by the bus, once. */
  lemma ClosedExactlyOnce(run: seq<State>, n: nat)
    requires IsRun(run) && n < |run| && run[n].connectionClosed
    requires forall t :: t in run[n].threads ==> !run[n].threads[t].MustClose?
    ensures Closes(run[n].trace) == 1
  {
    RunClosedInv(run, n);
  }

  /** An application send that completed the generation, or found its connection closed. */
  ghost predicate Final(s: State, e: Event) {
    e.SendEnd? && e.app && (e.outcome.ConnectionClosed? || (e.outcome.Delivered? && s.completeAfterMessage))
  }

  ghost predicate FinalInv(s: State) {
    forall k :: 0 <= k < |s.trace| && Final(s, s.trace[k]) ==> s.inactive && s.connectionClosed
  }

  lemma StepKeepsFinal(s: State, s': State, o: nat, flag: bool, outcome: Outcome)
    requires FinalInv(s) && StepOf(s, s', o, flag, outcome)
    ensures FinalInv(s')
  {
    StepGrows(s, s', o, flag, outcome);
    if EndSend(s, s', o, flag, outcome) {
      EndSendGrows(s, s', o, flag, outcome);
    }
    forall k | 0 <= k < |s'.trace| && Final(s', s'.trace[k])
      ensures s'.inactive && s'.connectionClosed
    {
      if k < |s.trace| {
        assert s'.trace[k] == s.trace[k];
        assert Final(s, s.trace[k]);
      }
    }
  }

  /** Such a send leaves the generation inactive and its connection marked closed. */
  lemma {:induction false} FinalSendCloses(run: seq<State>, n: nat)
    requires IsRun(run) && n < |run|
    ensures FinalInv(run[n])
  {
    if n > 0 {
      var m := n - 1;
      assert run[m + 1] == run[n] && StepAt(run, m);
      FinalSendCloses(run, m);
      var o, flag, outcome :| StepOf(run[m], run[n], o, flag, outcome);
      StepKeepsFinal(run[m], run[n], o, flag, outcome);
    }
  }

  /** `t` still wants to send, has begun to since the trace had length `from`, or the generation is inactive. */
  ghost predicate SendingOrInactive(s: State, t: nat, app: bool, from: nat) {
    || At(s, t, WantsSend(app)) || s.inactive
    || (exists k :: from <= k < |s.trace| && s.trace[k] == SendStart(t))
  }

  lemma WantsSendMoves(s: State, s': State, o: nat, flag: bool, outcome: Outcome, t: nat, app: bool)
    requires StepOf(s, s', o, flag, outcome) && At(s, t, WantsSend(app)) && !At(s', t, WantsSend(app))
    ensures o == t && flag == app && EnterSend(s, s', t, app)
  {
    StepGrows(s, s', o, flag, outcome);
    assert o == t && s'.threads != s.threads;
    OnlyEnterSend(s, s', t, flag, outcome, app);
  }

  lemma OnlyEnterSend(s: State, s': State, t: nat, flag: bool, outcome: Outcome, app: bool)
    requires StepOf(s, s', t, flag, outcome) && At(s, t, WantsSend(app)) && s'.threads != s.threads
    ensures flag == app && EnterSend(s, s', t, app)
  {
    assert !EndSend(s, s', t, flag, outcome) && !RetireSection(s, s', t, flag);
    assert !BeginClose(s, s', t, flag) && !EndClose(s, s', t, flag);
  }

  lemma StepKeepsSending(s: State, s': State, o: nat, flag: bool, outcome: Outcome, t: nat, app: bool, from: nat)
    requires SendingOrInactive(s, t, app, from) && from <= |s.trace| && StepOf(s, s', o, flag, outcome)
    ensures SendingOrInactive(s', t, app, from) && from <= |s'.trace|
  {
    StepGrows(s, s', o, flag, outcome);
    if At(s, t, WantsSend(app)) && !At(s', t, WantsSend(app)) && !s'.inactive {
      WantsSendMoves(s, s', o, flag, outcome, t, app);
      SendGrows(s, s', o, flag);
      assert s'.trace[|s.trace|] == SendStart(t);
    } else if k :| from <= k < |s.trace| && s.trace[k] == SendStart(t) {
      assert s'.trace[k] == SendStart(t);
    }
  }

  /** A send is refused only because the generation is inactive; otherwise the connection is called. */
  lemma {:induction false} RefusedOnlyWhenInactive(run: seq<State>, i: nat, j: nat, t: nat, app: bool)
    requires IsRun(run) && i <= j < |run| && At(run[i], t, WantsSend(app))
    ensures SendingOrInactive(run[j], t, app, |run[i].trace|) && |run[i].trace| <= |run[j].trace|
  {
    if i < j {
      var m := j - 1;
      assert run[m + 1] == run[j] && StepAt(run, m);
      RefusedOnlyWhenInactive(run, i, m, t, app);
      var o, flag, outcome :| StepOf(run[m], run[j], o, flag, outcome);
      StepKeepsSending(run[m], run[j], o, flag, outcome, t, app, |run[i].trace|);
    }
  }

  /** Why a generation may be inactive: it was retired, a send was its last, or its removal was started. */
  ghost predicate ReasonInv(s: State) {
    s.inactive ==> s.removals == 1 || exists k :: 0 <= k < |s.trace| && (s.trace[k].RetireStart? || Final(s, s.trace[k]))
  }

  lemma StepKeepsReason(s: State, s': State, o: nat, flag: bool, outcome: Outcome)
    requires s.removals <= 1 && (!s.inactive ==> s.removals == 0) && ReasonInv(s) && StepOf(s, s', o, flag, outcome)
    ensures ReasonInv(s')
  {
    StepGrows(s, s', o, flag, outcome);
    if s.inactive {
      RemovalsOnlyGrow(s, s', o, flag, outcome);
      if k :| 0 <= k < |s.trace| && (s.trace[k].RetireStart? || Final(s, s.trace[k])) {
        assert s'.trace[k] == s.trace[k];
      }
    } else if s'.inactive {
      BecomesInactive(s, s', o, flag, outcome);
    }
  }

  lemma RemovalsOnlyGrow(s: State, s': State, o: nat, flag: bool, outcome: Outcome)
    requires StepOf(s, s', o, flag, outcome) && s.inactive
    ensures s'.removals == s.removals
  {}

  lemma BecomesInactive(s: State, s': State, o: nat, flag: bool, outcome: Outcome)
    requires StepOf(s, s', o, flag, outcome) && !s.inactive && s'.inactive && s.removals == 0
    ensures s'.removals == 1 || exists k :: 0 <= k < |s'.trace| && (s'.trace[k].RetireStart? || Final(s', s'.trace[k]))
  {
    if EndSend(s, s', o, flag, outcome) {
      EndSendGrows(s, s', o, flag, outcome);
      assert Final(s', s'.trace[|s.trace|]);
    } else if BeginRetire(s, s', o, flag) || RetireSection(s, s', o, flag) {
      RetireGrows(s, s', o, flag);
      assert s'.trace[|s.trace|].RetireStart?;
    } else {
      NobodyElseDeactivates(s, s', o, flag);
    }
  }

  lemma NobodyElseDeactivates(s: State, s': State, o: nat, flag: bool)
    requires !s.inactive && s'.inactive && s.removals == 0
    requires StartSend(s, s', o, flag) || EnterSend(s, s', o, flag) || BeginClose(s, s', o, flag) || EndClose(s, s', o, flag)
             || Exhaust(s, s')
    ensures s'.removals == 1
  {}

  /** A generation is inactive for a reason: so one that exhaustion made inactive has its removal started. */
  lemma {:induction false} InactiveForAReason(run: seq<State>, n: nat)
    requires IsRun(run) && n < |run|
    ensures ReasonInv(run[n])
  {
    if n > 0 {
      var m := n - 1;
      assert run[m + 1] == run[n] && StepAt(run, m);
      InactiveForAReason(run, m);
      RunInv(run, m);
      var o, flag, outcome :| StepOf(run[m], run[n], o, flag, outcome);
      StepKeepsReason(run[m], run[n], o, flag, outcome);
    }
  }
}
