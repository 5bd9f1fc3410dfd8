/** Generations of one client ID: which may be active, whom stale work can touch, and what shutdown leaves. */
module LifecycleGenerations {
  import opened Options
  import opened Lifecycle

  /** No generation after `g` was ever put in the client map. */
  ghost predicate Newest(s: State, g: nat) {
    g < |s.gens| && forall h :: g < h < |s.gens| ==> !s.gens[h].installed
  }

  ghost predicate Inactive(s: State, g: nat) {
    g < |s.gens| && s.gens[g].inactive
  }

  ghost predicate Sealed(s: State, g: nat) {
    Inactive(s, g) && s.gens[g].connectionClosed
  }

  /** The generation just created by a registration. */
  ghost predicate JustMade(s: State, g: nat) {
    g == |s.gens| - 1 && !s.gens[g].installed
  }

  ghost predicate PcInv(s: State) {
    s.section.Held? ==>
      match s.section.pc
      case MarkOld(target, former) => JustMade(s, target) && s.current == Some(former)
      case SealOld(target, former) => JustMade(s, target) && s.current == Some(former) && Inactive(s, former)
      case Install(target) => JustMade(s, target) && (s.current.Some? ==> Inactive(s, s.current.value))
      case DropSubscriptions(g) => s.current.None? && Newest(s, g)
      case DropLog(g) => s.current.None? && Newest(s, g)
      case RetireFlag(g) => Newest(s, g)
      case RetireSeal(g) => Newest(s, g) && Inactive(s, g)
      case _ => true
  }

  /** The generation the section is about to install or to retire may still be active. */
  ghost predicate InWork(s: State, g: nat) {
    && s.section.Held?
    && match s.section.pc
       case MarkOld(target, _) => g == target
       case SealOld(target, _) => g == target
       case Install(target) => g == target
       case DropSubscriptions(removed) => g == removed
       case DropLog(removed) => g == removed
       case RetireFlag(target) => g == target
       case _ => false
  }

  ghost predicate OthersInv(s: State) {
    forall g :: 0 <= g < |s.gens| && s.current != Some(g) && !InWork(s, g) ==> Inactive(s, g)
  }

  /** A disconnect or expected removal works on the generation it was meant for. */
  ghost predicate MeantInv(s: State) {
    && (s.section.Held? && s.section.task.Disconnecting? ==>
          s.section.pc in {Start, RetireFlag(s.section.task.target), RetireSeal(s.section.task.target), Done})
    && (s.section.Held? && s.section.task.Unregistering? && s.section.task.expected.Some? ==>
          var g := s.section.task.expected.value;
          s.section.pc in {Start, DropSubscriptions(g), DropLog(g), RetireFlag(g), RetireSeal(g), Done})
  }

  ghost predicate ShutdownInv(s: State) {
    && (s.stopped ==> s.closed)
    && match s.shutdown
       case Pending => true
       case Copied(client) => s.closed && s.stopped && (s.current.Some? ==> client == s.current)
       case Sealing(g) => s.closed && s.stopped && (s.current.Some? ==> s.current == Some(g) && Inactive(s, g))
       case Finished => s.closed && s.stopped && (s.current.Some? ==> Sealed(s, s.current.value))
  }

  ghost predicate Inv(s: State) {
    (s.current.Some? ==> Newest(s, s.current.value) && s.gens[s.current.value].installed)
    && PcInv(s) && OthersInv(s) && MeantInv(s) && ShutdownInv(s)
  }

  // ------------------------------------------------------------ preservation

  /** Generations stay what they are, except that flags may be raised. */
  ghost predicate Grows(gens: seq<Gen>, gens': seq<Gen>) {
    && |gens'| == |gens|
    && forall g :: 0 <= g < |gens| ==>
         && gens'[g].installed == gens[g].installed
         && (gens[g].inactive ==> gens'[g].inactive)
         && (gens[g].connectionClosed ==> gens'[g].connectionClosed)
  }

  /** The section is not installing or retiring a generation. */
  ghost predicate Plain(section: Section) {
    section.Held? ==>
      && !section.pc.MarkOld? && !section.pc.SealOld? && !section.pc.Install? && !section.pc.DropSubscriptions?
      && !section.pc.DropLog? && !section.pc.RetireFlag? && !section.pc.RetireSeal?
  }

  ghost predicate Undisturbed(s: State, s': State) {
    && s'.current == s.current && s'.closed == s.closed && s'.stopped == s.stopped && s'.shutdown == s.shutdown
    && Grows(s.gens, s'.gens)
    && (s'.section == s.section || (Plain(s.section) && Plain(s'.section)))
  }

  lemma UndisturbedKeepsOthers(s: State, s': State)
    requires Inv(s) && Undisturbed(s, s')
    ensures OthersInv(s')
  {
    forall g | 0 <= g < |s'.gens| && s'.current != Some(g) && !InWork(s', g)
      ensures Inactive(s', g)
    {
      assert !InWork(s, g);
      assert Inactive(s, g);
    }
  }

  lemma UndisturbedKeepsPc(s: State, s': State)
    requires Inv(s) && Undisturbed(s, s')
    ensures PcInv(s')
  {}

  /** Most steps do not touch what the invariant is about. */
  lemma UndisturbedKeepsInv(s: State, s': State)
    requires Inv(s) && Undisturbed(s, s') && MeantInv(s')
    ensures Inv(s')
  {
    UndisturbedKeepsOthers(s, s');
    UndisturbedKeepsPc(s, s');
  }

  lemma CreateKeepsInv(s: State, s': State)
    requires Inv(s) && s.section.Held? && s.section.pc.Start? && RegisterStep(s, s')
    ensures Inv(s')
  {}

  lemma ReplaceKeepsInv(s: State, s': State)
    requires Inv(s) && s.section.Held? && (s.section.pc.MarkOld? || s.section.pc.SealOld?) && RegisterStep(s, s')
    ensures Inv(s')
  {}

  lemma InstallKeepsInv(s: State, s': State)
    requires Inv(s) && s.section.Held? && s.section.pc.Install? && RegisterStep(s, s')
    ensures Inv(s')
  {}

  lemma RegisterKeepsInv(s: State, s': State)
    requires Inv(s) && s.section.Held? && RegisterStep(s, s')
    ensures Inv(s')
  {
    if s.section.pc.Start? {
      CreateKeepsInv(s, s');
    } else if s.section.pc.Install? {
      InstallKeepsInv(s, s');
    } else {
      ReplaceKeepsInv(s, s');
    }
  }

  /** The section goes on from one plain point to another; only a replay generation may go up. */
  ghost predicate GoesOn(s: State, s': State) {
    && s.section.Held? && s'.section.Held? && s'.section.task == s.section.task && Plain(s.section) && Plain(s'.section)
    && !s.section.task.Disconnecting? && !(s.section.task.Unregistering? && s.section.task.expected.Some?)
    && s'.current == s.current && s'.closed == s.closed && s'.stopped == s.stopped && s'.shutdown == s.shutdown
    && Grows(s.gens, s'.gens)
  }

  lemma LoopGoesOn(s: State, s': State, ok: bool)
    requires MeantInv(s) && s.section.Held?
    requires (s.section.pc.Loop? && LoopStep(s, s')) || (s.section.pc.LoopPush? && LoopPushStep(s, s', ok))
    ensures GoesOn(s, s')
  {}

  lemma OpeningGoesOn(s: State, s': State, ok: bool)
    requires MeantInv(s) && s.section.Held? && !s.section.pc.Loop? && !s.section.pc.LoopPush? && ReplayStep(s, s', ok)
    ensures GoesOn(s, s')
  {}

  lemma ReplayGoesOn(s: State, s': State, ok: bool)
    requires MeantInv(s) && s.section.Held? && ReplayStep(s, s', ok)
    ensures GoesOn(s, s')
  {
    if s.section.pc.Loop? || s.section.pc.LoopPush? {
      LoopGoesOn(s, s', ok);
    } else {
      OpeningGoesOn(s, s', ok);
    }
  }

  lemma HandleGoesOn(s: State, s': State, ok: bool)
    requires MeantInv(s) && s.section.Held? && HandleStep(s, s', ok)
    ensures GoesOn(s, s')
  {}

  lemma RemoveStartKeepsInv(s: State, s': State, ok: bool)
    requires Inv(s) && s.section.Held? && s.section.pc.Start? && RemoveStep(s, s', ok)
    ensures Inv(s')
  {}

  lemma DropKeepsInv(s: State, s': State, ok: bool)
    requires Inv(s) && s.section.Held? && (s.section.pc.DropSubscriptions? || s.section.pc.DropLog?)
    requires RemoveStep(s, s', ok)
    ensures Inv(s')
  {}

  lemma RetireKeepsInv(s: State, s': State, ok: bool)
    requires Inv(s) && s.section.Held? && (s.section.pc.RetireFlag? || s.section.pc.RetireSeal?)
    requires RemoveStep(s, s', ok)
    ensures Inv(s')
  {}

  lemma RemoveKeepsInv(s: State, s': State, ok: bool)
    requires Inv(s) && s.section.Held? && RemoveStep(s, s', ok)
    ensures Inv(s')
  {
    if s.section.pc.Start? {
      RemoveStartKeepsInv(s, s', ok);
    } else if s.section.pc.RetireFlag? || s.section.pc.RetireSeal? {
      RetireKeepsInv(s, s', ok);
    } else {
      DropKeepsInv(s, s', ok);
    }
  }

  lemma InsideKeepsInv(s: State, s': State, ok: bool)
    requires Inv(s) && InsideStep(s, s', ok)
    ensures Inv(s')
  {
    if RegisterStep(s, s') {
      RegisterKeepsInv(s, s');
    } else if ReplayStep(s, s', ok) {
      ReplayGoesOn(s, s', ok);
      UndisturbedKeepsInv(s, s');
    } else if HandleStep(s, s', ok) {
      HandleGoesOn(s, s', ok);
      UndisturbedKeepsInv(s, s');
    } else if RemoveStep(s, s', ok) {
      RemoveKeepsInv(s, s', ok);
    } else {
      UndisturbedKeepsInv(s, s');
    }
  }

  /** Shutdown raises flags of a generation; the rest of the invariant does not see more. */
  lemma ShutdownKeepsInv(s: State, s': State)
    requires Inv(s) && ShutdownStep(s, s')
    ensures Inv(s')
  {
    ShutdownKeepsShutdownInv(s, s');
    var same := s'.(closed := s.closed, stopped := s.stopped, shutdown := s.shutdown);
    assert Grows(s.gens, s'.gens);
    UndisturbedKeepsOthers(s, same);
    UndisturbedKeepsPc(s, same);
    assert OthersInv(same) && PcInv(same);
    OnlyShutdownDiffers(same, s');
  }

  lemma OnlyShutdownDiffers(s: State, s': State)
    requires s'.current == s.current && s'.gens == s.gens && s'.section == s.section
    requires OthersInv(s) && PcInv(s)
    ensures OthersInv(s') && PcInv(s')
  {
    forall g | 0 <= g < |s'.gens| && s'.current != Some(g) && !InWork(s', g)
      ensures Inactive(s', g)
    {
      assert !InWork(s, g);
      assert Inactive(s, g);
    }
  }

  lemma ShutdownKeepsShutdownInv(s: State, s': State)
    requires Inv(s) && ShutdownStep(s, s')
    ensures ShutdownInv(s')
  {}

  lemma OutsideDisturbsNothing(s: State, s': State, action: Action)
    requires MeantInv(s) && !action.ShutDown? && OutsideStep(s, s', action)
    ensures Undisturbed(s, s') && MeantInv(s')
  {}

  lemma StepKeepsInv(s: State, s': State, action: Action)
    requires Inv(s) && Next(s, s', action)
    ensures Inv(s')
  {
    if action.Inside? {
      InsideKeepsInv(s, s', action.ok);
    } else if action.ShutDown? {
      ShutdownKeepsInv(s, s');
    } else {
      OutsideDisturbsNothing(s, s', action);
      UndisturbedKeepsInv(s, s');
    }
  }

  // ------------------------------------------------------------- over all runs

  lemma {:induction false} RunInv(run: seq<State>, n: nat)
    requires IsRun(run) && n < |run|
    ensures Inv(run[n])
  {
    if n > 0 {
      var i := n - 1;
      assert run[i + 1] == run[n] && StepAt(run, i);
      RunInv(run, i);
      FollowsKeepsInv(run[i], run[n]);
    }
  }

  lemma FollowsKeepsInv(s: State, s': State)
    requires Inv(s) && Follows(s, s')
    ensures Inv(s')
  {
    var action :| Next(s, s', action);
    StepKeepsInv(s, s', action);
  }

  /** Whenever the lifecycle lock is free, every generation other than the one in the client map is inactive. */
  lemma OthersInactive(run: seq<State>, n: nat, g: nat)
    requires IsRun(run) && n < |run| && run[n].section.Free? && g < |run[n].gens| && run[n].current != Some(g)
    ensures run[n].gens[g].inactive
  {
    RunInv(run, n);
  }

  /** The generation on whose behalf a disconnect or an exhaustion removal runs. */
  ghost predicate OnBehalfOf(task: Task, g: nat) {
    task == Disconnecting(g) || task == Unregistering(Some(g))
  }

  /**
    Once a generation has been replaced, a disconnect or an exhaustion removal
    on its behalf does nothing at all but take and return the lock: whatever it
    found before waiting, it does not remove, close, unsubscribe or clear the
    history of the replacement.
  */
  lemma StaleHasNoEffect(run: seq<State>, n: nat, g: nat, h: nat, ok: bool)
    requires IsRun(run) && n < |run| && run[n].section.Held? && OnBehalfOf(run[n].section.task, g)
    requires g < h < |run[n].gens| && run[n].gens[h].installed
    ensures forall s' :: InsideStep(run[n], s', ok) ==> s' == run[n].(section := s'.section)
  {
    RunInv(run, n);
    var s := run[n];
    forall s' | InsideStep(s, s', ok)
      ensures s' == s.(section := s'.section)
    {
      StaleStep(s, s', g, h, ok);
    }
  }

  lemma StaleStep(s: State, s': State, g: nat, h: nat, ok: bool)
    requires Inv(s) && s.section.Held? && OnBehalfOf(s.section.task, g)
    requires g < h < |s.gens| && s.gens[h].installed && InsideStep(s, s', ok)
    ensures s' == s.(section := s'.section)
  {
    assert !Newest(s, g);
    assert s.section.pc in {Start, Done};
  }

  /** A disconnect or exhaustion removal that does act, acts on its own generation, which nothing has replaced. */
  lemma ActsOnItsOwn(run: seq<State>, n: nat, g: nat)
    requires IsRun(run) && n < |run| && run[n].section.Held? && OnBehalfOf(run[n].section.task, g)
    requires !run[n].section.pc.Start? && !run[n].section.pc.Done?
    ensures Newest(run[n], g)
    ensures run[n].section.pc in {DropSubscriptions(g), DropLog(g), RetireFlag(g), RetireSeal(g)}
  {
    RunInv(run, n);
  }

  /** After `Close` no generation is put in the client map: an ID only ever leaves it. */
  lemma {:induction false} ClosedAdmitsNobody(run: seq<State>, n: nat, m: nat)
    requires IsRun(run) && n <= m < |run| && run[n].closed
    ensures run[m].closed && (run[m].current == run[n].current || run[m].current.None?)
  {
    if n < m {
      var i := m - 1;
      ClosedAdmitsNobody(run, n, i);
      RunInv(run, i);
      assert run[i + 1] == run[m] && StepAt(run, i);
      ClosedStep(run[i], run[m]);
    }
  }

  lemma ClosedStep(s: State, s': State)
    requires Inv(s) && s.closed && Follows(s, s')
    ensures s'.closed && (s'.current == s.current || s'.current.None?)
  {
    var action :| Next(s, s', action);
    if action.Inside? {
      ClosedInside(s, s', action.ok);
    }
  }

  lemma ClosedInside(s: State, s': State, ok: bool)
    requires Inv(s) && s.closed && InsideStep(s, s', ok)
    ensures s'.closed && (s'.current == s.current || s'.current.None?)
  {
    if ReplayStep(s, s', ok) {
      ReplayGoesOn(s, s', ok);
    } else if HandleStep(s, s', ok) {
      HandleGoesOn(s, s', ok);
    }
  }

  /** When shutdown completes, a client still in the map is inactive with its connection marked closed, and stays so. */
  lemma ShutdownRetires(run: seq<State>, n: nat)
    requires IsRun(run) && n < |run| && run[n].shutdown.Finished? && run[n].current.Some?
    ensures run[n].current.value < |run[n].gens|
    ensures run[n].gens[run[n].current.value].inactive && run[n].gens[run[n].current.value].connectionClosed
  {
    RunInv(run, n);
  }
}
