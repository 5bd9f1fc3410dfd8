/**
  The per-client lifecycle locks: a table of reference-counted one-slot gates,
  created on first use and deleted with the last reference. A step is one
  critical section of `clientLockMu` or one operation on a gate.
*/
module LockTable {
  import opened Options

  /** `clientLock`. `gate` tells whether the one-slot channel is full and, for the proof only, who filled it. */
  datatype Lock = Lock(gate: Option<nat>, references: nat)

  /** Where a caller of `lockClientContext` is, and the lock object it has. */
  datatype Use =
    | Waiting(id: string, ptr: nat)
    | Entered(id: string, ptr: nat)
    | Holding(id: string, ptr: nat)
    | Releasing(id: string, ptr: nat)

  /** `locks` is the heap of lock objects ever created; `table` is `clientLocks`. */
  datatype State = State(table: map<string, nat>, locks: seq<Lock>, threads: map<nat, Use>)

  ghost predicate Init(s: State) {
    s == State(map[], [], map[])
  }

  predicate HasGate(u: Use) {
    u.Entered? || u.Holding?
  }

  /** Look up or create the lock, and take a reference. */
  ghost predicate Enter(s: State, s': State, t: nat, id: string) {
    && t !in s.threads
    && if id in s.table then
         && s.table[id] < |s.locks|
         && var ptr := s.table[id];
            s' == s.(locks := s.locks[ptr := s.locks[ptr].(references := s.locks[ptr].references + 1)],
                     threads := s.threads[t := Waiting(id, ptr)])
       else
         s' == State(s.table[id := |s.locks|], s.locks + [Lock(None, 1)], s.threads[t := Waiting(id, |s.locks|)])
  }

  ghost predicate At(s: State, t: nat) {
    t in s.threads && s.threads[t].ptr < |s.locks|
  }

  ghost function SetGate(s: State, ptr: nat, gate: Option<nat>): (r: State)
    requires ptr < |s.locks|
  {
    s.(locks := s.locks[ptr := s.locks[ptr].(gate := gate)])
  }

  /** The send on the gate goes through. */
  ghost predicate Acquire(s: State, s': State, t: nat) {
    && At(s, t) && s.threads[t].Waiting? && s.locks[s.threads[t].ptr].gate.None?
    && s' == SetGate(s, s.threads[t].ptr, Some(t)).(threads := s.threads[t := Entered(s.threads[t].id, s.threads[t].ptr)])
  }

  /** The context is still good: the lock is held. */
  ghost predicate Confirm(s: State, s': State, t: nat) {
    && At(s, t) && s.threads[t].Entered?
    && s' == s.(threads := s.threads[t := Holding(s.threads[t].id, s.threads[t].ptr)])
  }

  /** The context was canceled meanwhile, or the holder unlocks: the gate is emptied. */
  ghost predicate LeaveGate(s: State, s': State, t: nat) {
    && At(s, t) && HasGate(s.threads[t])
    && s' == SetGate(s, s.threads[t].ptr, None).(threads := s.threads[t := Releasing(s.threads[t].id, s.threads[t].ptr)])
  }

  /** The context is canceled while waiting for the gate. */
  ghost predicate GiveUp(s: State, s': State, t: nat) {
    && At(s, t) && s.threads[t].Waiting?
    && s' == s.(threads := s.threads[t := Releasing(s.threads[t].id, s.threads[t].ptr)])
  }

  /** `releaseReference`. */
  ghost predicate Release(s: State, s': State, t: nat) {
    && At(s, t) && s.threads[t].Releasing? && s.locks[s.threads[t].ptr].references > 0
    && var Releasing(id, ptr) := s.threads[t];
       var left := s.locks[ptr].references - 1;
       s' == State(if left == 0 && id in s.table && s.table[id] == ptr then s.table - {id} else s.table,
                   s.locks[ptr := s.locks[ptr].(references := left)],
                   s.threads - {t})
  }

  ghost predicate StepOf(s: State, s': State, t: nat) {
    || (exists id :: Enter(s, s', t, id))
    || Acquire(s, s', t) || Confirm(s, s', t) || LeaveGate(s, s', t) || GiveUp(s, s', t) || Release(s, s', t)
  }

  ghost predicate Next(s: State, s': State) {
    exists t :: StepOf(s, s', t)
  }

  // ---------------------------------------------------------------- invariant

  ghost function Users(threads: map<nat, Use>, ptr: nat): (u: set<nat>) {
    set t | t in threads && threads[t].ptr == ptr
  }

  /** Everybody's lock object is the one in the table. */
  ghost predicate UsesListed(s: State) {
    forall t :: t in s.threads ==> s.threads[t].id in s.table && s.table[s.threads[t].id] == s.threads[t].ptr
  }

  ghost predicate TableOk(s: State) {
    && (forall id :: id in s.table ==> s.table[id] < |s.locks| && s.locks[s.table[id]].references > 0)
    && (forall id, id' :: id in s.table && id' in s.table && s.table[id] == s.table[id'] ==> id == id')
  }

  ghost predicate Counted(s: State) {
    forall ptr :: 0 <= ptr < |s.locks| ==> s.locks[ptr].references == |Users(s.threads, ptr)|
  }

  ghost predicate GatesOk(s: State) {
    && (forall t :: t in s.threads ==>
          && s.threads[t].ptr < |s.locks|
          && (HasGate(s.threads[t]) <==> s.locks[s.threads[t].ptr].gate == Some(t)))
    && (forall ptr :: 0 <= ptr < |s.locks| && s.locks[ptr].gate.Some? ==>
          s.locks[ptr].gate.value in s.threads && s.threads[s.locks[ptr].gate.value].ptr == ptr)
  }

  ghost predicate Inv(s: State) {
    UsesListed(s) && TableOk(s) && Counted(s) && GatesOk(s)
  }

  lemma UsersMoveOn(threads: map<nat, Use>, t: nat, u: Use, ptr: nat)
    requires t in threads && u.ptr == threads[t].ptr
    ensures Users(threads[t := u], ptr) == Users(threads, ptr)
  {}

  lemma UsersJoin(threads: map<nat, Use>, t: nat, u: Use, ptr: nat)
    requires t !in threads
    ensures |Users(threads[t := u], ptr)| == |Users(threads, ptr)| + if u.ptr == ptr then 1 else 0
  {
    assert Users(threads[t := u], ptr) == if u.ptr == ptr then Users(threads, ptr) + {t} else Users(threads, ptr);
  }

  lemma UsersLeave(threads: map<nat, Use>, t: nat, ptr: nat)
    requires t in threads
    ensures |Users(threads - {t}, ptr)| == |Users(threads, ptr)| - if threads[t].ptr == ptr then 1 else 0
  {
    assert Users(threads - {t}, ptr) == Users(threads, ptr) - {t};
  }

  lemma EnterKeepsCounts(s: State, s': State, t: nat, id: string)
    requires Inv(s) && Enter(s, s', t, id)
    ensures Counted(s')
  {
    forall ptr | 0 <= ptr < |s'.locks|
      ensures s'.locks[ptr].references == |Users(s'.threads, ptr)|
    {
      UsersJoin(s.threads, t, s'.threads[t], ptr);
      if ptr == |s.locks| {
        assert Users(s.threads, ptr) == {};
      }
    }
  }

  lemma EnterKeepsInv(s: State, s': State, t: nat, id: string)
    requires Inv(s) && Enter(s, s', t, id)
    ensures Inv(s')
  {
    EnterKeepsCounts(s, s', t, id);
    EnterKeepsTable(s, s', t, id);
    EnterKeepsGates(s, s', t, id);
  }

  lemma EnterKeepsTable(s: State, s': State, t: nat, id: string)
    requires UsesListed(s) && TableOk(s) && Enter(s, s', t, id)
    ensures UsesListed(s') && TableOk(s')
  {}

  lemma EnterKeepsGates(s: State, s': State, t: nat, id: string)
    requires GatesOk(s) && Enter(s, s', t, id)
    ensures GatesOk(s')
  {}

  /** A thread goes on with the lock object it has; only the gate of that object may change. */
  lemma MoveKeepsInv(s: State, s': State, t: nat)
    requires Inv(s) && t in s.threads && t in s'.threads && s'.threads == s.threads[t := s'.threads[t]]
    requires s'.threads[t].ptr == s.threads[t].ptr && s'.threads[t].id == s.threads[t].id
    requires s.threads[t].ptr < |s'.locks| && s'.table == s.table
    requires s'.locks == s.locks[s.threads[t].ptr := s'.locks[s.threads[t].ptr]]
    requires s'.locks[s.threads[t].ptr].references == s.locks[s.threads[t].ptr].references
    requires GatesOk(s')
    ensures Inv(s')
  {
    forall ptr | 0 <= ptr < |s'.locks|
      ensures s'.locks[ptr].references == |Users(s'.threads, ptr)|
    {
      UsersMoveOn(s.threads, t, s'.threads[t], ptr);
    }
  }

  lemma AcquireKeepsInv(s: State, s': State, t: nat)
    requires Inv(s) && Acquire(s, s', t)
    ensures Inv(s')
  {
    assert GatesOk(s');
    MoveKeepsInv(s, s', t);
  }

  lemma ConfirmKeepsInv(s: State, s': State, t: nat)
    requires Inv(s) && Confirm(s, s', t)
    ensures Inv(s')
  {
    assert GatesOk(s');
    MoveKeepsInv(s, s', t);
  }

  lemma LeaveGateKeepsInv(s: State, s': State, t: nat)
    requires Inv(s) && LeaveGate(s, s', t)
    ensures Inv(s')
  {
    assert GatesOk(s');
    MoveKeepsInv(s, s', t);
  }

  lemma GiveUpKeepsInv(s: State, s': State, t: nat)
    requires Inv(s) && GiveUp(s, s', t)
    ensures Inv(s')
  {
    assert GatesOk(s');
    MoveKeepsInv(s, s', t);
  }

  lemma ReleaseKeepsCounts(s: State, s': State, t: nat)
    requires Inv(s) && Release(s, s', t)
    ensures Counted(s')
  {
    forall ptr | 0 <= ptr < |s'.locks|
      ensures s'.locks[ptr].references == |Users(s'.threads, ptr)|
    {
      UsersLeave(s.threads, t, ptr);
    }
  }

  /** The last reference is given up when nobody else has the lock object; so the entry goes with it. */
  lemma ReleaseKeepsTable(s: State, s': State, t: nat)
    requires UsesListed(s) && TableOk(s) && Counted(s') && Release(s, s', t)
    ensures UsesListed(s') && TableOk(s')
  {
    var ptr := s.threads[t].ptr;
    forall o | o in s'.threads && s'.threads[o].ptr == ptr
      ensures s'.locks[ptr].references > 0
    {
      assert o in Users(s'.threads, ptr);
    }
  }

  lemma ReleaseKeepsGates(s: State, s': State, t: nat)
    requires GatesOk(s) && Release(s, s', t)
    ensures GatesOk(s')
  {}

  lemma ReleaseKeepsInv(s: State, s': State, t: nat)
    requires Inv(s) && Release(s, s', t)
    ensures Inv(s')
  {
    ReleaseKeepsCounts(s, s', t);
    ReleaseKeepsTable(s, s', t);
    ReleaseKeepsGates(s, s', t);
  }

  lemma StepKeepsInv(s: State, s': State, t: nat)
    requires Inv(s) && StepOf(s, s', t)
    ensures Inv(s')
  {
    if id :| Enter(s, s', t, id) {
      EnterKeepsInv(s, s', t, id);
    } else if Acquire(s, s', t) {
      AcquireKeepsInv(s, s', t);
    } else if Confirm(s, s', t) {
      ConfirmKeepsInv(s, s', t);
    } else if LeaveGate(s, s', t) {
      LeaveGateKeepsInv(s, s', t);
    } else if GiveUp(s, s', t) {
      GiveUpKeepsInv(s, s', t);
    } else {
      ReleaseKeepsInv(s, s', t);
    }
  }

  // ------------------------------------------------------------- over all runs

  ghost predicate StepAt(run: seq<State>, i: nat)
    requires i + 1 < |run|
  {
    Next(run[i], run[i + 1])
  }

  ghost predicate IsRun(run: seq<State>) {
    run != [] && Init(run[0]) && forall i :: 0 <= i < |run| - 1 ==> StepAt(run, i)
  }

  lemma {:induction false} RunInv(run: seq<State>, n: nat)
    requires IsRun(run) && n < |run|
    ensures Inv(run[n])
  {
    if n > 0 {
      RunInv(run, n - 1);
      assert StepAt(run, n - 1);
      var t :| StepOf(run[n - 1], run[n], t);
      StepKeepsInv(run[n - 1], run[n], t);
    }
  }

  /** At most one caller is past the gate of a client ID, whatever was deleted and created again meanwhile. */
  lemma MutualExclusion(run: seq<State>, n: nat, t: nat, t': nat)
    requires IsRun(run) && n < |run| && t in run[n].threads && t' in run[n].threads
    requires run[n].threads[t].id == run[n].threads[t'].id && HasGate(run[n].threads[t]) && HasGate(run[n].threads[t'])
    ensures t == t'
  {
    RunInv(run, n);
  }

  /**
    An entry exists exactly while somebody uses it, and counts its users:
    holders, waiters, and callers on their way out.
  */
  lemma EntryCountsUsers(run: seq<State>, n: nat, id: string)
    requires IsRun(run) && n < |run|
    ensures id in run[n].table <==> exists t :: t in run[n].threads && run[n].threads[t].id == id
    ensures id in run[n].table ==>
      && run[n].table[id] < |run[n].locks|
      && run[n].locks[run[n].table[id]].references == |set t | t in run[n].threads && run[n].threads[t].id == id|
  {
    RunInv(run, n);
    var s := run[n];
    if id in s.table {
      var ptr := s.table[id];
      assert Users(s.threads, ptr) != {} by {
        assert |Users(s.threads, ptr)| > 0;
      }
      var t :| t in Users(s.threads, ptr);
      assert s.threads[t].id == id;
      assert Users(s.threads, ptr) == set t | t in s.threads && s.threads[t].id == id;
    }
  }

  /** So the table is empty when nobody uses it. */
  lemma EmptyWhenUnused(run: seq<State>, n: nat)
    requires IsRun(run) && n < |run| && run[n].threads == map[]
    ensures run[n].table == map[]
  {
    forall id | id in run[n].table
      ensures false
    {
      EntryCountsUsers(run, n, id);
    }
  }

  /** A full gate has an owner who can empty it: nobody waits for a gate that was left locked. */
  lemma GateHasOwner(run: seq<State>, n: nat, t: nat) returns (owner: nat, s': State)
    requires IsRun(run) && n < |run| && t in run[n].threads && run[n].threads[t].Waiting?
    requires run[n].threads[t].ptr < |run[n].locks| && run[n].locks[run[n].threads[t].ptr].gate.Some?
    ensures owner in run[n].threads && HasGate(run[n].threads[owner])
    ensures run[n].threads[owner].id == run[n].threads[t].id
    ensures LeaveGate(run[n], s', owner)
  {
    RunInv(run, n);
    var s := run[n];
    var ptr := s.threads[t].ptr;
    owner := s.locks[ptr].gate.value;
    s' := SetGate(s, ptr, None).(threads := s.threads[owner := Releasing(s.threads[owner].id, ptr)]);
  }
}
