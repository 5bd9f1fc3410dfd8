/** Every step of the delivery engine is a step, or no step, of the ordering protocol `TurnOrder`. */
module DeliveryOrder {
  import opened Options
  import opened Line
  import opened Delivery
  import Turn = TurnOrder

  function TicketHand(e: ClientEvent, ticket: Ticket): (h: Turn.Hand) {
    Turn.Hand(e.id, e.client, e.sendOrder, !ticket.Wanted?, ticket.Used?)
  }

  /** The ticket a worker holds, if any. */
  function HandOf(w: Worker): (h: Option<Turn.Hand>) {
    if w.Busy? && !w.ticket.NoTicket? then Some(TicketHand(w.event, w.ticket)) else None
  }

  function FlushHand(f: Flush): (h: Option<Turn.Hand>) {
    if f.Flushing? then Some(TicketHand(f.event, f.ticket)) else None
  }

  ghost function WorkerHands(workers: seq<Worker>): (m: map<Turn.Holder, Turn.Hand>)
    ensures forall h :: h in m <==> h.Worker? && h.index < |workers| && HandOf(workers[h.index]).Some?
    ensures forall h :: h in m ==> m[h] == HandOf(workers[h.index]).value
  {
    map w | 0 <= w < |workers| && HandOf(workers[w]).Some? :: Turn.Holder.Worker(w) := HandOf(workers[w]).value
  }

  ghost function Hands(workers: seq<Worker>, f: Flush): (m: map<Turn.Holder, Turn.Hand>) {
    var m := WorkerHands(workers);
    if FlushHand(f).Some? then m[Turn.Holder.Flusher := FlushHand(f).value] else m
  }

  /** The ticketed sends, in order. */
  ghost function TicketLog(sends: seq<Send>): (log: seq<Turn.Sent>) {
    if sends == [] then []
    else
      var last := sends[|sends| - 1];
      TicketLog(sends[..|sends| - 1]) + if last.ticket.Some? then [Turn.Sent(last.id, last.client, last.ticket.value)] else []
  }

  ghost function Abs(s: State): (t: Turn.State) {
    Turn.State(s.line, s.pushed, Hands(s.workers, s.flush), TicketLog(s.sends))
  }

  lemma WorkerHandsAfter(workers: seq<Worker>, w: nat, x: Worker)
    requires w < |workers|
    ensures WorkerHands(workers[w := x]) ==
            if HandOf(x).Some? then WorkerHands(workers)[Turn.Holder.Worker(w) := HandOf(x).value]
            else WorkerHands(workers) - {Turn.Holder.Worker(w)}
  {
    var after := if HandOf(x).Some? then WorkerHands(workers)[Turn.Holder.Worker(w) := HandOf(x).value]
                 else WorkerHands(workers) - {Turn.Holder.Worker(w)};
    forall h: Turn.Holder
      ensures h in WorkerHands(workers[w := x]) <==> h in after
      ensures h in after ==> WorkerHands(workers[w := x])[h] == after[h]
    {}
  }

  lemma SameHands(workers: seq<Worker>, w: nat, x: Worker)
    requires w < |workers| && HandOf(x) == HandOf(workers[w])
    ensures WorkerHands(workers[w := x]) == WorkerHands(workers)
  {
    var m, m' := WorkerHands(workers), WorkerHands(workers[w := x]);
    assert forall i :: 0 <= i < |workers| ==> HandOf(workers[w := x][i]) == HandOf(workers[i]);
    assert forall h :: h in m' <==> h in m;
    assert forall h :: h in m ==> m'[h] == m[h];
  }

  lemma HandsAfter(workers: seq<Worker>, w: nat, x: Worker, f: Flush)
    requires w < |workers|
    ensures Hands(workers[w := x], f) ==
            if HandOf(x).Some? then Hands(workers, f)[Turn.Holder.Worker(w) := HandOf(x).value]
            else Hands(workers, f) - {Turn.Holder.Worker(w)}
  {
    WorkerHandsAfter(workers, w, x);
  }

  lemma TicketLogAppend(sends: seq<Send>, last: Send)
    ensures TicketLog(sends + [last]) ==
            TicketLog(sends) + if last.ticket.Some? then [Turn.Sent(last.id, last.client, last.ticket.value)] else []
  {
    assert (sends + [last])[..|sends|] == sends;
  }

  // Each step of the engine, as a step of the protocol.

  lemma PopRefines(s: State, s': State, w: nat)
    requires PopStep(s, s', w)
    ensures Turn.TakeStep(Abs(s), Abs(s'), Turn.Holder.Worker(w))
  {
    HandsAfter(s.workers, w, s'.workers[w], s.flush);
  }

  lemma TurnNotOver(t: Turn.State, h: Turn.Holder)
    requires Turn.HandsInv(t) && h in t.hands
    ensures t.hands[h].client < |t.line.books| && t.line.books[t.hands[h].client].nextTurn <= t.hands[h].order
  {}

  /** A popped event never finds its turn already over, so `waitForTurn` never returns false. */
  lemma TurnComesRefines(s: State, s': State, w: nat)
    requires TurnComesStep(s, s', w) && s.workers[w].ticket.Wanted?
    requires s.line.books[s.workers[w].event.client].nextTurn <= s.workers[w].event.sendOrder
    ensures s'.workers[w] == Busy(Checking, s.workers[w].event, Granted)
    ensures Turn.GrantStep(Abs(s), Abs(s'), Turn.Holder.Worker(w))
  {
    HandsAfter(s.workers, w, s'.workers[w], s.flush);
  }

  /** A worker that changes only its phase changes nothing the protocol sees. */
  lemma MoveOnRefines(s: State, s': State, w: nat, phase: Phase)
    requires w < |s.workers| && s.workers[w].Busy?
    requires s'.workers == s.workers[w := s.workers[w].(phase := phase)]
    requires s'.line == s.line && s'.pushed == s.pushed && s'.flush == s.flush && s'.sends == s.sends
    ensures Abs(s') == Abs(s)
  {
    SameHands(s.workers, w, s.workers[w].(phase := phase));
  }

  /** So does a worker that moves between two places without a ticket. */
  lemma NoTicketRefines(s: State, s': State, w: nat)
    requires w < |s.workers| == |s'.workers| && HandOf(s.workers[w]).None? && HandOf(s'.workers[w]).None?
    requires s'.workers == s.workers[w := s'.workers[w]]
    requires s'.line == s.line && s'.pushed == s.pushed && s'.flush == s.flush && s'.sends == s.sends
    ensures Abs(s') == Abs(s)
  {
    SameHands(s.workers, w, s'.workers[w]);
  }

  lemma BeginSendRefines(s: State, s': State, w: nat)
    requires BeginSendStep(s, s', w) && s.workers[w].event.client !in s.inactive && s.workers[w].ticket.Granted?
    ensures Turn.SendStep(Abs(s), Abs(s'), Turn.Holder.Worker(w))
  {
    HandsAfter(s.workers, w, s'.workers[w], s.flush);
    TicketLogAppend(s.sends, s'.sends[|s.sends|]);
  }

  lemma BeginRetryRefines(s: State, s': State, w: nat)
    requires BeginSendStep(s, s', w) && s.workers[w].event.client !in s.inactive && s.workers[w].ticket.NoTicket?
    ensures Abs(s') == Abs(s)
  {
    NoTicketRefines(s.(sends := s'.sends), s', w);
    TicketLogAppend(s.sends, s'.sends[|s.sends|]);
  }

  lemma LeaveRefines(s: State, s': State, w: nat)
    requires LeaveStep(s, s', w) && (s.workers[w].ticket.Granted? || s.workers[w].ticket.Used?)
    ensures Turn.FinishStep(Abs(s), Abs(s'), Turn.Holder.Worker(w))
  {
    HandsAfter(s.workers, w, s'.workers[w], s.flush);
  }

  lemma FlushTakeRefines(s: State, s': State)
    requires FlushTakeStep(s, s')
    ensures Turn.TakeStep(Abs(s), Abs(s'), Turn.Holder.Flusher)
  {}

  lemma FlushTurnRefines(s: State, s': State)
    requires FlushTurnStep(s, s') && s.flush.ticket.Wanted?
    requires s.line.books[s.flush.event.client].nextTurn <= s.flush.event.sendOrder
    ensures s'.flush == Flushing(Checking, s.flush.event, Granted)
    ensures Turn.GrantStep(Abs(s), Abs(s'), Turn.Holder.Flusher)
  {}

  lemma FlushBeginRefines(s: State, s': State)
    requires FlushBeginStep(s, s') && s.flush.event.client !in s.inactive && s.flush.ticket.Granted?
    ensures Turn.SendStep(Abs(s), Abs(s'), Turn.Holder.Flusher)
  {
    TicketLogAppend(s.sends, s'.sends[|s.sends|]);
  }

  lemma FlushLeaveRefines(s: State, s': State)
    requires FlushLeaveStep(s, s') && !s.flush.ticket.Wanted? && !s.flush.ticket.NoTicket?
    ensures Turn.FinishStep(Abs(s), Abs(s'), Turn.Holder.Flusher)
  {
    assert Abs(s').hands == Abs(s).hands - {Turn.Holder.Flusher};
  }
}
