/**
  The ordering protocol of the send queue, with the rest of the bus abstracted
  away: events are pushed with a ticket, taken from the front by any number of
  holders (workers, or the shutdown flush), discarded from the middle, and each
  holder may send only when its ticket has the turn.

  `Delivery` proves that the whole delivery engine only ever does these steps.
*/
module TurnOrder {
  import opened Tickets
  import opened Line

  datatype Holder = Worker(index: nat) | Flusher

  /** An event in a holder's hand. `granted`: `waitForTurn` has returned true. `sent`: its send has begun. */
  datatype Hand = Hand(id: nat, client: nat, order: nat, granted: bool, sent: bool)

  /** A send begun under ticket `order`. */
  datatype Sent = Sent(id: nat, client: nat, order: nat)

  /** `pushed[g]` and `log` are histories: what was pushed for `g`, and every ticketed send so far. */
  datatype State = State(line: Line, pushed: seq<seq<nat>>, hands: map<Holder, Hand>, log: seq<Sent>)

  ghost predicate Init(s: State) {
    s == State(Line([], []), [], map[], [])
  }

  ghost predicate OpenStep(s: State, s': State) {
    s' == s.(line := s.line.(books := s.line.books + [EMPTY_BOOK]), pushed := s.pushed + [[]])
  }

  ghost predicate PushStep(s: State, s': State, e: ClientEvent) {
    && e.client < |s.line.books| == |s.pushed|
    && s' == s.(line := Append(s.line, e), pushed := s.pushed[e.client := s.pushed[e.client] + [e.id]])
  }

  ghost predicate TakeStep(s: State, s': State, h: Holder) {
    && h !in s.hands && s.line.items != []
    && var e := s.line.items[0];
       s' == s.(line := s.line.(items := s.line.items[1..]),
                hands := s.hands[h := Hand(e.id, e.client, e.sendOrder, false, false)])
  }

  ghost predicate RemoveStep(s: State, s': State, client: nat, replayableOnly: bool) {
    && KnownClients(s.line.items, s.line.books)
    && s' == s.(line := Discard(s.line, Pending(client, replayableOnly)))
  }

  ghost predicate GrantStep(s: State, s': State, h: Holder) {
    && h in s.hands && s.hands[h].client < |s.line.books|
    && s.hands[h].order == s.line.books[s.hands[h].client].nextTurn
    && s' == s.(hands := s.hands[h := s.hands[h].(granted := true)])
  }

  ghost predicate SendStep(s: State, s': State, h: Holder) {
    && h in s.hands && s.hands[h].granted && !s.hands[h].sent
    && s' == s.(hands := s.hands[h := s.hands[h].(sent := true)],
                log := s.log + [Sent(s.hands[h].id, s.hands[h].client, s.hands[h].order)])
  }

  ghost predicate FinishStep(s: State, s': State, h: Holder) {
    && h in s.hands && s.hands[h].granted && s.hands[h].client < |s.line.books|
    && var c := s.hands[h].client;
       s' == s.(line := s.line.(books := s.line.books[c := Tickets.Finish(s.line.books[c], s.hands[h].order)]),
                hands := s.hands - {h})
  }

  ghost predicate Next(s: State, s': State) {
    || s' == s
    || OpenStep(s, s')
    || (exists e :: PushStep(s, s', e))
    || (exists h :: TakeStep(s, s', h))
    || (exists client, replayableOnly :: RemoveStep(s, s', client, replayableOnly))
    || (exists h :: GrantStep(s, s', h))
    || (exists h :: SendStep(s, s', h))
    || (exists h :: FinishStep(s, s', h))
  }

  // ---------------------------------------------------------------- invariant

  ghost predicate BooksMatch(books: seq<Book>, pushed: seq<seq<nat>>) {
    && BooksValid(books) && |pushed| == |books|
    && (forall g :: 0 <= g < |books| ==> |pushed[g]| == books[g].nextOrder)
  }

  /** `order` is a ticket of `client` handed to event `id`. */
  ghost predicate Issued(pushed: seq<seq<nat>>, id: nat, client: nat, order: nat) {
    client < |pushed| && 1 <= order <= |pushed[client]| && pushed[client][order - 1] == id
  }

  ghost predicate ItemsIssued(items: seq<ClientEvent>, pushed: seq<seq<nat>>) {
    forall i :: 0 <= i < |items| ==> Issued(pushed, items[i].id, items[i].client, items[i].sendOrder)
  }

  ghost predicate HandsHoldTickets(hands: map<Holder, Hand>, books: seq<Book>) {
    forall h :: h in hands ==>
      && hands[h].client < |books|
      && Outstanding(books[hands[h].client], hands[h].order)
      && (hands[h].sent ==> hands[h].granted)
      && (hands[h].granted ==> hands[h].order == books[hands[h].client].nextTurn)
  }

  ghost predicate HandsIssued(hands: map<Holder, Hand>, pushed: seq<seq<nat>>) {
    forall h :: h in hands ==> Issued(pushed, hands[h].id, hands[h].client, hands[h].order)
  }

  ghost predicate HandsDistinct(hands: map<Holder, Hand>) {
    forall h, h' :: h in hands && h' in hands && hands[h].client == hands[h'].client && hands[h].order == hands[h'].order
      ==> h == h'
  }

  /** What has been taken was ahead of everything of the same client that is still queued. */
  ghost predicate HandsAhead(hands: map<Holder, Hand>, items: seq<ClientEvent>) {
    forall h, i :: h in hands && 0 <= i < |items| && hands[h].client == items[i].client
      ==> hands[h].order < items[i].sendOrder
  }

  ghost predicate InHand(hands: map<Holder, Hand>, client: nat, order: nat) {
    exists h :: h in hands && hands[h].client == client && hands[h].order == order
  }

  /** No ticket is lost: each outstanding ticket is queued or in somebody's hand. */
  ghost predicate NoneLost(s: State) {
    forall g, k: nat :: 0 <= g < |s.line.books| && Outstanding(s.line.books[g], k)
      ==> Queued(s.line.items, g, k) || InHand(s.hands, g, k)
  }

  ghost predicate LogIssued(log: seq<Sent>, pushed: seq<seq<nat>>) {
    forall i :: 0 <= i < |log| ==> Issued(pushed, log[i].id, log[i].client, log[i].order)
  }

  ghost predicate LogAheadOfItems(log: seq<Sent>, items: seq<ClientEvent>) {
    forall i, j :: 0 <= i < |log| && 0 <= j < |items| && log[i].client == items[j].client ==>
      log[i].order < items[j].sendOrder
  }

  ghost predicate LogAheadOfHands(log: seq<Sent>, hands: map<Holder, Hand>) {
    forall i, h :: 0 <= i < |log| && h in hands && !hands[h].sent && log[i].client == hands[h].client ==>
      log[i].order < hands[h].order
  }

  ghost predicate LogInOrder(log: seq<Sent>) {
    forall i, j :: 0 <= i < j < |log| && log[i].client == log[j].client ==> log[i].order < log[j].order
  }

  ghost predicate ItemsInv(s: State) {
    && BooksMatch(s.line.books, s.pushed)
    && HoldsTickets(s.line.items, s.line.books)
    && InTicketOrder(s.line.items)
    && ItemsIssued(s.line.items, s.pushed)
  }

  ghost predicate HandsInv(s: State) {
    && HandsHoldTickets(s.hands, s.line.books)
    && HandsIssued(s.hands, s.pushed)
    && HandsDistinct(s.hands)
    && HandsAhead(s.hands, s.line.items)
  }

  ghost predicate LogInv(s: State) {
    && LogIssued(s.log, s.pushed)
    && LogAheadOfItems(s.log, s.line.items)
    && LogAheadOfHands(s.log, s.hands)
    && LogInOrder(s.log)
  }

  ghost predicate Inv(s: State) {
    ItemsInv(s) && HandsInv(s) && NoneLost(s) && LogInv(s)
  }

  lemma OpenKeepsInv(s: State, s': State)
    requires Inv(s) && OpenStep(s, s')
    ensures Inv(s')
  {}

  lemma PushKeepsItems(s: State, s': State, e: ClientEvent)
    requires Inv(s) && PushStep(s, s', e)
    ensures ItemsInv(s')
  {}

  lemma PushKeepsHands(s: State, s': State, e: ClientEvent)
    requires Inv(s) && PushStep(s, s', e)
    ensures HandsInv(s')
  {
    forall h | h in s.hands
      ensures Issued(s'.pushed, s.hands[h].id, s.hands[h].client, s.hands[h].order)
    {}
  }

  lemma PushKeepsLog(s: State, s': State, e: ClientEvent)
    requires Inv(s) && PushStep(s, s', e)
    ensures LogInv(s')
  {}

  lemma PushKeepsNoneLost(s: State, s': State, e: ClientEvent)
    requires Inv(s) && PushStep(s, s', e)
    ensures NoneLost(s')
  {
    var order := Assign(s.line.books[e.client]).1;
    forall g, k: nat | 0 <= g < |s'.line.books| && Outstanding(s'.line.books[g], k)
      ensures Queued(s'.line.items, g, k) || InHand(s'.hands, g, k)
    {
      if g == e.client && k == order {
        assert s'.line.items[|s.line.items|].sendOrder == k;
      } else if Queued(s.line.items, g, k) {
        var i :| 0 <= i < |s.line.items| && s.line.items[i].client == g && s.line.items[i].sendOrder == k;
        assert s'.line.items[i] == s.line.items[i];
      }
    }
  }

  lemma TakeKeepsItems(s: State, s': State, h: Holder)
    requires Inv(s) && TakeStep(s, s', h)
    ensures ItemsInv(s')
  {}

  lemma TakeKeepsHands(s: State, s': State, h: Holder)
    requires Inv(s) && TakeStep(s, s', h)
    ensures HandsInv(s')
  {
    forall o, i | o in s'.hands && 0 <= i < |s'.line.items| && s'.hands[o].client == s'.line.items[i].client
      ensures s'.hands[o].order < s'.line.items[i].sendOrder
    {
      assert s'.line.items[i] == s.line.items[i + 1];
    }
  }

  lemma TakeKeepsLog(s: State, s': State, h: Holder)
    requires Inv(s) && TakeStep(s, s', h)
    ensures LogInv(s')
  {}

  lemma TakeKeepsNoneLost(s: State, s': State, h: Holder)
    requires Inv(s) && TakeStep(s, s', h)
    ensures NoneLost(s')
  {
    forall g, k: nat | 0 <= g < |s'.line.books| && Outstanding(s'.line.books[g], k)
      ensures Queued(s'.line.items, g, k) || InHand(s'.hands, g, k)
    {
      if Queued(s.line.items, g, k) {
        var i :| 0 <= i < |s.line.items| && s.line.items[i].client == g && s.line.items[i].sendOrder == k;
        if i == 0 {
          assert s'.hands[h].order == k;
        } else {
          assert s'.line.items[i - 1] == s.line.items[i];
        }
      } else {
        var h0 :| h0 in s.hands && s.hands[h0].client == g && s.hands[h0].order == k;
        assert s'.hands[h0] == s.hands[h0];
      }
    }
  }

  lemma KeptIsNotCanceled(items: seq<ClientEvent>, drop: ClientEvent -> bool, e: ClientEvent)
    requires InTicketOrder(items) && e in Keep(items, drop)
    ensures e in items && !CanceledBy(items, drop, e.client, e.sendOrder)
  {
    KeepContains(items, drop, e);
  }

  lemma RemoveKeepsTickets(s: State, s': State, client: nat, replayableOnly: bool)
    requires Inv(s) && RemoveStep(s, s', client, replayableOnly)
    ensures BooksMatch(s'.line.books, s'.pushed) && NoneLost(s')
    ensures HoldsTickets(s'.line.items, s'.line.books) && HandsHoldTickets(s'.hands, s'.line.books)
  {
    var drop := Pending(client, replayableOnly);
    var items, books, books' := s.line.items, s.line.books, s'.line.books;
    forall g | 0 <= g < |books|
      ensures Valid(books'[g]) && books'[g].nextOrder == books[g].nextOrder && books[g].nextTurn <= books'[g].nextTurn
    {
      CancelMatchingRemoves(items, books, drop, g, 0);
    }
    forall g, k: nat | 0 <= g < |books|
      ensures Outstanding(books'[g], k) <==> Outstanding(books[g], k) && !CanceledBy(items, drop, g, k)
    {
      CancelMatchingRemoves(items, books, drop, g, k);
    }
    forall g, k: nat | 0 <= g < |books| && Outstanding(books'[g], k)
      ensures Queued(s'.line.items, g, k) || InHand(s'.hands, g, k)
    {
      if Queued(items, g, k) {
        var i :| 0 <= i < |items| && items[i].client == g && items[i].sendOrder == k;
        assert !Hits(items[i], drop, g, k);
        KeepContains(items, drop, items[i]);
      }
    }
    forall i | 0 <= i < |s'.line.items|
      ensures s'.line.items[i].client < |books|
      ensures Outstanding(books'[s'.line.items[i].client], s'.line.items[i].sendOrder)
    {
      KeptIsNotCanceled(items, drop, s'.line.items[i]);
    }
    forall h | h in s.hands
      ensures Outstanding(books'[s.hands[h].client], s.hands[h].order)
      ensures s.hands[h].granted ==> s.hands[h].order == books'[s.hands[h].client].nextTurn
    {
      assert !CanceledBy(items, drop, s.hands[h].client, s.hands[h].order);
    }
  }

  lemma RemoveKeepsInv(s: State, s': State, client: nat, replayableOnly: bool)
    requires Inv(s) && RemoveStep(s, s', client, replayableOnly)
    ensures Inv(s')
  {
    RemoveKeepsTickets(s, s', client, replayableOnly);
    KeepInTicketOrder(s.line.items, Pending(client, replayableOnly));
    forall i | 0 <= i < |s'.line.items|
      ensures s'.line.items[i] in s.line.items
    {
      KeepContains(s.line.items, Pending(client, replayableOnly), s'.line.items[i]);
    }
  }

  /** Changing what a holder has done with its ticket moves no ticket. */
  lemma SameTicketsNoneLost(s: State, s': State, h: Holder)
    requires NoneLost(s) && s'.line == s.line && h in s.hands && h in s'.hands
    requires s'.hands == s.hands[h := s'.hands[h]]
    requires s'.hands[h].client == s.hands[h].client && s'.hands[h].order == s.hands[h].order
    ensures NoneLost(s')
  {
    forall g, k: nat | 0 <= g < |s'.line.books| && Outstanding(s'.line.books[g], k)
      ensures Queued(s'.line.items, g, k) || InHand(s'.hands, g, k)
    {
      if !Queued(s.line.items, g, k) {
        var h0 :| h0 in s.hands && s.hands[h0].client == g && s.hands[h0].order == k;
        assert h0 in s'.hands && s'.hands[h0].client == g && s'.hands[h0].order == k;
      }
    }
  }

  lemma GrantKeepsInv(s: State, s': State, h: Holder)
    requires Inv(s) && GrantStep(s, s', h)
    ensures Inv(s')
  {
    SameTicketsNoneLost(s, s', h);
  }

  lemma SendKeepsHands(s: State, s': State, h: Holder)
    requires Inv(s) && SendStep(s, s', h)
    ensures ItemsInv(s') && HandsInv(s') && NoneLost(s')
  {
    SameTicketsNoneLost(s, s', h);
  }

  lemma SendKeepsLog(s: State, s': State, h: Holder)
    requires Inv(s) && SendStep(s, s', h)
    ensures LogInv(s')
  {
    forall i, o | 0 <= i < |s'.log| && o in s'.hands && !s'.hands[o].sent && s'.log[i].client == s'.hands[o].client
      ensures s'.log[i].order < s'.hands[o].order
    {
      assert o != h && s'.hands[o] == s.hands[o];
    }
  }

  lemma FinishKeepsNoneLost(s: State, s': State, h: Holder)
    requires Inv(s) && FinishStep(s, s', h)
    ensures NoneLost(s')
  {
    FinishRemovesTurn(s.line.books[s.hands[h].client], s.hands[h].order);
    forall g, k: nat | 0 <= g < |s'.line.books| && Outstanding(s'.line.books[g], k)
      ensures Queued(s'.line.items, g, k) || InHand(s'.hands, g, k)
    {
      if !Queued(s.line.items, g, k) {
        var h0 :| h0 in s.hands && s.hands[h0].client == g && s.hands[h0].order == k;
        assert h0 in s'.hands;
      }
    }
  }

  lemma FinishKeepsHands(s: State, s': State, h: Holder)
    requires Inv(s) && FinishStep(s, s', h)
    ensures ItemsInv(s') && HandsInv(s')
  {
    FinishRemovesTurn(s.line.books[s.hands[h].client], s.hands[h].order);
  }

  lemma FinishKeepsInv(s: State, s': State, h: Holder)
    requires Inv(s) && FinishStep(s, s', h)
    ensures Inv(s')
  {
    FinishKeepsNoneLost(s, s', h);
    FinishKeepsHands(s, s', h);
  }

  lemma PushKeepsInv(s: State, s': State, e: ClientEvent)
    requires Inv(s) && PushStep(s, s', e)
    ensures Inv(s')
  {
    PushKeepsItems(s, s', e);
    PushKeepsHands(s, s', e);
    PushKeepsNoneLost(s, s', e);
    PushKeepsLog(s, s', e);
  }

  lemma TakeKeepsInv(s: State, s': State, h: Holder)
    requires Inv(s) && TakeStep(s, s', h)
    ensures Inv(s')
  {
    TakeKeepsItems(s, s', h);
    TakeKeepsHands(s, s', h);
    TakeKeepsNoneLost(s, s', h);
    TakeKeepsLog(s, s', h);
  }

  lemma SendKeepsInv(s: State, s': State, h: Holder)
    requires Inv(s) && SendStep(s, s', h)
    ensures Inv(s')
  {
    SendKeepsHands(s, s', h);
    SendKeepsLog(s, s', h);
  }

  /** Every step of the protocol keeps the invariant. */
  lemma NextKeepsInv(s: State, s': State)
    requires Inv(s) && Next(s, s')
    ensures Inv(s')
  {
    if OpenStep(s, s') {
      OpenKeepsInv(s, s');
    } else if e :| PushStep(s, s', e) {
      PushKeepsInv(s, s', e);
    } else if h :| TakeStep(s, s', h) {
      TakeKeepsInv(s, s', h);
    } else if client, replayableOnly :| RemoveStep(s, s', client, replayableOnly) {
      RemoveKeepsInv(s, s', client, replayableOnly);
    } else if h :| GrantStep(s, s', h) {
      GrantKeepsInv(s, s', h);
    } else if h :| SendStep(s, s', h) {
      SendKeepsInv(s, s', h);
    } else if h :| FinishStep(s, s', h) {
      FinishKeepsInv(s, s', h);
    }
  }

  // ------------------------------------------------------------- consequences

  /** A ticket in hand is in nobody else's hand and not in the queue; a queued one is queued once. */
  lemma TicketInOnePlace(s: State, h: Holder, h': Holder, i: nat, j: nat)
    requires Inv(s)
    ensures h in s.hands && h' in s.hands
            && s.hands[h].client == s.hands[h'].client && s.hands[h].order == s.hands[h'].order
            ==> h == h'
    ensures h in s.hands && i < |s.line.items| && s.hands[h].client == s.line.items[i].client
            ==> s.hands[h].order != s.line.items[i].sendOrder
    ensures i < j < |s.line.items| && s.line.items[i].client == s.line.items[j].client
            ==> s.line.items[i].sendOrder != s.line.items[j].sendOrder
  {}

  /** Whenever somebody holds a ticket of a client, somebody holds the ticket whose turn it is. */
  lemma SomebodyHasTheTurn(s: State, h: Holder) returns (front: Holder)
    requires Inv(s) && h in s.hands
    ensures front in s.hands && s.hands[front].client == s.hands[h].client
    ensures s.hands[front].order == s.line.books[s.hands[front].client].nextTurn
  {
    var g := s.hands[h].client;
    var turn := s.line.books[g].nextTurn;
    TurnIsLeast(s.line.books[g], s.hands[h].order);
    assert !Queued(s.line.items, g, turn);
    front :| front in s.hands && s.hands[front].client == g && s.hands[front].order == turn;
  }
}
