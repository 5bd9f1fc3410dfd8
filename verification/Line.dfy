/**
  The send queue as a value: the queued events in order, together with the
  ordering tickets of every client generation, which `push` and `remove` change
  in the same critical section. `SendQueue` implements these functions;
  `TurnOrder` and `Delivery` use them.
*/
module Line {
  import opened Tickets

  /** One delivery (`ClientEvent`). `client` is the number of its client generation. */
  datatype ClientEvent = ClientEvent(
    id: nat,
    client: nat,
    replayable: bool,
    attempts: nat,
    sendOrder: nat,
    retryAfter: int,
    retryOrder: nat)

  datatype Line = Line(items: seq<ClientEvent>, books: seq<Book>)

  predicate KnownClients(items: seq<ClientEvent>, books: seq<Book>) {
    forall i :: 0 <= i < |items| ==> items[i].client < |books|
  }

  /** The predicate `removePending` passes to both queues. */
  function Pending(client: nat, replayableOnly: bool): ClientEvent -> bool {
    (e: ClientEvent) => e.client == client && (!replayableOnly || e.replayable)
  }

  function Append(l: Line, e: ClientEvent): (r: Line)
    requires e.client < |l.books|
    ensures |r.books| == |l.books|
  {
    var (book, order) := Assign(l.books[e.client]);
    Line(l.items + [e.(sendOrder := order)], l.books[e.client := book])
  }

  function Keep(items: seq<ClientEvent>, drop: ClientEvent -> bool): (r: seq<ClientEvent>)
    ensures |r| <= |items|
  {
    if items == [] then []
    else (if drop(items[0]) then [] else [items[0]]) + Keep(items[1..], drop)
  }

  /** Exactly the events that do not match are kept. */
  lemma {:induction false} KeepContains(items: seq<ClientEvent>, drop: ClientEvent -> bool, e: ClientEvent)
    ensures e in Keep(items, drop) <==> e in items && !drop(e)
  {
    if items != [] {
      KeepContains(items[1..], drop, e);
      assert items == [items[0]] + items[1..];
    }
  }

  function CancelMatching(items: seq<ClientEvent>, books: seq<Book>, drop: ClientEvent -> bool): (r: seq<Book>)
    requires KnownClients(items, books)
    ensures |r| == |books|
  {
    if items == [] then books
    else
      var e := items[0];
      CancelMatching(items[1..],
                     if drop(e) then books[e.client := Cancel(books[e.client], e.sendOrder)] else books,
                     drop)
  }

  function Discard(l: Line, drop: ClientEvent -> bool): (r: Line)
    requires KnownClients(l.items, l.books)
    ensures |r.books| == |l.books|
  {
    Line(Keep(l.items, drop), CancelMatching(l.items, l.books, drop))
  }

  /** Some event of `items` holds ticket `order` of `client`. */
  predicate Queued(items: seq<ClientEvent>, client: nat, order: nat) {
    exists i :: 0 <= i < |items| && items[i].client == client && items[i].sendOrder == order
  }

  predicate BooksValid(books: seq<Book>) {
    forall g :: 0 <= g < |books| ==> Valid(books[g])
  }

  predicate HoldsTickets(items: seq<ClientEvent>, books: seq<Book>) {
    forall i :: 0 <= i < |items| ==>
      items[i].client < |books| && Outstanding(books[items[i].client], items[i].sendOrder)
  }

  /** Events of one client are queued in ticket order. */
  predicate InTicketOrder(items: seq<ClientEvent>) {
    forall i, j :: 0 <= i < j < |items| && items[i].client == items[j].client ==>
      items[i].sendOrder < items[j].sendOrder
  }

  predicate DistinctIds(items: seq<ClientEvent>) {
    forall i, j :: 0 <= i < j < |items| ==> items[i].id != items[j].id
  }

  lemma KeptFromRest(items: seq<ClientEvent>, drop: ClientEvent -> bool, j: nat) returns (k: nat)
    requires items != [] && j < |Keep(items[1..], drop)|
    ensures 0 < k < |items| && items[k] == Keep(items[1..], drop)[j]
  {
    KeepContains(items[1..], drop, Keep(items[1..], drop)[j]);
    var i :| 0 <= i < |items[1..]| && items[1..][i] == Keep(items[1..], drop)[j];
    k := i + 1;
  }

  /** Filtering keeps the relative order of what it keeps. */
  lemma {:induction false} KeepInTicketOrder(items: seq<ClientEvent>, drop: ClientEvent -> bool)
    requires InTicketOrder(items)
    ensures InTicketOrder(Keep(items, drop))
  {
    if items != [] {
      var rest := Keep(items[1..], drop);
      KeepInTicketOrder(items[1..], drop);
      forall j | 0 <= j < |rest|
        ensures items[0].client == rest[j].client ==> items[0].sendOrder < rest[j].sendOrder
      {
        var k := KeptFromRest(items, drop, j);
      }
    }
  }

  lemma {:induction false} KeepDistinctIds(items: seq<ClientEvent>, drop: ClientEvent -> bool)
    requires DistinctIds(items)
    ensures DistinctIds(Keep(items, drop))
  {
    if items != [] {
      var rest := Keep(items[1..], drop);
      KeepDistinctIds(items[1..], drop);
      forall j | 0 <= j < |rest|
        ensures items[0].id != rest[j].id
      {
        var k := KeptFromRest(items, drop, j);
      }
    }
  }

  predicate Hits(e: ClientEvent, drop: ClientEvent -> bool, client: nat, order: nat) {
    drop(e) && e.client == client && e.sendOrder == order
  }

  predicate CanceledBy(items: seq<ClientEvent>, drop: ClientEvent -> bool, client: nat, order: nat) {
    exists i :: 0 <= i < |items| && Hits(items[i], drop, client, order)
  }

  lemma CanceledByFirst(items: seq<ClientEvent>, drop: ClientEvent -> bool, client: nat, order: nat)
    requires items != []
    ensures CanceledBy(items, drop, client, order) <==>
            Hits(items[0], drop, client, order) || CanceledBy(items[1..], drop, client, order)
  {
    if CanceledBy(items[1..], drop, client, order) {
      var i :| 0 <= i < |items[1..]| && Hits(items[1..][i], drop, client, order);
      assert Hits(items[i + 1], drop, client, order);
    }
    if CanceledBy(items, drop, client, order) {
      var i :| 0 <= i < |items| && Hits(items[i], drop, client, order);
      assert i > 0 ==> items[i] == items[1..][i - 1];
    }
  }

  /** One step of `CancelMatching`, on valid books. */
  lemma CancelFirst(items: seq<ClientEvent>, books: seq<Book>)
    requires items != [] && BooksValid(books) && HoldsTickets(items, books) && InTicketOrder(items)
    ensures var next := books[items[0].client := Cancel(books[items[0].client], items[0].sendOrder)];
            BooksValid(next) && HoldsTickets(items[1..], next)
  {
    CancelRemoves(books[items[0].client], items[0].sendOrder);
    var next := books[items[0].client := Cancel(books[items[0].client], items[0].sendOrder)];
    forall i | 0 <= i < |items[1..]|
      ensures items[1..][i].client < |next| && Outstanding(next[items[1..][i].client], items[1..][i].sendOrder)
    {
      assert items[1..][i] == items[i + 1];
    }
  }

  lemma {:induction false} KeepAppend(items: seq<ClientEvent>, e: ClientEvent, drop: ClientEvent -> bool)
    ensures Keep(items + [e], drop) == Keep(items, drop) + if drop(e) then [] else [e]
  {
    if items != [] {
      KeepAppend(items[1..], e, drop);
      assert (items + [e])[1..] == items[1..] + [e];
    }
  }

  /** Removing events cancels exactly the tickets they hold, in whatever order the tickets come. */
  lemma {:induction false} CancelMatchingRemoves(
    items: seq<ClientEvent>, books: seq<Book>, drop: ClientEvent -> bool, g: nat, k: nat)
    requires BooksValid(books) && HoldsTickets(items, books) && InTicketOrder(items) && g < |books|
    ensures KnownClients(items, books)
    ensures BooksValid(CancelMatching(items, books, drop))
    ensures CancelMatching(items, books, drop)[g].nextOrder == books[g].nextOrder
    ensures books[g].nextTurn <= CancelMatching(items, books, drop)[g].nextTurn
    ensures Outstanding(CancelMatching(items, books, drop)[g], k) <==>
            Outstanding(books[g], k) && !CanceledBy(items, drop, g, k)
  {
    if items != [] {
      CanceledByFirst(items, drop, g, k);
      if drop(items[0]) {
        CancelFirst(items, books);
        CancelRemoves(books[items[0].client], items[0].sendOrder);
        var e := items[0];
        CancelMatchingRemoves(items[1..], books[e.client := Cancel(books[e.client], e.sendOrder)], drop, g, k);
      } else {
        CancelMatchingRemoves(items[1..], books, drop, g, k);
      }
    }
  }
}
