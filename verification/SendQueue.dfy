/**
  `eventQueue`: a slice with a moving head, compacted now and then and filtered
  in place, proved to be the FIFO value of `Line`. Each method is one critical
  section of the source; waiting on the two token channels is in `Wakeups`.
*/
module SendQueue {
  import opened Options
  import opened Tickets
  import opened Line

  datatype PushOutcome = Pushed | Full | PushClosed
  datatype PopOutcome = Got(event: ClientEvent) | Empty | PopClosed

  /** Slots below the head are cleared, the others are filled. */
  predicate SlotsValid(slots: seq<Option<ClientEvent>>, head: nat) {
    && head <= |slots|
    && (forall i :: 0 <= i < |slots| ==> (slots[i].None? <==> i < head))
  }

  function Live(slots: seq<Option<ClientEvent>>, head: nat): (r: seq<ClientEvent>)
    requires SlotsValid(slots, head)
    ensures |r| == |slots| - head
    ensures forall i :: 0 <= i < |r| ==> r[i] == slots[head + i].value
  {
    seq(|slots| - head, i requires 0 <= i < |slots| - head => slots[head + i].value)
  }

  lemma LiveAppend(slots: seq<Option<ClientEvent>>, head: nat, e: ClientEvent)
    requires SlotsValid(slots, head)
    ensures SlotsValid(slots + [Some(e)], head) && Live(slots + [Some(e)], head) == Live(slots, head) + [e]
  {}

  function Books(clients: seq<Client>): (r: seq<Book>)
    reads clients
    ensures |r| == |clients|
    ensures forall g :: 0 <= g < |clients| ==> r[g] == clients[g].View()
  {
    seq(|clients|, g requires 0 <= g < |clients| reads clients => clients[g].View())
  }

  class SendQueue {
    var slots: seq<Option<ClientEvent>>
    var head: nat
    const capacity: nat
    var closed: bool
    /** The tokens in the one-slot channels. */
    var itemReady: bool
    var spaceReady: bool
    /** The client generations, by number. */
    var clients: seq<Client>

    ghost predicate Valid()
      reads this, clients
    {
      && SlotsValid(slots, head)
      && (forall g, h :: 0 <= g < h < |clients| ==> clients[g] != clients[h])
      && KnownClients(Live(slots, head), Books(clients))
    }

    ghost function View(): (l: Line)
      reads this, clients
      requires SlotsValid(slots, head)
    {
      Line(Live(slots, head), Books(clients))
    }

    function Size(): (n: int)
      reads this
    {
      |slots| - head
    }

    constructor (capacity: nat)
      ensures Valid() && View() == Line([], []) && !closed && this.capacity == capacity
      ensures !itemReady && !spaceReady
    {
      this.capacity := capacity;
      slots, head, closed, itemReady, spaceReady, clients := [], 0, false, false, false, [];
    }

    method OpenClient()
      requires Valid()
      modifies this`clients
      ensures Valid() && |clients| == |old(clients)| + 1 && fresh(clients[|clients| - 1])
      ensures View() == old(View()).(books := old(View()).books + [EMPTY_BOOK])
    {
      var c := new Client();
      clients := clients + [c];
    }

    /** The critical section of `push`. */
    method TryPush(e: ClientEvent) returns (outcome: PushOutcome)
      requires Valid() && e.client < |clients|
      modifies this, clients[e.client]
      ensures Valid() && clients == old(clients) && closed == old(closed)
      ensures outcome == if closed then PushClosed else if old(Size()) < capacity then Pushed else Full
      ensures outcome.Pushed? ==> View() == Append(old(View()), e) && itemReady
      ensures outcome.Pushed? ==> (spaceReady <==> old(spaceReady) || Size() < capacity)
      ensures !outcome.Pushed? ==> View() == old(View()) && itemReady == old(itemReady) && spaceReady == old(spaceReady)
    {
      if closed {
        return PushClosed;
      }
      if Size() < capacity {
        var order := AssignInPlace(clients, e.client);
        LiveAppend(slots, head, e.(sendOrder := order));
        slots := slots + [Some(e.(sendOrder := order))];
        itemReady := true;
        if Size() < capacity {
          spaceReady := true;
        }
        return Pushed;
      }
      return Full;
    }

    /** The critical section of `pop`. */
    method TryPop() returns (outcome: PopOutcome)
      requires Valid()
      modifies this
      ensures Valid() && clients == old(clients) && closed == old(closed)
      ensures outcome.PopClosed? <==> closed
      ensures outcome.Got? <==> !closed && old(View()).items != []
      ensures outcome.Got? ==> old(View()).items == [outcome.event] + View().items && View().books == old(View()).books
      ensures outcome.Got? ==> spaceReady && (itemReady <==> old(itemReady) || View().items != [])
      ensures !outcome.Got? ==> View() == old(View()) && itemReady == old(itemReady) && spaceReady == old(spaceReady)
    {
      if closed {
        return PopClosed;
      }
      if Size() > 0 {
        var e := slots[head].value;
        slots := slots[head := None];
        head := head + 1;
        assert Live(slots, head) == old(Live(slots, head))[1..];
        Compact();
        spaceReady := true;
        if Size() > 0 {
          itemReady := true;
        }
        return Got(e);
      }
      return Empty;
    }

    /** `compactLocked`: nothing observable changes. */
    method Compact()
      requires SlotsValid(slots, head)
      modifies this`slots, this`head
      ensures SlotsValid(slots, head) && Live(slots, head) == old(Live(slots, head))
      ensures head < 1024 || head * 2 < |slots|
    {
      if head == |slots| {
        slots, head := [], 0;
        return;
      }
      if head >= 1024 && head * 2 >= |slots| {
        slots := slots[head..];
        head := 0;
      }
    }

    method Close()
      requires Valid()
      modifies this`closed
      ensures Valid() && closed && View() == old(View())
    {
      closed := true;
    }

    method Drain() returns (all: seq<ClientEvent>)
      requires Valid()
      modifies this`slots, this`head, this`spaceReady
      ensures Valid() && all == old(View()).items && View() == old(View()).(items := []) && spaceReady
    {
      all := Live(slots, head);
      slots, head := [], 0;
      spaceReady := true;
    }

    /** `remove`: dropped events lose their ticket. */
    method Remove(drop: ClientEvent -> bool)
      requires Valid()
      modifies this, clients
      ensures Valid() && clients == old(clients) && closed == old(closed) && itemReady == old(itemReady)
      ensures View() == Discard(old(View()), drop) && spaceReady
    {
      slots := FilterInPlace(slots, head, clients, drop);
      head := 0;
      spaceReady := true;
      forall i | 0 <= i < |Live(slots, head)|
        ensures Live(slots, head)[i].client < |clients|
      {
        KeepContains(old(Live(slots, head)), drop, Live(slots, head)[i]);
      }
    }
  }

  /** The loop of `remove`. `i` reads the buffer while `kept`, never ahead of it, rewrites its front. */
  method FilterInPlace(slots: seq<Option<ClientEvent>>, head: nat, clients: seq<Client>, drop: ClientEvent -> bool)
    returns (buffer: seq<Option<ClientEvent>>)
    requires SlotsValid(slots, head) && KnownClients(Live(slots, head), Books(clients))
    requires forall g, h :: 0 <= g < h < |clients| ==> clients[g] != clients[h]
    modifies clients
    ensures SlotsValid(buffer, 0) && Live(buffer, 0) == Keep(Live(slots, head), drop)
    ensures Books(clients) == CancelMatching(Live(slots, head), old(Books(clients)), drop)
  {
    ghost var all, books := Live(slots, head), Books(clients);
    buffer := slots;
    var kept, i := 0, head;
    while i < |buffer|
      invariant head <= i <= |buffer| == |slots| && 0 <= kept <= i - head
      invariant forall k :: i <= k < |slots| ==> buffer[k] == slots[k]
      invariant forall k :: 0 <= k < kept ==> buffer[k].Some?
      invariant Unwrap(buffer[..kept]) == Keep(all[..i - head], drop)
      invariant CancelMatching(all[i - head..], Books(clients), drop) == CancelMatching(all, books, drop)
    {
      var e := buffer[i].value;
      NextRound(all, i - head, Books(clients), drop);
      if drop(e) {
        CancelInPlace(clients, e);
      } else {
        buffer := MoveToFront(buffer, kept, i, e);
        kept := kept + 1;
      }
      i := i + 1;
    }
    assert all[..|buffer| - head] == all;
    buffer := buffer[..kept];
    UnwrapIsLive(buffer);
  }

  function MoveToFront(buffer: seq<Option<ClientEvent>>, kept: nat, i: nat,
                       e: ClientEvent): (r: seq<Option<ClientEvent>>)
    requires kept <= i < |buffer| && forall k :: 0 <= k < kept ==> buffer[k].Some?
    ensures |r| == |buffer| && forall k :: i < k < |r| ==> r[k] == buffer[k]
    ensures forall k :: 0 <= k < kept + 1 ==> r[k].Some?
    ensures Unwrap(r[..kept + 1]) == Unwrap(buffer[..kept]) + [e]
  {
    var r := buffer[kept := Some(e)];
    assert r[..kept + 1] == buffer[..kept] + [Some(e)];
    UnwrapAppend(buffer[..kept], e);
    r
  }

  /** `event.client.assignOrder()`, seen on the books of all clients. */
  method AssignInPlace(clients: seq<Client>, g: nat) returns (order: nat)
    requires g < |clients|
    requires forall h, i :: 0 <= h < i < |clients| ==> clients[h] != clients[i]
    modifies clients[g]
    ensures Books(clients) == old(Books(clients))[g := Assign(old(Books(clients))[g]).0]
    ensures order == Assign(old(Books(clients))[g]).1
  {
    order := clients[g].AssignOrder();
  }

  /** `event.client.cancelTurn(event.sendOrder)`, seen on the books of all clients. */
  method CancelInPlace(clients: seq<Client>, e: ClientEvent)
    requires e.client < |clients|
    requires forall g, h :: 0 <= g < h < |clients| ==> clients[g] != clients[h]
    modifies clients[e.client]
    ensures Books(clients) == old(Books(clients))[e.client := Cancel(old(Books(clients))[e.client], e.sendOrder)]
  {
    clients[e.client].CancelTurn(e.sendOrder);
  }

  /** What one round of the loop does to the two specification functions. */
  lemma NextRound(all: seq<ClientEvent>, i: nat, books: seq<Book>, drop: ClientEvent -> bool)
    requires i < |all| && KnownClients(all, books)
    ensures Keep(all[..i + 1], drop) == Keep(all[..i], drop) + if drop(all[i]) then [] else [all[i]]
    ensures CancelMatching(all[i..], books, drop) ==
            CancelMatching(all[i + 1..],
                           if drop(all[i]) then books[all[i].client := Cancel(books[all[i].client], all[i].sendOrder)] else books,
                           drop)
  {
    assert all[..i + 1] == all[..i] + [all[i]];
    KeepAppend(all[..i], all[i], drop);
    assert all[i..][0] == all[i] && all[i..][1..] == all[i + 1..];
  }

  function Unwrap(slots: seq<Option<ClientEvent>>): (r: seq<ClientEvent>)
    requires forall k :: 0 <= k < |slots| ==> slots[k].Some?
  {
    if slots == [] then [] else [slots[0].value] + Unwrap(slots[1..])
  }

  lemma {:induction false} UnwrapAppend(slots: seq<Option<ClientEvent>>, e: ClientEvent)
    requires forall k :: 0 <= k < |slots| ==> slots[k].Some?
    ensures Unwrap(slots + [Some(e)]) == Unwrap(slots) + [e]
  {
    if slots != [] {
      UnwrapAppend(slots[1..], e);
      assert (slots + [Some(e)])[1..] == slots[1..] + [Some(e)];
    }
  }

  lemma {:induction false} UnwrapIsLive(slots: seq<Option<ClientEvent>>)
    requires forall k :: 0 <= k < |slots| ==> slots[k].Some?
    ensures SlotsValid(slots, 0) && Unwrap(slots) == Live(slots, 0)
  {
    if slots != [] {
      UnwrapIsLive(slots[1..]);
    }
  }
}
