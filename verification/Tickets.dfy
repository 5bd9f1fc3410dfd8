/**
  Per-client ordering tickets (`assignOrder`, `waitForTurn`, `finishTurn`,
  `cancelTurn`, `advanceCanceledLocked`).

  `Book` is the value of the three fields guarded by `orderMu`; the functions on
  it are the specification that the class `Client` implements and that the
  protocol modules build on.
*/
module Tickets {

  datatype Book = Book(nextOrder: nat, nextTurn: nat, canceled: set<nat>)

  const EMPTY_BOOK := Book(0, 0, {})

  /** What the zero value satisfies and every operation keeps. */
  predicate Valid(b: Book) {
    && (if b.nextOrder == 0 then b.nextTurn == 0 else 1 <= b.nextTurn <= b.nextOrder + 1)
    && (forall k :: k in b.canceled ==> b.nextTurn < k <= b.nextOrder)
  }

  /** Ticket `k` has been handed out and neither finished nor canceled. */
  predicate Outstanding(b: Book, k: nat) {
    1 <= k && b.nextTurn <= k <= b.nextOrder && k !in b.canceled
  }

  function Assign(b: Book): (r: (Book, nat)) {
    (Book(b.nextOrder + 1, if b.nextTurn == 0 then 1 else b.nextTurn, b.canceled), b.nextOrder + 1)
  }

  /** Skips the canceled tickets that have come to the front. */
  function Advance(b: Book): (r: Book)
    decreases |b.canceled|
  {
    if b.nextTurn in b.canceled then
      Advance(Book(b.nextOrder, b.nextTurn + 1, b.canceled - {b.nextTurn}))
    else b
  }

  function Finish(b: Book, order: nat): (r: Book) {
    if order == b.nextTurn then Advance(b.(nextTurn := b.nextTurn + 1)) else b
  }

  function Cancel(b: Book, order: nat): (r: Book) {
    if order == 0 then b
    else if order == b.nextTurn then Advance(b.(nextTurn := b.nextTurn + 1))
    else if order > b.nextTurn then b.(canceled := b.canceled + {order})
    else b
  }

  /** Handing out a ticket: it is new, the largest, and the only change. */
  lemma AssignAddsLargest(b: Book, k: nat)
    requires Valid(b)
    ensures var (b', order) := Assign(b);
            && Valid(b')
            && (Outstanding(b, k) ==> k < order)
            && (Outstanding(b', k) <==> Outstanding(b, k) || k == order)
  {}

  lemma {:induction false} AdvanceStops(b: Book)
    requires forall k :: k in b.canceled ==> b.nextTurn <= k <= b.nextOrder
    requires 1 <= b.nextOrder && 1 <= b.nextTurn <= b.nextOrder + 1
    ensures Valid(Advance(b)) && Advance(b).nextOrder == b.nextOrder
    ensures b.nextTurn <= Advance(b).nextTurn
    ensures forall k :: Outstanding(Advance(b), k) <==> Outstanding(b, k)
    decreases |b.canceled|
  {
    if b.nextTurn in b.canceled {
      AdvanceStops(Book(b.nextOrder, b.nextTurn + 1, b.canceled - {b.nextTurn}));
    }
  }

  /** The turn is always the least outstanding ticket: nothing ever waits for a ticket nobody holds. */
  lemma TurnIsLeast(b: Book, k: nat)
    requires Valid(b) && Outstanding(b, k)
    ensures b.nextTurn <= k && Outstanding(b, b.nextTurn)
  {}

  /** Finishing the ticket whose turn it is takes exactly that ticket away. */
  lemma FinishRemovesTurn(b: Book, order: nat)
    requires Valid(b) && Outstanding(b, order) && order == b.nextTurn
    ensures Valid(Finish(b, order)) && Finish(b, order).nextOrder == b.nextOrder
    ensures order < Finish(b, order).nextTurn
    ensures forall k :: Outstanding(Finish(b, order), k) <==> Outstanding(b, k) && k != order
  {
    AdvanceStops(b.(nextTurn := b.nextTurn + 1));
  }

  /** Canceling takes exactly that ticket away, in whatever order tickets are canceled. */
  lemma CancelRemoves(b: Book, order: nat)
    requires Valid(b) && Outstanding(b, order)
    ensures Valid(Cancel(b, order)) && Cancel(b, order).nextOrder == b.nextOrder
    ensures b.nextTurn <= Cancel(b, order).nextTurn
    ensures forall k :: Outstanding(Cancel(b, order), k) <==> Outstanding(b, k) && k != order
  {
    if order == b.nextTurn {
      AdvanceStops(b.(nextTurn := b.nextTurn + 1));
    }
  }

  /** The ordering fields of the source's `client` and the methods on them. */
  class Client {
    var nextOrder: nat
    var nextTurn: nat
    var canceledOrders: set<nat>

    function View(): (b: Book)
      reads this
    {
      Book(nextOrder, nextTurn, canceledOrders)
    }

    constructor ()
      ensures View() == EMPTY_BOOK
    {
      nextOrder, nextTurn, canceledOrders := 0, 0, {};
    }

    method AssignOrder() returns (order: nat)
      modifies this
      ensures (View(), order) == Assign(old(View()))
    {
      nextOrder := nextOrder + 1;
      order := nextOrder;
      if nextTurn == 0 {
        nextTurn := 1;
      }
    }

    /** One evaluation of the wait loop: still waiting, or the result returned. */
    method PollTurn(order: nat) returns (waiting: bool, mine: bool)
      ensures waiting <==> order > nextTurn
      ensures !waiting ==> (mine <==> order == nextTurn)
      ensures Valid(View()) && Outstanding(View(), order) && !waiting ==> mine
    {
      waiting := order > nextTurn;
      mine := order == nextTurn;
    }

    method FinishTurn(order: nat)
      modifies this
      ensures View() == Finish(old(View()), order)
    {
      if order == nextTurn {
        nextTurn := nextTurn + 1;
        AdvanceCanceled();
      }
    }

    method CancelTurn(order: nat)
      modifies this
      ensures View() == Cancel(old(View()), order)
    {
      if order == 0 {
        return;
      }
      if order == nextTurn {
        nextTurn := nextTurn + 1;
        AdvanceCanceled();
      } else if order > nextTurn {
        canceledOrders := canceledOrders + {order};
      }
    }

    method AdvanceCanceled()
      modifies this
      ensures View() == Advance(old(View()))
    {
      while nextTurn in canceledOrders
        invariant Advance(View()) == Advance(old(View()))
        decreases |canceledOrders|
      {
        canceledOrders := canceledOrders - {nextTurn};
        nextTurn := nextTurn + 1;
      }
    }
  }
}
