/**
  The retry queue as a value: a bounded collection served in the strict order
  of (due time, schedule sequence). `RetryQueue` implements it with a binary
  heap; `Delivery` uses it.
*/
module Retries {
  import opened Options
  import opened Line

  datatype Retries = Retries(items: multiset<ClientEvent>, capacity: nat, sequence: nat, closed: bool)

  /** `retryHeap.Less`. */
  predicate Before(a: ClientEvent, b: ClientEvent) {
    if a.retryAfter == b.retryAfter then a.retryOrder < b.retryOrder else a.retryAfter < b.retryAfter
  }

  ghost predicate Earliest(e: ClientEvent, items: multiset<ClientEvent>) {
    e in items && forall x :: x in items ==> !Before(x, e)
  }

  /** Sequence numbers tell the entries apart, so the order on them is strict and total. */
  ghost predicate Numbered(q: Retries) {
    && (forall e :: e in q.items ==> q.items[e] == 1 && 1 <= e.retryOrder <= q.sequence)
    && (forall a, b :: a in q.items && b in q.items && a.retryOrder == b.retryOrder ==> a == b)
  }

  /** `schedule`: `back` is what the caller is handed to wait for itself. */
  ghost predicate Scheduled(q: Retries, e: ClientEvent, q': Retries, back: Option<ClientEvent>)
    requires !q.closed
  {
    var e' := e.(retryOrder := q.sequence + 1);
    var all := q.items + multiset{e'};
    && q'.sequence == q.sequence + 1 && q'.capacity == q.capacity && !q'.closed
    && if |q.items| < q.capacity then
         back.None? && q'.items == all
       else
         back.Some? && Earliest(back.value, all) && q'.items == all - multiset{back.value}
  }

  /** `popDue` at time `now`. */
  ghost predicate Popped(q: Retries, now: int, q': Retries, due: Option<ClientEvent>)
    requires !q.closed
  {
    if due.Some? then
      Earliest(due.value, q.items) && due.value.retryAfter <= now && q' == q.(items := q.items - multiset{due.value})
    else
      q' == q && forall e :: e in q.items ==> now < e.retryAfter
  }

  /** `remove`: exactly the non-matching entries stay. */
  ghost predicate Removed(q: Retries, drop: ClientEvent -> bool, q': Retries) {
    && q'.capacity == q.capacity && q'.sequence == q.sequence && q'.closed == q.closed
    && forall e :: q'.items[e] == if drop(e) then 0 else q.items[e]
  }

  lemma EarliestIsStrictlyFirst(q: Retries, e: ClientEvent)
    requires Numbered(q) && Earliest(e, q.items)
    ensures forall x :: x in q.items && x != e ==> Before(e, x)
    ensures forall x :: x in q.items && x != e ==>
              e.retryAfter < x.retryAfter || (e.retryAfter == x.retryAfter && e.retryOrder < x.retryOrder)
  {}

  lemma ScheduledKeepsBound(q: Retries, e: ClientEvent, q': Retries, back: Option<ClientEvent>)
    requires !q.closed && Numbered(q) && |q.items| <= q.capacity && Scheduled(q, e, q', back)
    ensures Numbered(q') && |q'.items| <= q'.capacity
    ensures q'.items + (if back.Some? then multiset{back.value} else multiset{})
            == q.items + multiset{e.(retryOrder := q.sequence + 1)}
    ensures back.Some? ==> forall x :: x in q'.items ==> Before(back.value, x)
  {
    var e' := e.(retryOrder := q.sequence + 1);
    var all := q.(items := q.items + multiset{e'}, sequence := q.sequence + 1);
    AddedKeepsNumbered(q, e');
    if back.Some? {
      assert back.value in all.items;
      TakenKeepsNumbered(all, back.value);
      EarliestIsStrictlyFirst(all, back.value);
    }
  }

  lemma AddedKeepsNumbered(q: Retries, e: ClientEvent)
    requires Numbered(q) && e.retryOrder == q.sequence + 1
    ensures Numbered(q.(items := q.items + multiset{e}, sequence := q.sequence + 1))
    ensures |q.items + multiset{e}| == |q.items| + 1
  {
    assert e !in q.items;
  }

  lemma TakenKeepsNumbered(q: Retries, e: ClientEvent)
    requires Numbered(q) && e in q.items
    ensures Numbered(q.(items := q.items - multiset{e}))
    ensures |q.items - multiset{e}| == |q.items| - 1 && e !in q.items - multiset{e}
  {
    forall x | x in q.items - multiset{e}
      ensures x in q.items && (q.items - multiset{e})[x] == 1
    {}
  }

  lemma ScheduledHandsBack(q: Retries, e: ClientEvent, q': Retries, back: ClientEvent)
    requires !q.closed && Scheduled(q, e, q', Some(back))
    ensures back in q.items + multiset{e.(retryOrder := q.sequence + 1)}
    ensures q'.items == q.items + multiset{e.(retryOrder := q.sequence + 1)} - multiset{back}
  {}

  /** What is there afterwards, or handed back, was there before or is the new entry. */
  lemma ScheduledWasThere(q: Retries, e: ClientEvent, q': Retries, back: Option<ClientEvent>, x: ClientEvent)
    requires !q.closed && Scheduled(q, e, q', back) && (x in q'.items || back == Some(x))
    ensures x in q.items || x == e.(retryOrder := q.sequence + 1)
  {
    assert x in q.items + multiset{e.(retryOrder := q.sequence + 1)};
  }

  /** What is not handed back is kept. */
  lemma ScheduledKeeps(q: Retries, e: ClientEvent, q': Retries, back: Option<ClientEvent>, x: ClientEvent)
    requires !q.closed && Scheduled(q, e, q', back) && back != Some(x)
    requires x in q.items || x == e.(retryOrder := q.sequence + 1)
    ensures x in q'.items
  {
    assert x in q.items + multiset{e.(retryOrder := q.sequence + 1)};
  }

  lemma RemovedKeepsNumbered(q: Retries, drop: ClientEvent -> bool, q': Retries)
    requires Numbered(q) && Removed(q, drop, q')
    ensures Numbered(q') && |q'.items| <= |q.items|
  {
    assert q.items == q'.items + (q.items - q'.items);
    forall e | e in q'.items
      ensures e in q.items && q'.items[e] == q.items[e]
    {}
  }

  /** Something is always first, so handing one entry back is always possible. */
  lemma {:induction false} EarliestExists(items: multiset<ClientEvent>) returns (e: ClientEvent)
    requires items != multiset{}
    ensures Earliest(e, items)
    decreases |items|
  {
    var x :| x in items;
    var rest := items - multiset{x};
    if rest == multiset{} {
      assert items == multiset{x};
      e := x;
    } else {
      var y := EarliestExists(rest);
      e := if Before(x, y) then x else y;
      forall z | z in items
        ensures !Before(z, e)
      {
        assert z == x || z in rest;
      }
    }
  }
}
