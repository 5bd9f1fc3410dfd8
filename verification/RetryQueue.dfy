/**
  `retryQueue` and `retryHeap`: the due-time heap with the sift operations of
  Go's `container/heap`, proved to be the bounded priority queue of `Retries`.
*/
module RetryQueue {
  import opened Options
  import opened Line
  import opened Retries

  function Parent(k: nat): (p: nat)
    ensures k > 0 ==> p < k
  {
    if k == 0 then 0 else (k - 1) / 2
  }

  /** Position `k` is in order with its parent. */
  predicate Ordered(s: seq<ClientEvent>, k: nat)
    requires k < |s|
  {
    !Before(s[k], s[Parent(k)])
  }

  /** The first `n` entries form a heap, looking only at parents from `lo` on. */
  ghost predicate HeapFrom(s: seq<ClientEvent>, lo: nat, n: nat)
    requires n <= |s|
  {
    forall k :: 0 < k < n && lo <= Parent(k) ==> Ordered(s, k)
  }

  ghost predicate IsHeap(s: seq<ClientEvent>) {
    HeapFrom(s, 0, |s|)
  }

  function Swap(s: seq<ClientEvent>, i: nat, j: nat): (r: seq<ClientEvent>)
    requires i < |s| && j < |s|
    ensures |r| == |s| && r[i] == s[j] && r[j] == s[i]
    ensures forall k :: 0 <= k < |s| && k != i && k != j ==> r[k] == s[k]
    ensures multiset(r) == multiset(s)
  {
    s[i := s[j]][j := s[i]]
  }

  lemma {:induction false} RootIsEarliest(s: seq<ClientEvent>, n: nat, k: nat)
    requires n <= |s| && HeapFrom(s, 0, n) && k < n
    ensures !Before(s[k], s[0])
  {
    if k > 0 {
      RootIsEarliest(s, n, Parent(k));
      assert Ordered(s, k);
    }
  }

  lemma HeapRoot(s: seq<ClientEvent>)
    requires IsHeap(s) && s != []
    ensures Earliest(s[0], multiset(s))
  {
    forall x | x in multiset(s)
      ensures !Before(x, s[0])
    {
      var k :| 0 <= k < |s| && s[k] == x;
      RootIsEarliest(s, |s|, k);
    }
  }

  lemma {:induction false} CountKept(s: seq<ClientEvent>, drop: ClientEvent -> bool, e: ClientEvent)
    ensures multiset(Keep(s, drop))[e] == if drop(e) then 0 else multiset(s)[e]
  {
    if s != [] {
      CountKept(s[1..], drop, e);
      assert s == [s[0]] + s[1..];
    }
  }

  /** One swap of `up` leaves only the climbing entry to be checked. */
  lemma SwapUpOrders(s: seq<ClientEvent>, j: nat, k: nat)
    requires 0 < j < |s| && Before(s[j], s[Parent(j)])
    requires forall x :: 0 < x < |s| && x != j ==> Ordered(s, x)
    requires forall x :: 0 < x < |s| && Parent(x) == j ==> !Before(s[x], s[Parent(j)])
    requires 0 < k < |s|
    ensures k != Parent(j) ==> Ordered(Swap(s, Parent(j), j), k)
    ensures Parent(k) == Parent(j) && 0 < Parent(j) ==>
            !Before(Swap(s, Parent(j), j)[k], Swap(s, Parent(j), j)[Parent(Parent(j))])
  {
    assert k != j ==> Ordered(s, k);
    assert 0 < Parent(j) ==> Ordered(s, Parent(j));
  }

  /** One swap of `down` leaves only the children of the sinking entry to be checked. */
  lemma SwapDownOrders(s: seq<ClientEvent>, top: nat, n: nat, i: nat, j: nat, k: nat)
    requires top <= i && i < j < n <= |s| && Parent(j) == i && Before(s[j], s[i])
    requires forall x :: 0 < x < n && Parent(x) == i ==> !Before(s[x], s[j])
    requires forall x :: 0 < x < n && top <= Parent(x) && Parent(x) != i ==> Ordered(s, x)
    requires i > top ==> top <= Parent(i) && forall x :: 0 < x < n && Parent(x) == i ==> !Before(s[x], s[Parent(i)])
    requires 0 < k < n
    ensures top <= Parent(k) && Parent(k) != j ==> Ordered(Swap(s, i, j), k)
    ensures Parent(k) == j ==> !Before(Swap(s, i, j)[k], Swap(s, i, j)[Parent(j)])
  {
    assert Parent(k) == j ==> Ordered(s, k);
    assert top <= Parent(k) && Parent(k) != i ==> Ordered(s, k);
  }

  /** `up`: a new last entry climbs until its parent is not later. */
  method SiftUp(s: seq<ClientEvent>) returns (r: seq<ClientEvent>)
    requires s != [] && HeapFrom(s, 0, |s| - 1)
    ensures IsHeap(r) && multiset(r) == multiset(s)
  {
    r := s;
    var j: nat := |r| - 1;
    while true
      invariant j < |r| == |s| && multiset(r) == multiset(s)
      invariant forall k :: 0 < k < |r| && k != j ==> Ordered(r, k)
      invariant forall k :: 0 < k < |r| && Parent(k) == j && j > 0 ==> !Before(r[k], r[Parent(j)])
      decreases j
    {
      var i := Parent(j);
      if i == j || !Before(r[j], r[i]) {
        break;
      }
      forall k | 0 < k < |r|
        ensures k != i ==> Ordered(Swap(r, i, j), k)
        ensures Parent(k) == i && i > 0 ==> !Before(Swap(r, i, j)[k], Swap(r, i, j)[Parent(i)])
      {
        SwapUpOrders(r, j, k);
      }
      r := Swap(r, i, j);
      j := i;
    }
  }

  /**
    Entry `i` is sinking: everything from `top` on is in order but its children,
    and those are in order with its parent.
  */
  ghost predicate Sinking(s: seq<ClientEvent>, top: nat, n: nat, i: nat)
    requires n <= |s|
  {
    && top <= i && (i > top ==> top <= Parent(i))
    && (forall k :: 0 < k < n && top <= Parent(k) && Parent(k) != i ==> Ordered(s, k))
    && (forall k :: 0 < k < n && Parent(k) == i && i > top ==> !Before(s[k], s[Parent(i)]))
  }

  /** No child of `i` is before `j`, which is one. */
  ghost predicate EarliestChild(s: seq<ClientEvent>, n: nat, i: nat, j: nat)
    requires n <= |s|
  {
    i < j < n && Parent(j) == i && forall k :: 0 < k < n && Parent(k) == i ==> !Before(s[k], s[j])
  }

  lemma SinksOn(s: seq<ClientEvent>, top: nat, n: nat, i: nat, j: nat)
    requires n <= |s| && Sinking(s, top, n, i) && EarliestChild(s, n, i, j) && Before(s[j], s[i])
    ensures Sinking(Swap(s, i, j), top, n, j)
  {
    forall k | 0 < k < n
      ensures top <= Parent(k) && Parent(k) != j ==> Ordered(Swap(s, i, j), k)
      ensures Parent(k) == j ==> !Before(Swap(s, i, j)[k], Swap(s, i, j)[Parent(j)])
    {
      SwapDownOrders(s, top, n, i, j, k);
    }
  }

  lemma SinksNoFurther(s: seq<ClientEvent>, top: nat, n: nat, i: nat, j: nat)
    requires n <= |s| && Sinking(s, top, n, i)
    requires 2 * i + 1 < n ==> EarliestChild(s, n, i, j) && !Before(s[j], s[i])
    ensures HeapFrom(s, top, n)
  {
    forall k | 0 < k < n && top <= Parent(k)
      ensures Ordered(s, k)
    {}
  }

  /** The choice between the two children in `down`. */
  method ChooseChild(s: seq<ClientEvent>, n: nat, i: nat) returns (j: nat)
    requires 2 * i + 1 < n <= |s|
    ensures EarliestChild(s, n, i, j)
  {
    j := 2 * i + 1;
    if j + 1 < n && Before(s[j + 1], s[j]) {
      j := j + 1;
    }
    forall k | 0 < k < n && Parent(k) == i
      ensures k == 2 * i + 1 || k == 2 * i + 2
    {}
  }

  /** `down` on the first `n` entries: entry `top` sinks below every child that is earlier. */
  method SiftDown(s: seq<ClientEvent>, top: nat, n: nat) returns (r: seq<ClientEvent>)
    requires n <= |s| && HeapFrom(s, top + 1, n)
    ensures |r| == |s| && HeapFrom(r, top, n) && multiset(r) == multiset(s)
    ensures forall k :: n <= k < |s| ==> r[k] == s[k]
  {
    r := s;
    var i := top;
    while true
      invariant |r| == |s| && multiset(r) == multiset(s)
      invariant forall k :: n <= k < |s| ==> r[k] == s[k]
      invariant Sinking(r, top, n, i)
      decreases n - i
    {
      if 2 * i + 1 >= n {
        SinksNoFurther(r, top, n, i, i);
        break;
      }
      var j := ChooseChild(r, n, i);
      if !Before(r[j], r[i]) {
        SinksNoFurther(r, top, n, i, j);
        break;
      }
      SinksOn(r, top, n, i, j);
      r := Swap(r, i, j);
      i := j;
    }
  }

  /** `heap.Init`. */
  method Heapify(s: seq<ClientEvent>) returns (r: seq<ClientEvent>)
    ensures IsHeap(r) && multiset(r) == multiset(s)
  {
    r := s;
    var i: nat := |s| / 2;
    while i > 0
      invariant |r| == |s| && multiset(r) == multiset(s) && i <= |s| / 2
      invariant HeapFrom(r, i, |r|)
    {
      i := i - 1;
      r := SiftDown(r, i, |r|);
    }
  }

  /** `heap.Pop`: the root is swapped to the end, the rest re-ordered, the end cut off. */
  method PopRoot(s: seq<ClientEvent>) returns (e: ClientEvent, r: seq<ClientEvent>)
    requires s != [] && IsHeap(s)
    ensures Earliest(e, multiset(s)) && e == s[0]
    ensures IsHeap(r) && multiset(r) == multiset(s) - multiset{e} && |r| == |s| - 1
  {
    HeapRoot(s);
    var n := |s| - 1;
    var t := Swap(s, 0, n);
    r := SiftDown(t, 0, n);
    e := r[n];
    assert r == r[..n] + [r[n]];
    r := r[..n];
  }

  /** `heap.Push`, then `heap.Pop` when the result is over capacity. */
  method PushBounded(s: seq<ClientEvent>, e: ClientEvent, capacity: nat)
    returns (r: seq<ClientEvent>, back: Option<ClientEvent>)
    requires IsHeap(s) && |s| <= capacity
    ensures IsHeap(r)
    ensures |s| < capacity ==> back.None? && multiset(r) == multiset(s) + multiset{e}
    ensures |s| == capacity ==>
      && back.Some? && Earliest(back.value, multiset(s) + multiset{e})
      && multiset(r) == multiset(s) + multiset{e} - multiset{back.value}
  {
    var pushed := s + [e];
    assert multiset(pushed) == multiset(s) + multiset{e};
    forall k | 0 < k < |s|
      ensures Ordered(pushed, k)
    {
      assert Ordered(s, k);
    }
    r := SiftUp(pushed);
    assert |multiset(r)| == |multiset(pushed)|;
    back := None;
    if |r| > capacity {
      var e0, rest := PopRoot(r);
      r, back := rest, Some(e0);
    }
  }

  /** Filtering in place: kept entries move to the front of the buffer being read; the tail is cut off. */
  method FilterInPlace(s: seq<ClientEvent>, drop: ClientEvent -> bool) returns (r: seq<ClientEvent>)
    ensures r == Keep(s, drop)
  {
    var buffer := s;
    var kept := 0;
    var i := 0;
    while i < |buffer|
      invariant 0 <= kept <= i <= |buffer| == |s|
      invariant forall k :: i <= k < |s| ==> buffer[k] == s[k]
      invariant buffer[..kept] == Keep(s[..i], drop)
    {
      var e := buffer[i];
      KeepAppend(s[..i], e, drop);
      assert s[..i + 1] == s[..i] + [e];
      if !drop(e) {
        assert buffer[kept := e][..kept + 1] == buffer[..kept] + [e];
        buffer := buffer[kept := e];
        kept := kept + 1;
      }
      i := i + 1;
    }
    assert s[..|s|] == s;
    r := buffer[..kept];
  }

  /** Filtering followed by `heap.Init`. */
  method KeepHeap(s: seq<ClientEvent>, drop: ClientEvent -> bool) returns (r: seq<ClientEvent>)
    ensures IsHeap(r) && |r| <= |s|
    ensures forall e :: multiset(r)[e] == if drop(e) then 0 else multiset(s)[e]
  {
    var kept := FilterInPlace(s, drop);
    r := Heapify(kept);
    assert |multiset(r)| == |multiset(kept)|;
    forall e
      ensures multiset(r)[e] == if drop(e) then 0 else multiset(s)[e]
    {
      CountKept(s, drop, e);
    }
  }

  class RetryQueue {
    var items: seq<ClientEvent>
    const capacity: nat
    var sequence: nat
    var closed: bool
    /** The token in the one-slot `changed` channel. */
    var changed: bool

    ghost function View(): (q: Retries)
      reads this
    {
      Retries(multiset(items), capacity, sequence, closed)
    }

    ghost predicate Valid()
      reads this
    {
      IsHeap(items) && |items| <= capacity && Numbered(View())
    }

    constructor (capacity: nat)
      ensures Valid() && View() == Retries(multiset{}, capacity, 0, false)
    {
      this.items, this.capacity, this.sequence, this.closed, this.changed := [], capacity, 0, false, false;
    }

    /** `ok` is false for the source's `ErrClosed`. */
    method Schedule(e: ClientEvent) returns (back: Option<ClientEvent>, ok: bool)
      requires Valid()
      modifies this
      ensures Valid()
      ensures ok <==> !old(closed)
      ensures ok ==> Scheduled(old(View()), e, View(), back) && changed
      ensures !ok ==> back.None? && View() == old(View())
    {
      if closed {
        return None, false;
      }
      ghost var before := View();
      sequence := sequence + 1;
      items, back := PushBounded(items, e.(retryOrder := sequence), capacity);
      changed := true;
      ok := true;
      ScheduledKeepsBound(before, e, View(), back);
    }

    /** `next` is the due time to wait for when nothing is due; `open` is false once closed. */
    method PopDue(now: int) returns (due: Option<ClientEvent>, next: Option<int>, open: bool)
      requires Valid()
      modifies this`items
      ensures Valid()
      ensures open <==> !closed
      ensures open ==> Popped(old(View()), now, View(), due)
      ensures !open ==> due.None? && View() == old(View())
      ensures next.Some? <==> open && due.None? && items != []
      ensures next.Some? ==> now < next.value && exists e :: Earliest(e, View().items) && e.retryAfter == next.value
    {
      if closed {
        return None, None, false;
      }
      if |items| == 0 {
        return None, None, true;
      }
      HeapRoot(items);
      if now < items[0].retryAfter {
        return None, Some(items[0].retryAfter), true;
      }
      var e, rest := PopRoot(items);
      items := rest;
      return Some(e), None, true;
    }

    method Remove(drop: ClientEvent -> bool)
      requires Valid()
      modifies this
      ensures Valid()
      ensures Removed(old(View()), drop, View()) && changed
    {
      ghost var before := View();
      items := KeepHeap(items, drop);
      RemovedKeepsNumbered(before, drop, View());
      changed := true;
    }

    method Close()
      requires Valid()
      modifies this`closed
      ensures Valid() && View() == old(View()).(closed := true)
    {
      closed := true;
    }

    method Clear()
      requires Valid()
      modifies this`items
      ensures Valid() && View() == old(View()).(items := multiset{})
    {
      items := [];
    }
  }
}
