/**
  Logs of retained events, read after a cursor and purged by age. A log is a
  sequence of anything that has an event ID and a time of storing; `ReplayStore`
  keeps such logs, and `Lifecycle` follows one of them through every run.
*/
module ReplayLog {

  // ------------------------------------------------------------------ reading

  /** Where reading starts: after the latest occurrence of the cursor, or at the beginning. */
  function StartAfter(ids: seq<string>, cursor: string): (start: nat)
    ensures start <= |ids|
    ensures cursor != "" ==> cursor !in ids[start..]
    ensures start > 0 ==> cursor != "" && ids[start - 1] == cursor
  {
    if ids == [] || cursor == "" then 0
    else if ids[|ids| - 1] == cursor then |ids|
    else
      var start := StartAfter(ids[..|ids| - 1], cursor);
      assert ids[start..] == ids[..|ids| - 1][start..] + [ids[|ids| - 1]];
      start
  }

  /** The three facts above leave one possibility. */
  lemma StartAfterOnly(ids: seq<string>, cursor: string, start: nat)
    requires start <= |ids| && (cursor != "" ==> cursor !in ids[start..])
    requires start > 0 ==> cursor != "" && ids[start - 1] == cursor
    ensures start == StartAfter(ids, cursor)
  {}

  function Ids<T>(log: seq<T>, id: T -> string): (ids: seq<string>) {
    seq(|log|, i requires 0 <= i < |log| => id(log[i]))
  }

  function Since<T>(log: seq<T>, id: T -> string, cursor: string): (r: seq<T>) {
    log[StartAfter(Ids(log, id), cursor)..]
  }

  // ------------------------------------------------------------------ purging

  function Unexpired<T>(log: seq<T>, at: T -> int, before: int): (r: seq<T>) {
    if log == [] then []
    else Unexpired(log[..|log| - 1], at, before) + if at(log[|log| - 1]) < before then [] else [log[|log| - 1]]
  }

  ghost predicate Chronological<T>(log: seq<T>, at: T -> int) {
    forall i, j :: 0 <= i < j < |log| ==> at(log[i]) <= at(log[j])
  }

  lemma {:induction false} UnexpiredContains<T>(log: seq<T>, at: T -> int, before: int, x: T)
    ensures x in Unexpired(log, at, before) <==> x in log && before <= at(x)
  {
    if log != [] {
      UnexpiredContains(log[..|log| - 1], at, before, x);
      assert log == log[..|log| - 1] + [log[|log| - 1]];
    }
  }

  lemma {:induction false} NoneExpired<T>(log: seq<T>, at: T -> int, before: int)
    requires forall i :: 0 <= i < |log| ==> before <= at(log[i])
    ensures Unexpired(log, at, before) == log
  {
    if log != [] {
      NoneExpired(log[..|log| - 1], at, before);
    }
  }

  lemma {:induction false} AllExpired<T>(log: seq<T>, at: T -> int, before: int)
    requires forall i :: 0 <= i < |log| ==> at(log[i]) < before
    ensures Unexpired(log, at, before) == []
  {
    if log != [] {
      AllExpired(log[..|log| - 1], at, before);
    }
  }

  lemma {:induction false} UnexpiredAppend<T>(a: seq<T>, b: seq<T>, at: T -> int, before: int)
    ensures Unexpired(a + b, at, before) == Unexpired(a, at, before) + Unexpired(b, at, before)
  {
    if b == [] {
      assert a + b == a;
    } else {
      UnexpiredAppend(a, b[..|b| - 1], at, before);
      assert (a + b)[..|a + b| - 1] == a + b[..|b| - 1];
    }
  }

  lemma {:induction false} FirstUnexpired<T>(log: seq<T>, at: T -> int, before: int) returns (k: nat)
    requires Chronological(log, at)
    ensures k <= |log|
    ensures forall i :: 0 <= i < k ==> at(log[i]) < before
    ensures forall i :: k <= i < |log| ==> before <= at(log[i])
  {
    k := |log|;
    if log != [] && before <= at(log[|log| - 1]) {
      k := FirstUnexpired(log[..|log| - 1], at, before);
    }
  }

  /** Of a chronological log, purging cuts off a beginning. */
  lemma PurgeCuts<T>(log: seq<T>, at: T -> int, before: int) returns (k: nat)
    requires Chronological(log, at)
    ensures k <= |log| && Unexpired(log, at, before) == log[k..]
    ensures forall i :: 0 <= i < k ==> at(log[i]) < before
  {
    k := FirstUnexpired(log, at, before);
    CutInTwo(log[..k], log[k..], at, before);
    assert log[..k] + log[k..] == log;
  }

  lemma CutInTwo<T>(a: seq<T>, b: seq<T>, at: T -> int, before: int)
    requires forall i :: 0 <= i < |a| ==> at(a[i]) < before
    requires forall i :: 0 <= i < |b| ==> before <= at(b[i])
    ensures Unexpired(a + b, at, before) == b
  {
    AllExpired(a, at, before);
    NoneExpired(b, at, before);
    UnexpiredAppend(a, b, at, before);
  }

  /** Dropping a beginning in which everything is expired does not change what is unexpired. */
  lemma CutIsInvisible<T>(log: seq<T>, at: T -> int, i: nat, k: nat, cutoff: int)
    requires i <= k <= |log| && forall j :: i <= j < k ==> at(log[j]) < cutoff
    ensures Unexpired(log[i..], at, cutoff) == Unexpired(log[k..], at, cutoff)
  {
    AllExpired(log[i..k], at, cutoff);
    UnexpiredAppend(log[i..k], log[k..], at, cutoff);
    assert log[i..k] + log[k..] == log[i..];
  }

  /** Reading a log whose first `k` entries are gone. */
  lemma SinceAfterCut<T>(log: seq<T>, id: T -> string, k: nat, cursor: string)
    requires k <= |log|
    ensures var start := StartAfter(Ids(log, id), cursor);
            Since(log[k..], id, cursor) == log[if start <= k then k else start..]
  {
    var ids, start := Ids(log, id), StartAfter(Ids(log, id), cursor);
    assert Ids(log[k..], id) == ids[k..];
    if start <= k {
      assert ids[k..] == ids[start..][k - start..];
      StartAfterOnly(ids[k..], cursor, 0);
    } else {
      assert ids[k..][start - k..] == ids[start..];
      StartAfterOnly(ids[k..], cursor, start - k);
      assert log[k..][start - k..] == log[start..];
    }
  }

  /** Cleanup is invisible to replay, for every cursor, one that was itself purged included. */
  lemma PurgeInvisible<T>(log: seq<T>, id: T -> string, at: T -> int, before: int, cutoff: int, cursor: string)
    requires Chronological(log, at) && before <= cutoff
    ensures Unexpired(Since(Unexpired(log, at, before), id, cursor), at, cutoff) == Unexpired(Since(log, id, cursor), at, cutoff)
  {
    var k := PurgeCuts(log, at, before);
    var start := StartAfter(Ids(log, id), cursor);
    SinceAfterCut(log, id, k, cursor);
    if start <= k {
      CutIsInvisible(log, at, start, k, cutoff);
    }
  }
}
