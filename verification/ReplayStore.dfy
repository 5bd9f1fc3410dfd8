/** The in-memory replay store: an append-only log per client. */
module ReplayStore {
  import opened Events
  import opened ReplayLog

  datatype ReplayEvent = ReplayEvent(clientID: string, event: Event, storedAt: int)

  function IdOf(e: ReplayEvent): (id: string) {
    e.event.id
  }

  function TimeOf(e: ReplayEvent): (t: int) {
    e.storedAt
  }

  lemma IdsAre(log: seq<ReplayEvent>)
    ensures |Ids(log, IdOf)| == |log| && forall i :: 0 <= i < |log| ==> Ids(log, IdOf)[i] == log[i].event.id
  {
    forall i | 0 <= i < |log|
      ensures Ids(log, IdOf)[i] == log[i].event.id
    {
      assert Ids(log, IdOf)[i] == IdOf(log[i]);
    }
  }

  /** Out of order, purging is visible: a purged cursor no longer hides what was stored before it with a later time. */
  lemma PurgeVisibleOutOfOrder(first: ReplayEvent, second: ReplayEvent)
    requires first.event.id == "a" && first.storedAt == 2 && second.event.id == "b" && second.storedAt == 0
    ensures Unexpired(Since([first, second], IdOf, "b"), TimeOf, 1) == []
    ensures Unexpired(Since(Unexpired([first, second], TimeOf, 1), IdOf, "b"), TimeOf, 1) == [first]
  {
    IdsAre([first, second]);
    IdsAre([first]);
    StartAfterOnly(Ids([first, second], IdOf), "b", 2);
    assert [first, second][..1] == [first] && [first][..0] == [];
    assert Unexpired([first], TimeOf, 1) == [first];
    assert Unexpired([first, second], TimeOf, 1) == [first];
    StartAfterOnly(Ids([first], IdOf), "b", 0);
  }

  // ---------------------------------------------------------------- the store

  ghost predicate AllNormalized(log: seq<ReplayEvent>) {
    forall i :: 0 <= i < |log| ==> Normalize(log[i].event) == log[i].event
  }

  ghost function LogIn(events: map<string, seq<ReplayEvent>>, id: string): (log: seq<ReplayEvent>) {
    if id in events then events[id] else []
  }

  /** The logs of `events`, with that of `id` purged. */
  ghost function Purged(events: map<string, seq<ReplayEvent>>, id: string, before: int): (r: map<string,
                        seq<ReplayEvent>>)
    requires id in events
  {
    var kept := Unexpired(events[id], TimeOf, before);
    if kept == [] then events - {id} else events[id := kept]
  }

  /** `events` are the logs of `was`, purged but for those of `todo`. */
  ghost predicate PurgedBut(was: map<string, seq<ReplayEvent>>, events: map<string, seq<ReplayEvent>>,
                            todo: set<string>, before: int) {
    && (forall id :: id in todo ==> id in was && id in events && events[id] == was[id])
    && (forall id :: id !in todo ==> LogIn(events, id) == Unexpired(LogIn(was, id), TimeOf, before))
  }

  lemma PurgedNext(was: map<string, seq<ReplayEvent>>, events: map<string, seq<ReplayEvent>>, todo: set<string>,
                   id: string, before: int)
    requires PurgedBut(was, events, todo, before) && id in todo
    ensures PurgedBut(was, Purged(events, id, before), todo - {id}, before)
  {
    forall other | other !in todo - {id}
      ensures LogIn(Purged(events, id, before), other) == Unexpired(LogIn(was, other), TimeOf, before)
    {
      if other != id {
        assert LogIn(events, other) == Unexpired(LogIn(was, other), TimeOf, before);
      }
    }
  }

  class MemoryReplayStore {
    var events: map<string, seq<ReplayEvent>>

    ghost predicate Valid()
      reads this
    {
      forall id :: id in events ==> events[id] != [] && AllNormalized(events[id])
    }

    ghost function Log(id: string): (log: seq<ReplayEvent>)
      reads this
    {
      LogIn(events, id)
    }

    constructor ()
      ensures Valid() && forall id :: Log(id) == []
    {
      events := map[];
    }

    method Store(e: ReplayEvent)
      requires Valid()
      modifies this
      ensures Valid()
      ensures Log(e.clientID) == old(Log(e.clientID)) + [e.(event := Normalize(e.event))]
      ensures forall id :: id != e.clientID ==> Log(id) == old(Log(id))
    {
      NormalizeIdempotent(e.event);
      var normalized := NormalizeEvent(e.event);
      var log := if e.clientID in events then events[e.clientID] else [];
      events := events[e.clientID := log + [e.(event := normalized)]];
    }

    /** Exactly what was stored after the latest occurrence of the cursor; everything when there is none. */
    method EventsSince(id: string, cursor: string) returns (result: seq<ReplayEvent>)
      requires Valid()
      ensures result == Since(Log(id), IdOf, cursor)
    {
      if id !in events {
        return [];
      }
      var start := FindStart(events[id], cursor);
      result := events[id][start..];
      for i := 0 to |result|
        invariant result == events[id][start..]
      {
        var normalized := NormalizeEvent(result[i].event);
        assert result[i] == events[id][start + i];
        result := result[i := result[i].(event := normalized)];
      }
    }

    method ClearClient(id: string)
      requires Valid()
      modifies this
      ensures Valid()
      ensures Log(id) == []
      ensures forall other :: other != id ==> Log(other) == old(Log(other))
    {
      events := events - {id};
    }

    method PurgeExpired(before: int)
      requires Valid()
      modifies this
      ensures Valid()
      ensures forall id :: Log(id) == Unexpired(old(Log(id)), TimeOf, before)
    {
      ghost var was := events;
      var todo := events.Keys;
      while todo != {}
        invariant Valid() && PurgedBut(was, events, todo, before)
        decreases |todo|
      {
        var id :| id in todo;
        PurgedNext(was, events, todo, id, before);
        todo := todo - {id};
        PurgeLog(id, before);
      }
    }

    method PurgeLog(id: string, before: int)
      requires Valid() && id in events
      modifies this
      ensures Valid()
      ensures events == Purged(old(events), id, before)
    {
      UnexpiredNormalized(events[id], before);
      var kept := Compact(events[id], before);
      if |kept| == 0 {
        events := events - {id};
      } else {
        events := events[id := kept];
      }
    }
  }

  /** The backward search for the cursor. */
  method FindStart(log: seq<ReplayEvent>, cursor: string) returns (start: nat)
    ensures start == StartAfter(Ids(log, IdOf), cursor)
  {
    IdsAre(log);
    start := 0;
    if cursor != "" {
      for i := |log| downto 0
        invariant cursor !in Ids(log, IdOf)[i..]
      {
        if log[i].event.id == cursor {
          StartAfterOnly(Ids(log, IdOf), cursor, i + 1);
          return i + 1;
        }
        assert Ids(log, IdOf)[i..] == [Ids(log, IdOf)[i]] + Ids(log, IdOf)[i + 1..];
      }
    }
    StartAfterOnly(Ids(log, IdOf), cursor, 0);
  }

  lemma {:induction false} UnexpiredNormalized(log: seq<ReplayEvent>, before: int)
    requires AllNormalized(log)
    ensures AllNormalized(Unexpired(log, TimeOf, before))
  {
    if log != [] {
      UnexpiredNormalized(log[..|log| - 1], before);
    }
  }

  /** The purge of one log, overwriting it from the left. */
  method Compact(log: seq<ReplayEvent>, before: int) returns (kept: seq<ReplayEvent>)
    ensures kept == Unexpired(log, TimeOf, before)
  {
    var buffer := log;
    var n := 0;
    for i := 0 to |log|
      invariant 0 <= n <= i && |buffer| == |log|
      invariant buffer[..n] == Unexpired(log[..i], TimeOf, before)
      invariant forall k :: i <= k < |log| ==> buffer[k] == log[k]
    {
      var event := buffer[i];
      assert log[..i + 1][..i] == log[..i];
      if before <= event.storedAt {
        buffer := buffer[n := event];
        n := n + 1;
      }
    }
    assert log[..|log|] == log;
    kept := buffer[..n];
  }
}
