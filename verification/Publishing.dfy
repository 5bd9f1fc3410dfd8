/**
  `Bus.handle` in asynchronous mode, with nothing else going on: who gets an
  event. What concurrent reconnects do to it is the subject of `Lifecycle`.
*/
module Publishing {
  import opened Options
  import opened EventStream
  import opened Wire
  import opened WireRoundTrip
  import opened Events
  import opened Registry
  import opened ReplayStore

  datatype ClientState = ClientState(active: bool, replayGeneration: nat)

  datatype Delivery = Delivery(clientID: string, message: Message, generation: nat)

  datatype Error = Closed | InvalidEvent(reason: Invalid) | NoConverter | NotQueued

  /** Named directly; or, when nobody is, subscribed and not excluded. */
  ghost predicate Addressed(e: Event, subscriptions: Relation, id: string) {
    if e.clientIDs != [] then id in e.clientIDs else (id, e.name) in subscriptions && id !in e.excludeClientIDs
  }

  /** Addressed, subscribed and registered: the event is stored for this client even while it is disconnected. */
  ghost predicate Concerns(e: Event, subscriptions: Relation, clients: map<string, ClientState>, id: string) {
    Addressed(e, subscriptions, id) && (id, e.name) in subscriptions && id in clients
  }

  ghost predicate Delivers(e: Event, subscriptions: Relation, clients: map<string, ClientState>, id: string) {
    Concerns(e, subscriptions, clients, id) && clients[id].active
  }

  /** One delivery each, with the event's message, under the client's replay generation. */
  ghost predicate Made(e: Event, clients: map<string, ClientState>, ds: seq<Delivery>) {
    && (forall i :: 0 <= i < |ds| ==>
          ds[i].clientID in clients
          && ds[i] == Delivery(ds[i].clientID, ToMessage(e), clients[ds[i].clientID].replayGeneration))
    && (forall i, j :: 0 <= i < j < |ds| ==> ds[i].clientID != ds[j].clientID)
  }

  ghost predicate Reaches(ds: seq<Delivery>, id: string) {
    exists i :: 0 <= i < |ds| && ds[i].clientID == id
  }

  lemma ReachesAppend(ds: seq<Delivery>, d: Delivery, id: string)
    ensures Reaches(ds + [d], id) <==> Reaches(ds, id) || id == d.clientID
  {
    var longer := ds + [d];
    if Reaches(ds, id) {
      var i :| 0 <= i < |ds| && ds[i].clientID == id;
      assert longer[i].clientID == id;
    }
    assert longer[|ds|] == d;
  }

  ghost function Reached(ds: seq<Delivery>): (ids: set<string>) {
    set i | 0 <= i < |ds| :: ds[i].clientID
  }

  lemma {:induction false} ReachedCount(ds: seq<Delivery>)
    requires forall i, j :: 0 <= i < j < |ds| ==> ds[i].clientID != ds[j].clientID
    ensures |Reached(ds)| == |ds|
  {
    if ds != [] {
      var shorter, last := ds[..|ds| - 1], ds[|ds| - 1].clientID;
      ReachedCount(shorter);
      forall id | id in Reached(ds)
        ensures id in Reached(shorter) + {last}
      {
        var i :| 0 <= i < |ds| && ds[i].clientID == id;
        assert i < |shorter| ==> shorter[i].clientID == id;
      }
      assert Reached(ds) == Reached(shorter) + {last};
    }
  }

  /** Before a client is reached there are fewer deliveries than clients. */
  lemma FewerThanClients(clients: map<string, ClientState>, ds: seq<Delivery>, id: string)
    requires forall i :: 0 <= i < |ds| ==> ds[i].clientID in clients
    requires forall i, j :: 0 <= i < j < |ds| ==> ds[i].clientID != ds[j].clientID
    requires id in clients && !Reaches(ds, id)
    ensures |ds| < |clients|
  {
    ReachedCount(ds);
    var rest := clients.Keys - {id};
    assert Reached(ds) <= rest;
    SubsetSize(Reached(ds), rest);
  }

  lemma {:induction false} SubsetSize(a: set<string>, b: set<string>)
    requires a <= b
    ensures |a| <= |b|
  {
    if a != {} {
      var x :| x in a;
      SubsetSize(a - {x}, b - {x});
    }
  }

  /** The replay logs of all clients. */
  ghost function Logs(store: MemoryReplayStore?): (logs: imap<string, seq<ReplayEvent>>)
    reads store
  {
    imap id: string :: if store == null then [] else store.Log(id)
  }

  /** From `before` to `after`, event `e` was stored once for each of `ids` it concerns, and nothing else happened. */
  ghost predicate Stored(before: imap<string, seq<ReplayEvent>>, after: imap<string, seq<ReplayEvent>>, e: Event,
                         now: int,
                         ids: iset<string>)
  {
    forall id :: id in before && id in after &&
      after[id] == before[id] + if e.id != "" && id in ids then [ReplayEvent(id, e, now)] else []
  }

  ghost function Concerned(e: Event, subscriptions: Relation, clients: map<string, ClientState>): (ids: iset<string>) {
    iset id | Concerns(e, subscriptions, clients, id)
  }

  ghost function Among(ids: seq<string>, concerned: iset<string>): (r: iset<string>) {
    iset id | id in ids && id in concerned
  }

  lemma StoredNext(before: imap<string, seq<ReplayEvent>>, middle: imap<string, seq<ReplayEvent>>, after: imap<string,
                   seq<ReplayEvent>>,
                   e: Event, now: int, done: iset<string>, one: iset<string>)
    requires Stored(before, middle, e, now, done) && Stored(middle, after, e, now, one) && done !! one
    ensures Stored(before, after, e, now, done + one)
  {}

  /** What the loop of `handle` does for one recipient. */
  method HandleOne(registry: MemorySubscriptionRegistry, store: MemoryReplayStore?, clients: map<string, ClientState>,
                   e: Event, excluded: seq<string>, convertible: bool, full: bool, now: int, id: string)
    returns (delivery: Option<Delivery>, error: Option<Error>)
    requires registry.Valid() && (store != null ==> store.Valid()) && Normalize(e) == e
    requires Addressed(e, registry.Contents(), id) <==> id !in excluded
    ensures !convertible && Concerns(e, registry.Contents(), clients, id) ==> error == Some(NoConverter)
    modifies store
    ensures store != null ==> store.Valid()
    ensures error.None? && store != null ==>
              Stored(old(Logs(store)), Logs(store), e, now, Among([id], Concerned(e, registry.Contents(), clients)))
    ensures delivery.Some? <==> error.None? && Delivers(e, registry.Contents(), clients, id)
    ensures error.Some? ==> Concerns(e, registry.Contents(), clients, id)
    ensures error.Some? ==> error.value == if convertible then NotQueued else NoConverter
    ensures error == Some(NotQueued) ==> full
    ensures delivery.Some? ==> delivery.value == Delivery(id, ToMessage(e), clients[id].replayGeneration)
  {
    delivery, error := None, None;
    var subscribed := registry.IsSubscribed(id, e.name);
    if id in excluded || !subscribed || id !in clients {
      return;
    }
    if !convertible {
      error := Some(NoConverter);
      return;
    }
    if store != null && e.id != "" {
      store.Store(ReplayEvent(id, e, now));
    }
    if !clients[id].active {
      return;
    }
    if full {
      error := Some(NotQueued);
      return;
    }
    delivery := Some(Delivery(id, ToMessage(e), clients[id].replayGeneration));
  }

  /** `ids[..k]` have been handled: those among them who should be are reached. */
  ghost predicate Handled(e: Event, subscriptions: Relation, clients: map<string, ClientState>, done: seq<string>,
                          ds: seq<Delivery>) {
    && Made(e, clients, ds)
    && forall id :: Reaches(ds, id) <==> id in done && Delivers(e, subscriptions, clients, id)
  }

  lemma HandledNext(e: Event, subscriptions: Relation, clients: map<string, ClientState>, done: seq<string>,
                    ds: seq<Delivery>,
                    id: string, d: Option<Delivery>)
    requires Handled(e, subscriptions, clients, done, ds) && id !in done
    requires d.Some? <==> Delivers(e, subscriptions, clients, id)
    requires d.Some? ==> d.value == Delivery(id, ToMessage(e), clients[id].replayGeneration)
    ensures Handled(e, subscriptions, clients, done + [id], if d.Some? then ds + [d.value] else ds)
  {
    if d.Some? {
      forall other
        ensures Reaches(ds + [d.value], other) <==> Reaches(ds, other) || other == id
      {
        ReachesAppend(ds, d.value, other);
      }
      assert !Reaches(ds, id);
    }
  }

  lemma RoomForAll(e: Event, subscriptions: Relation, clients: map<string, ClientState>, done: seq<string>,
                   ds: seq<Delivery>, id: string)
    requires Handled(e, subscriptions, clients, done, ds) && id !in done && id in clients
    ensures |ds| < |clients|
  {
    assert !Reaches(ds, id);
    FewerThanClients(clients, ds, id);
  }

  /** The recipients `handle` goes through, and those it skips. */
  method Recipients(registry: MemorySubscriptionRegistry, e: Event) returns (ids: seq<string>, excluded: seq<string>)
    requires Distinct(e.clientIDs)
    ensures Distinct(ids)
    ensures forall id :: Addressed(e, registry.Contents(), id) <==> id in ids && id !in excluded
  {
    ids, excluded := e.clientIDs, [];
    if e.clientIDs == [] {
      ids := registry.Subscribers(e.name);
      excluded := e.excludeClientIDs;
    }
  }

  /** The loop of `handle`. */
  method FanOut(registry: MemorySubscriptionRegistry, store: MemoryReplayStore?, clients: map<string, ClientState>,
                e: Event, ids: seq<string>, excluded: seq<string>, convertible: bool, room: nat, now: int)
    returns (deliveries: seq<Delivery>, error: Option<Error>)
    requires registry.Valid() && (store != null ==> store.Valid()) && Normalize(e) == e && Distinct(ids)
    requires forall id :: Addressed(e, registry.Contents(), id) <==> id in ids && id !in excluded
    modifies store
    ensures store != null ==> store.Valid()
    ensures Made(e, clients, deliveries)
    ensures forall id :: Reaches(deliveries, id) ==> Delivers(e, registry.Contents(), clients, id)
    ensures error.None? ==>
              && (forall id :: Delivers(e, registry.Contents(), clients, id) ==> Reaches(deliveries, id))
              && (store != null ==> Stored(old(Logs(store)), Logs(store), e, now, Concerned(e, registry.Contents(), clients)))
    ensures convertible && |clients| <= room ==> error.None?
    ensures !convertible && (exists id :: Concerns(e, registry.Contents(), clients, id)) ==> error == Some(NoConverter)
    ensures error.Some? ==> error.value == if convertible then NotQueued else NoConverter
    ensures error.Some? ==> exists id :: Concerns(e, registry.Contents(), clients, id)
    ensures error == Some(NotQueued) ==> |deliveries| == room
  {
    deliveries, error := [], None;
    ghost var subscriptions := registry.Contents();
    ghost var concerned := Concerned(e, subscriptions, clients);
    for k := 0 to |ids|
      invariant store != null ==> store.Valid()
      invariant registry.Valid() && registry.Contents() == subscriptions
      invariant Handled(e, subscriptions, clients, ids[..k], deliveries)
      invariant store != null ==> Stored(old(Logs(store)), Logs(store), e, now, Among(ids[..k], concerned))
      invariant !convertible ==> forall id :: id in ids[..k] ==> !Concerns(e, subscriptions, clients, id)
    {
      assert ids[..k + 1] == ids[..k] + [ids[k]];
      assert ids[k] !in ids[..k];
      ghost var middle := Logs(store);
      var delivery, failure := HandleOne(registry, store, clients, e, excluded, convertible, |deliveries| == room, now, ids[k]);
      if failure.Some? {
        RoomForAll(e, subscriptions, clients, ids[..k], deliveries, ids[k]);
        return deliveries, failure;
      }
      if store != null {
        StoredNext(old(Logs(store)), middle, Logs(store), e, now, Among(ids[..k], concerned), Among([ids[k]], concerned));
      }
      assert Among(ids[..k], concerned) + Among([ids[k]], concerned) == Among(ids[..k + 1], concerned);
      HandledNext(e, subscriptions, clients, ids[..k], deliveries, ids[k], delivery);
      if delivery.Some? {
        deliveries := deliveries + [delivery.value];
      }
    }
    assert Among(ids[..|ids|], concerned) == concerned;
  }

  // ------------------------------------------------- in terms of what was published

  /** An event without a name is a "message". */
  function NameOf(e: Event): (name: string) {
    if e.name == "" then "message" else e.name
  }

  /**
    Whom an event is kept for: registered clients subscribed to its name that are
    named directly, or, when nobody is, that are not excluded.
  */
  ghost predicate KeptFor(e: Event, subscriptions: Relation, clients: map<string, ClientState>, id: string) {
    && id in clients && (id, NameOf(e)) in subscriptions
    && (if e.clientIDs != [] then id in e.clientIDs else id !in e.excludeClientIDs)
  }

  /** The message is the event's: its name, payload, retry time, ID and comment. */
  ghost predicate Carries(m: Message, e: Event) {
    && m.event == NameOf(e) && m.retry == e.retry && m.id == e.id && m.comment == e.comment
    && (m.hasData <==> e.data.Some?) && (e.data.Some? ==> m.data == e.data.value)
  }

  /** The entry in the replay log is the event's, stored now. */
  ghost predicate Keeps(r: ReplayEvent, e: Event, id: string, now: int) {
    && r.clientID == id && r.storedAt == now
    && r.event.name == NameOf(e) && r.event.data == e.data && r.event.retry == e.retry
    && r.event.id == e.id && r.event.comment == e.comment
  }

  /** The log of `id` got one entry for the event, or none. */
  ghost predicate LogGets(before: seq<ReplayEvent>, after: seq<ReplayEvent>, e: Event, id: string, now: int,
                          one: bool) {
    if one then |after| == |before| + 1 && before <= after && Keeps(after[|before|], e, id, now) else after == before
  }

  ghost predicate BadEvent(e: Event) {
    || '\r' in e.name || '\n' in e.name
    || '\0' in e.id || '\r' in e.id || '\n' in e.id
    || e.retry < 0
  }

  lemma ConcernsAsPublished(event: Event, subscriptions: Relation, clients: map<string, ClientState>, id: string)
    ensures Concerns(Normalize(event), subscriptions, clients, id) <==> KeptFor(event, subscriptions, clients, id)
  {
    UniqueContains(event.clientIDs);
    UniqueContains(event.excludeClientIDs);
    if event.clientIDs != [] {
      assert event.clientIDs[0] in Unique(event.clientIDs);
    }
  }

  lemma StoredAsPublished(before: imap<string, seq<ReplayEvent>>, after: imap<string, seq<ReplayEvent>>, event: Event,
                          now: int, ids: iset<string>, id: string)
    requires Stored(before, after, Normalize(event), now, ids)
    ensures id in before && id in after && LogGets(before[id], after[id], event, id, now, event.id != "" && id in ids)
  {}

  lemma BadAsValidated(event: Event)
    ensures BadEvent(event) <==> Validate(Normalize(event)).Some?
  {}

  /** What the page gets out of the frame of such a message: the event's name and payload, or nothing without one. */
  lemma PageGets(m: Message, e: Event)
    requires Carries(m, e) && !BadEvent(e)
    ensures Interpret(Frame(m)).events == if e.data.Some? then [Dispatched(NameOf(e), Normalized(e.data.value), e.id)] else []
  {
    AcceptsExactly(m);
    OneRoundTrip(m);
    assert FRESH.events == [];
  }

  /**
    An error-free publish makes exactly one delivery, carrying the event, for each
    active client it is kept for, and puts it once in the replay log of each it is
    kept for. `room` is how many deliveries the send queue takes before a push
    fails; a failed publish has delivered nothing it should not have.
  */
  method Handle(registry: MemorySubscriptionRegistry, store: MemoryReplayStore?, clients: map<string, ClientState>,
                stopped: bool, event: Event, convertible: bool, room: nat, now: int)
    returns (deliveries: seq<Delivery>, error: Option<Error>)
    requires registry.Valid() && (store != null ==> store.Valid())
    modifies store
    ensures store != null ==> store.Valid()
    ensures forall i :: 0 <= i < |deliveries| ==>
              && deliveries[i].clientID in clients && Carries(deliveries[i].message, event)
              && deliveries[i].generation == clients[deliveries[i].clientID].replayGeneration
    ensures forall i, j :: 0 <= i < j < |deliveries| ==> deliveries[i].clientID != deliveries[j].clientID
    ensures forall id :: Reaches(deliveries, id) ==>
              KeptFor(event, registry.Contents(), clients, id) && clients[id].active
    ensures error.None? ==>
              forall id :: KeptFor(event, registry.Contents(), clients, id) && clients[id].active ==>
                Reaches(deliveries, id)
    ensures error.None? && store != null ==>
              forall id :: LogGets(old(Logs(store))[id], Logs(store)[id], event, id, now,
                                   event.id != "" && KeptFor(event, registry.Contents(), clients, id))
    ensures error == Some(Closed) <==> stopped
    ensures (error.Some? && error.value.InvalidEvent?) <==> !stopped && BadEvent(event)
    ensures error == Some(NoConverter) <==>
              !stopped && !BadEvent(event) && !convertible && exists id :: KeptFor(event, registry.Contents(), clients, id)
    ensures error == Some(NotQueued) ==> |deliveries| == room < |clients|
  {
    deliveries, error := [], None;
    if stopped {
      return [], Some(Closed);
    }
    var e := NormalizeEvent(event);
    BadAsValidated(event);
    if Validate(e).Some? {
      return [], Some(InvalidEvent(Validate(e).value));
    }
    UniqueDistinct(event.clientIDs);
    NormalizeIdempotent(event);
    var ids, excluded := Recipients(registry, e);
    ghost var before := Logs(store);
    deliveries, error := FanOut(registry, store, clients, e, ids, excluded, convertible, room, now);
    AsPublished(event, registry.Contents(), clients);
    if store != null && error.None? {
      forall id: string
        ensures LogGets(before[id], Logs(store)[id], event, id, now, event.id != "" && KeptFor(event, registry.Contents(), clients, id))
      {
        StoredAsPublished(before, Logs(store), event, now, Concerned(e, registry.Contents(), clients), id);
      }
    }
  }

  lemma AsPublished(event: Event, subscriptions: Relation, clients: map<string, ClientState>)
    ensures forall id :: Concerns(Normalize(event), subscriptions, clients, id) <==> KeptFor(event, subscriptions, clients, id)
    ensures forall id :: Delivers(Normalize(event), subscriptions, clients, id)
                         <==> KeptFor(event, subscriptions, clients, id) && clients[id].active
    ensures Carries(ToMessage(Normalize(event)), event)
  {
    forall id
      ensures Concerns(Normalize(event), subscriptions, clients, id) <==> KeptFor(event, subscriptions, clients, id)
    {
      ConcernsAsPublished(event, subscriptions, clients, id);
    }
  }
}
