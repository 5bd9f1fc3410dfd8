/**
  The in-memory subscription registry and the bus operations on top of it. The
  registry keeps, per event, the set of its subscribers; what it means is a
  relation between clients and events.
*/
module Registry {
  import opened Wire

  /** Who is subscribed to what. */
  type Relation = iset<(string, string)>

  ghost predicate Listed(subs: map<string, set<string>>, client: string, event: string) {
    event in subs && client in subs[event]
  }

  /** The subscriptions of everybody else. */
  ghost function Others(r: Relation, client: string): (others: Relation) {
    iset p | p in r && p.0 != client
  }

  ghost function EventsOf(r: Relation, client: string): (events: iset<string>) {
    iset event | (client, event) in r
  }

  class MemorySubscriptionRegistry {
    var subs: map<string, set<string>>

    /** No event is listed without a subscriber. */
    ghost predicate Valid()
      reads this
    {
      forall event :: event in subs ==> subs[event] != {}
    }

    ghost function Contents(): (r: Relation)
      reads this
    {
      iset client, event | Listed(subs, client, event) :: (client, event)
    }

    constructor ()
      ensures Valid() && Contents() == iset{}
    {
      subs := map[];
    }

    method Subscribe(client: string, event: string)
      requires Valid()
      modifies this
      ensures Valid()
      ensures Contents() == old(Contents()) + iset{(client, event)}
    {
      if event !in subs {
        subs := subs[event := {}];
      }
      subs := subs[event := subs[event] + {client}];
    }

    method Unsubscribe(client: string, event: string)
      requires Valid()
      modifies this
      ensures Valid()
      ensures Contents() == old(Contents()) - iset{(client, event)}
    {
      if event in subs {
        subs := subs[event := subs[event] - {client}];
        if |subs[event]| == 0 {
          subs := subs - {event};
        }
      }
    }

    method UnsubscribeAll(client: string)
      requires Valid()
      modifies this
      ensures Valid()
      ensures Contents() == iset p | p in old(Contents()) && p.0 != client
    {
      var todo := subs.Keys;
      while todo != {}
        invariant Valid()
        invariant Contents() == iset p | p in old(Contents()) && (p.0 != client || p.1 in todo)
        decreases |todo|
      {
        var event :| event in todo;
        todo := todo - {event};
        Unsubscribe(client, event);
      }
    }

    method IsSubscribed(client: string, event: string) returns (r: bool)
      ensures r <==> (client, event) in Contents()
    {
      r := event in subs && client in subs[event];
    }

    /** In the order of an iteration over a map, which is any. */
    method AllEvents() returns (events: seq<string>)
      requires Valid()
      ensures forall event :: event in events <==> exists client :: (client, event) in Contents()
      ensures forall i, j :: 0 <= i < j < |events| ==> events[i] != events[j]
    {
      events := InSomeOrder(subs.Keys);
      forall event | event in events
        ensures exists client :: (client, event) in Contents()
      {
        var client :| client in subs[event];
        assert (client, event) in Contents();
      }
    }

    method Subscribers(event: string) returns (clients: seq<string>)
      ensures forall client :: client in clients <==> (client, event) in Contents()
      ensures forall i, j :: 0 <= i < j < |clients| ==> clients[i] != clients[j]
    {
      clients := InSomeOrder(if event in subs then subs[event] else {});
    }

    method CountSubscribers(event: string) returns (n: nat)
      ensures n == if event in subs then |subs[event]| else 0
      ensures Valid() ==> (n > 0 <==> exists client :: (client, event) in Contents())
    {
      n := if event in subs then |subs[event]| else 0;
      if n > 0 {
        assert subs[event] != {};
        ghost var client :| client in subs[event];
        assert (client, event) in Contents();
      }
    }
  }

  method InSomeOrder(values: set<string>) returns (r: seq<string>)
    ensures forall v :: v in r <==> v in values
    ensures forall i, j :: 0 <= i < j < |r| ==> r[i] != r[j]
  {
    r := [];
    var todo := values;
    while todo != {}
      invariant forall v :: v in r <==> v in values && v !in todo
      invariant forall i, j :: 0 <= i < j < |r| ==> r[i] != r[j]
      invariant todo <= values
      decreases |todo|
    {
      var v :| v in todo;
      todo := todo - {v};
      r := r + [v];
    }
  }

  // --------------------------------------------------------- the bus on top

  /** `Bus.Subscribe`: no events means the default one, and empty names are ignored. */
  method Subscribe(registry: MemorySubscriptionRegistry, client: string, events: seq<string>)
    requires registry.Valid()
    modifies registry
    ensures registry.Valid()
    ensures registry.Contents() == old(registry.Contents())
              + if events == [] then iset{(client, DEFAULT_EVENT)} else Added(client, events)
  {
    var names := if events == [] then [DEFAULT_EVENT] else events;
    for i := 0 to |names|
      invariant registry.Valid()
      invariant registry.Contents() == old(registry.Contents()) + Added(client, names[..i])
    {
      assert names[..i + 1] == names[..i] + [names[i]];
      if names[i] != "" {
        registry.Subscribe(client, names[i]);
      }
    }
    assert names[..|names|] == names;
  }

  /** The pairs of a client with the non-empty names of a list. */
  ghost function Added(client: string, events: seq<string>): (r: Relation) {
    iset event | event in events && event != "" :: (client, event)
  }

  /** `Bus.UnsubscribeFromAll`: what is not listed goes. */
  method UnsubscribeFromAll(registry: MemorySubscriptionRegistry, client: string, keep: seq<string>)
    requires registry.Valid()
    modifies registry
    ensures registry.Valid()
    ensures registry.Contents() == iset p | p in old(registry.Contents()) && (p.0 != client || p.1 in keep)
  {
    if |keep| == 0 {
      registry.UnsubscribeAll(client);
      return;
    }
    var events := registry.AllEvents();
    for i := 0 to |events|
      invariant registry.Valid()
      invariant registry.Contents() ==
                  iset p | p in old(registry.Contents()) && (p.0 != client || p.1 in keep || p.1 !in events[..i])
    {
      assert events[..i + 1] == events[..i] + [events[i]];
      if events[i] !in keep {
        registry.Unsubscribe(client, events[i]);
      }
    }
    assert events[..|events|] == events;
  }

  /** `Bus.SubscribeOnly`. */
  method SubscribeOnly(registry: MemorySubscriptionRegistry, client: string, event: string)
    requires registry.Valid()
    modifies registry
    ensures registry.Valid()
    ensures event != "" ==> EventsOf(registry.Contents(), client) == iset{event}
    ensures event == "" ==> EventsOf(registry.Contents(), client) == EventsOf(old(registry.Contents()), client) * iset{""}
    ensures Others(registry.Contents(), client) == Others(old(registry.Contents()), client)
  {
    UnsubscribeFromAll(registry, client, [event]);
    Subscribe(registry, client, [event]);
  }

  /**
    The subscriptions a registration makes. An authoritative one leaves the
    client with exactly the listed non-empty events; the one oddity is an empty
    name: listed, it protects a subscription to the empty name made earlier on
    the registry itself. Other clients are untouched.
  */
  method RegisterSubscriptions(registry: MemorySubscriptionRegistry, client: string, replace: bool, events: seq<string>)
    requires registry.Valid()
    modifies registry
    ensures registry.Valid()
    ensures replace && ("" !in events || (client, "") !in old(registry.Contents())) ==>
              EventsOf(registry.Contents(), client) == iset event | event in events && event != ""
    ensures replace && "" in events && (client, "") in old(registry.Contents()) ==>
              EventsOf(registry.Contents(), client) == iset event | event in events
    ensures !replace ==>
              EventsOf(registry.Contents(), client) ==
                EventsOf(old(registry.Contents()), client) + iset event | event in events && event != ""
    ensures Others(registry.Contents(), client) == Others(old(registry.Contents()), client)
  {
    if replace {
      UnsubscribeFromAll(registry, client, events);
    }
    label cleared:
    for i := 0 to |events|
      invariant registry.Valid()
      invariant registry.Contents() == old@cleared(registry.Contents()) + Added(client, events[..i])
    {
      assert events[..i + 1] == events[..i] + [events[i]];
      Subscribe(registry, client, [events[i]]);
    }
    assert events[..|events|] == events;
  }
}
