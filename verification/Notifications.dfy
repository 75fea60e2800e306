/**
 Subscriptions on the server: the notifier of a connection, as values and as the program's objects.
 */
module Notifications {
  import opened GoRuntime
  import Pipe = RequestPipeline

  type ID = string

  /** A subscription: the namespace it was activated with, and the channel closed when it ends. */
  datatype Sub = Sub(namespace: string, err: Chan<()>)

  function NewSub(): Sub {
    Sub("", NewChan(0))
  }

  /** An attempted write: the responses to the requests of a frame, or a notification. */
  datatype Write =
    | Replies(frame: Pipe.Incoming, responses: seq<Pipe.Response>)
    | Notification(id: ID, namespace: string, data: string)

  /** The notifier and the connection it writes to. `removed` is history: the subscriptions that ended. */
  datatype Notifier = Notifier(active: map<ID, Sub>, inactive: map<ID, Sub>, removed: map<ID, Sub>, wire: seq<Write>)

  const EMPTY: Notifier := Notifier(map[], map[], map[], [])

  // ----- what the notifier's methods do; each runs under its lock

  function Create(n: Notifier, id: ID): Notifier {
    n.(inactive := n.inactive[id := NewSub()])
  }

  function Activate(n: Notifier, id: ID, namespace: string): Notifier {
    if id !in n.inactive then n
    else n.(active := n.active[id := n.inactive[id].(namespace := namespace)], inactive := n.inactive - {id})
  }

  function Notify(n: Notifier, id: ID, data: string): Notifier {
    if id !in n.active then n else n.(wire := n.wire + [Notification(id, n.active[id].namespace, data)])
  }

  function Unsubscribe(n: Notifier, id: ID): Notifier {
    if id !in n.active then n
    else n.(active := n.active - {id}, removed := n.removed[id := n.active[id].(err := n.active[id].err.Close())])
  }

  // ----- the program's objects

  class Subscription {
    const id: ID
    var namespace: string
    var err: Chan<()>

    constructor (id: ID)
      ensures this.id == id && namespace == "" && err == NewChan(0)
    {
      this.id := id;
      namespace := "";
      err := NewChan(0);
    }
  }

  /** A table of subscriptions, each under its own id, and the values it stands for. */
  ghost predicate ShowsTable(table: map<ID, Subscription>, values: map<ID, Sub>)
    reads table.Values
  {
    && table.Keys == values.Keys
    && forall id :: id in table ==>
         table[id].id == id && table[id].namespace == values[id].namespace && table[id].err == values[id].err
  }

  /** What a table says about one id. */
  lemma Entry(table: map<ID, Subscription>, values: map<ID, Sub>, id: ID)
    requires ShowsTable(table, values)
    ensures id in table <==> id in values
    ensures id in table ==>
      && table[id] in table.Values && table[id].id == id
      && table[id].namespace == values[id].namespace && table[id].err == values[id].err
  {
  }

  lemma Inserted(table: map<ID, Subscription>, values: map<ID, Sub>, sub: Subscription)
    requires ShowsTable(table, values)
    ensures ShowsTable(table[sub.id := sub], values[sub.id := Sub(sub.namespace, sub.err)])
    ensures table[sub.id := sub].Values <= table.Values + {sub}
  {
  }

  lemma Deleted(table: map<ID, Subscription>, values: map<ID, Sub>, id: ID)
    requires ShowsTable(table, values)
    ensures ShowsTable(table - {id}, values - {id})
    ensures (table - {id}).Values <= table.Values && (id in table ==> table[id] !in (table - {id}).Values)
  {
  }

  /** A notifier's tables hold references; `Shows` relates them to the values the functions above speak about. */
  class NotifierObject {
    var active: map<ID, Subscription>
    var inactive: map<ID, Subscription>
    var wire: seq<Write>
    ghost var removed: map<ID, Sub>

    ghost predicate Shows(n: Notifier)
      reads this, active.Values, inactive.Values
    {
      && wire == n.wire && removed == n.removed
      && ShowsTable(active, n.active) && ShowsTable(inactive, n.inactive)
      && active.Values !! inactive.Values
    }

    constructor ()
      ensures Shows(EMPTY)
    {
      active, inactive, wire, removed := map[], map[], [], map[];
    }

    method CreateSubscription(id: ID, ghost n: Notifier) returns (s: Subscription)
      requires Shows(n)
      modifies this`inactive
      ensures fresh(s) && s.id == id && inactive == old(inactive)[id := s]
      ensures Shows(Create(n, id))
    {
      s := new Subscription(id);
      inactive := inactive[id := s];
    }

    method ActivateSubscription(id: ID, namespace: string, ghost n: Notifier)
      requires Shows(n)
      modifies this`active, this`inactive, (if id in inactive then {inactive[id]} else {})`namespace
      ensures Shows(Activate(n, id, namespace))
    {
      hide ShowsTable;
      Entry(inactive, n.inactive, id);
      if id in inactive {
        var sub := inactive[id];
        Deleted(inactive, n.inactive, id);
        sub.namespace := namespace;
        Inserted(active, n.active, sub);
        active := active[id := sub];
        inactive := inactive - {id};
      }
    }

    method NotifySubscriber(id: ID, data: string, ghost n: Notifier)
      requires Shows(n)
      modifies this`wire
      ensures Shows(Notify(n, id, data))
    {
      if id in active {
        wire := wire + [Notification(id, active[id].namespace, data)];
      }
    }

    method RemoveSubscription(id: ID, ghost n: Notifier) returns (found: bool)
      requires Shows(n)
      modifies this`active, this`removed, (if id in active then {active[id]} else {})`err
      ensures found <==> id in n.active
      ensures Shows(Unsubscribe(n, id))
      ensures found ==> old(active)[id].err == n.active[id].err.Close()
    {
      hide ShowsTable;
      Entry(active, n.active, id);
      found := id in active;
      if found {
        var s := active[id];
        Deleted(active, n.active, id);
        s.err := s.err.Close();
        active := active - {id};
        removed := removed[id := Sub(s.namespace, s.err)];
      }
    }
  }
}
