/** The lossy event bus and the client that counts its gaps (server/app/core/event_bus.py,
    web/src/lib/ws/store.ts). */
module EventStream {
  import opened Wrappers

  datatype Msg = Msg(topic: string, id: nat, data: string)

  type Counters = map<string, nat>

  function Count(c: Counters, topic: string): nat {
    if topic in c then c[topic] else 0
  }

  /** `put_nowait` on a queue of at most `maxsize` messages (0: no bound); a full queue drops the message. */
  function Offer(q: seq<Msg>, m: Msg, maxsize: nat): seq<Msg> {
    if maxsize == 0 || |q| < maxsize then q + [m] else q
  }

  class Queue {
    var items: seq<Msg>

    constructor ()
      ensures items == []
    {
      items := [];
    }
  }

  class EventBus {
    const maxsize: nat
    var counters: Counters
    var subs: seq<Queue>

    ghost predicate Valid()
      reads this
    {
      forall i, j :: 0 <= i < j < |subs| ==> subs[i] != subs[j]
    }

    constructor (maxsize: nat)
      ensures Valid() && this.maxsize == maxsize && counters == map[] && subs == []
    {
      this.maxsize := maxsize;
      counters, subs := map[], [];
    }

    method Subscribe() returns (q: Queue)
      requires Valid()
      modifies this`subs
      ensures Valid() && fresh(q) && q.items == [] && subs == old(subs) + [q]
    {
      q := new Queue();
      subs := subs + [q];
    }

    method Unsubscribe(q: Queue)
      requires Valid()
      modifies this`subs
      ensures Valid() && q !in subs && (forall s :: s in old(subs) && s != q ==> s in subs)
      ensures forall s :: s in subs ==> s in old(subs)
    {
      var kept, i := [], 0;
      while i < |subs|
        invariant 0 <= i <= |subs|
        invariant forall s :: s in kept <==> s in subs[..i] && s != q
        invariant forall a, b :: 0 <= a < b < |kept| ==> kept[a] != kept[b]
      {
        assert forall k :: 0 <= k < i ==> subs[k] != subs[i];
        assert subs[i] !in subs[..i];
        if subs[i] != q {
          kept := kept + [subs[i]];
        }
        i := i + 1;
      }
      subs := kept;
    }

    /** Number the message within its topic and offer it to every subscriber. */
    method Publish(topic: string, data: string) returns (m: Msg)
      requires Valid()
      modifies this`counters, set s <- subs
      ensures Valid() && subs == old(subs)
      ensures m == Msg(topic, Count(old(counters), topic) + 1, data) && counters == old(counters)[topic := m.id]
      ensures forall s <- subs ::
                s.items == if maxsize > 0 && |old(s.items)| >= maxsize then old(s.items) else old(s.items) + [m]
    {
      counters := counters[topic := Count(counters, topic) + 1];
      m := Msg(topic, counters[topic], data);
      var i := 0;
      while i < |subs|
        invariant 0 <= i <= |subs|
        invariant forall k :: 0 <= k < i ==> subs[k].items == Offer(old(subs[k].items), m, maxsize)
        invariant forall k :: i <= k < |subs| ==> subs[k].items == old(subs[k].items)
        modifies set s <- subs
      {
        if maxsize == 0 || |subs[i].items| < maxsize {
          subs[i].items := subs[i].items + [m];
        }
        i := i + 1;
      }
    }
  }

  // ----- the client -----

  const CAP: nat := 80

  /** What the client keeps; `halt` is the latest halt snapshot. */
  datatype Store = Store(gaps: nat, lastSeq: Counters, orders: seq<Msg>, fills: seq<Msg>, riskEvents: seq<Msg>,
                         halt: Option<string>)

  const EMPTY := Store(0, map[], [], [], [], None)

  function Pushed(buffer: seq<Msg>, m: Msg): seq<Msg> {
    var all := [m] + buffer;
    if |all| <= CAP then all else all[..CAP]
  }

  /** The sequence check. */
  function Counted(st: Store, m: Msg): Store {
    var gap := m.topic in st.lastSeq && m.id > st.lastSeq[m.topic] + 1;
    st.(gaps := if gap then st.gaps + 1 else st.gaps, lastSeq := st.lastSeq[m.topic := m.id])
  }

  /** The buffer of the topic. */
  function Shown(st: Store, m: Msg): (t: Store)
    ensures t.gaps == st.gaps && t.lastSeq == st.lastSeq
  {
    if m.topic == "orders" then st.(orders := Pushed(st.orders, m))
    else if m.topic == "fill" then st.(fills := Pushed(st.fills, m))
    else if m.topic == "risk_event" then st.(riskEvents := Pushed(st.riskEvents, m))
    else if m.topic == "risk.halt_state" then st.(halt := Some(m.data))
    else st
  }

  function Ingest(st: Store, m: Msg): Store {
    Shown(Counted(st, m), m)
  }

  function IngestAll(received: seq<Msg>): Store {
    if received == [] then EMPTY else Ingest(IngestAll(received[..|received| - 1]), received[|received| - 1])
  }

  // ----- one connection -----

  /** `published` and `received` are histories since the subscription, at which the counters were `base`. */
  datatype Wire = Wire(base: Counters, counters: Counters, queue: seq<Msg>, published: seq<Msg>, received: seq<Msg>)

  datatype Event = Publish(topic: string, data: string) | Deliver

  function Next(w: Wire, e: Event, maxsize: nat): Wire {
    match e
    case Publish(topic, data) =>
      var m := Msg(topic, Count(w.counters, topic) + 1, data);
      w.(counters := w.counters[topic := m.id], queue := Offer(w.queue, m, maxsize), published := w.published + [m])
    case Deliver =>
      if w.queue == [] then w else w.(queue := w.queue[1..], received := w.received + [w.queue[0]])
  }

  function Run(base: Counters, events: seq<Event>, maxsize: nat): Wire {
    if events == [] then Wire(base, base, [], [], [])
    else Next(Run(base, events[..|events| - 1], maxsize), events[|events| - 1], maxsize)
  }

  // ----- the connection as it runs -----

  lemma RunOne(base: Counters, events: seq<Event>, e: Event, maxsize: nat)
    ensures Run(base, events + [e], maxsize) == Next(Run(base, events, maxsize), e, maxsize)
  {
    hide Next;
    assert (events + [e])[..|events|] == events;
  }

  lemma IngestOne(received: seq<Msg>, m: Msg)
    ensures IngestAll(received + [m]) == Ingest(IngestAll(received), m)
  {
    hide Ingest;
    assert (received + [m])[..|received|] == received;
  }

  /** One client: its queue on the bus and its store; `events` is what happened since it connected. */
  class Connection {
    const bus: EventBus
    const queue: Queue
    var store: Store
    ghost const base: Counters
    ghost var events: seq<Event>

    /** The bus, the queue and the store are where the events lead. */
    ghost predicate Valid()
      reads this, bus, queue
    {
      && bus.Valid() && queue in bus.subs
      && var w := Run(base, events, bus.maxsize);
         w.counters == bus.counters && w.queue == queue.items && store == IngestAll(w.received)
    }

    constructor (bus: EventBus)
      requires bus.Valid()
      modifies bus`subs
      ensures Valid() && this.bus == bus && events == [] && base == old(bus.counters)
      ensures bus.subs == old(bus.subs) + [queue]
    {
      var q := bus.Subscribe();
      this.bus, queue, store, base, events := bus, q, EMPTY, bus.counters, [];
    }

    /** Anything published on the bus is one step of this connection. */
    method Publish(topic: string, data: string)
      requires Valid()
      modifies this`events, bus`counters, set s <- bus.subs
      ensures Valid() && events == old(events) + [Event.Publish(topic, data)] && store == old(store)
    {
      var m := bus.Publish(topic, data);
      RunOne(base, events, Event.Publish(topic, data), bus.maxsize);
      events := events + [Event.Publish(topic, data)];
    }

    /** The forwarding task takes the oldest message and the client ingests it. */
    method Forward() returns (any: bool)
      requires Valid()
      modifies this`events, this`store, queue
      ensures Valid() && (any <==> old(queue.items) != [])
      ensures events == if any then old(events) + [Deliver] else old(events)
    {
      if queue.items == [] {
        return false;
      }
      var m := queue.items[0];
      ghost var w := Run(base, events, bus.maxsize);
      RunOne(base, events, Deliver, bus.maxsize);
      IngestOne(w.received, m);
      queue.items := queue.items[1..];
      store := Ingest(store, m);
      events := events + [Deliver];
      return true;
    }
  }
}
