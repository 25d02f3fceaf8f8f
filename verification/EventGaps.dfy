/** What a client can tell from its gap counter and its buffers. */
module EventGaps {
  import opened EventStream
  import opened Wrappers

  /** Within each topic the numbers strictly increase. */
  ghost predicate Rising(ms: seq<Msg>) {
    forall i, j :: 0 <= i < j < |ms| && ms[i].topic == ms[j].topic ==> ms[i].id < ms[j].id
  }

  /** `ms` is what was published: per topic, exactly the numbers from the base to the counter, each once. */
  ghost predicate Numbered(ms: seq<Msg>, base: Counters, counters: Counters) {
    && (forall topic :: Count(base, topic) <= Count(counters, topic))
    && (forall m <- ms :: Count(base, m.topic) < m.id <= Count(counters, m.topic))
    && (forall topic, n :: Count(base, topic) < n <= Count(counters, topic) ==> Published(ms, topic, n))
    && (forall i, j :: 0 <= i < |ms| && 0 <= j < |ms| && ms[i].topic == ms[j].topic && ms[i].id == ms[j].id ==> i == j)
  }

  ghost predicate Published(ms: seq<Msg>, topic: string, n: nat) {
    exists m :: m in ms && m.topic == topic && m.id == n
  }

  /** What passed into the queue so far. */
  function Kept(w: Wire): seq<Msg> { w.received + w.queue }

  ghost predicate WireInv(w: Wire) {
    && Rising(Kept(w)) && Numbered(w.published, w.base, w.counters)
    && (forall m <- Kept(w) :: m in w.published)
  }

  lemma PublishKeeps(w: Wire, topic: string, data: string, maxsize: nat)
    requires WireInv(w)
    ensures WireInv(Next(w, Publish(topic, data), maxsize))
  {
    var m := Msg(topic, Count(w.counters, topic) + 1, data);
    var t := Next(w, Publish(topic, data), maxsize);
    assert Kept(t) == Kept(w) || Kept(t) == Kept(w) + [m];
    NumberNext(w.published, w.base, w.counters, m);
    forall i | 0 <= i < |Kept(w)| && Kept(w)[i].topic == topic ensures Kept(w)[i].id < m.id {
      assert Kept(w)[i] in w.published;
    }
  }

  lemma NumberNext(ms: seq<Msg>, base: Counters, counters: Counters, m: Msg)
    requires Numbered(ms, base, counters) && m.id == Count(counters, m.topic) + 1
    ensures Numbered(ms + [m], base, counters[m.topic := m.id])
  {
    var after := counters[m.topic := m.id];
    forall topic, n | Count(base, topic) < n <= Count(after, topic) ensures Published(ms + [m], topic, n) {
      if topic == m.topic && n == m.id {
        assert m in ms + [m];
      } else {
        assert Published(ms, topic, n);
        var k :| k in ms && k.topic == topic && k.id == n;
        assert k in ms + [m];
      }
    }
  }

  /** A message is lost exactly when the queue is full on its publication, and a bounded queue never overflows. */
  lemma LostWhenFull(base: Counters, events: seq<Event>, topic: string, data: string, maxsize: nat)
    ensures var w := Run(base, events, maxsize);
            var m := Msg(topic, Count(w.counters, topic) + 1, data);
            var t := Next(w, Publish(topic, data), maxsize);
            && (maxsize > 0 ==> |w.queue| <= maxsize)
            && t.queue == if maxsize > 0 && |w.queue| == maxsize then w.queue else w.queue + [m]
  {
    QueueBounded(base, events, maxsize);
  }

  lemma {:induction false} QueueBounded(base: Counters, events: seq<Event>, maxsize: nat)
    ensures maxsize > 0 ==> |Run(base, events, maxsize).queue| <= maxsize
  {
    if events != [] {
      QueueBounded(base, events[..|events| - 1], maxsize);
    }
  }

  lemma DeliverKeeps(w: Wire, maxsize: nat)
    requires WireInv(w)
    ensures WireInv(Next(w, Deliver, maxsize))
  {
    if w.queue != [] {
      assert Kept(Next(w, Deliver, maxsize)) == Kept(w);
    }
  }

  lemma {:induction false} RunInv(base: Counters, events: seq<Event>, maxsize: nat)
    ensures WireInv(Run(base, events, maxsize)) && Run(base, events, maxsize).base == base
  {
    hide Next, WireInv;
    if events == [] {
      StartInv(base);
    } else {
      var w := Run(base, events[..|events| - 1], maxsize);
      RunInv(base, events[..|events| - 1], maxsize);
      NextKeeps(w, events[|events| - 1], maxsize);
    }
  }

  lemma StartInv(base: Counters)
    ensures WireInv(Wire(base, base, [], [], []))
  {
  }

  lemma NextKeeps(w: Wire, e: Event, maxsize: nat)
    requires WireInv(w)
    ensures WireInv(Next(w, e, maxsize)) && Next(w, e, maxsize).base == w.base
  {
    hide WireInv;
    match e
    case Publish(topic, data) => PublishKeeps(w, topic, data, maxsize);
    case Deliver => DeliverKeeps(w, maxsize);
  }

  /** On every connection each topic's numbers arrive strictly increasing. */
  lemma DeliveredInOrder(base: Counters, events: seq<Event>, maxsize: nat)
    ensures Rising(Run(base, events, maxsize).received)
  {
    RunInv(base, events, maxsize);
    var w := Run(base, events, maxsize);
    forall i, j | 0 <= i < j < |w.received| && w.received[i].topic == w.received[j].topic
      ensures w.received[i].id < w.received[j].id
    {
      assert Kept(w)[i] == w.received[i] && Kept(w)[j] == w.received[j];
    }
  }

  // ----- the gap counter -----

  /** The client's last number of each topic is the highest it received. */
  ghost predicate LastIs(ms: seq<Msg>, last: Counters) {
    && (forall m <- ms :: m.topic in last && m.id <= last[m.topic])
    && (forall topic <- last :: Published(ms, topic, last[topic]))
  }

  lemma IngestStep(ms: seq<Msg>)
    requires ms != []
    ensures var st, m := IngestAll(ms[..|ms| - 1]), ms[|ms| - 1];
            && IngestAll(ms) == Ingest(st, m)
            && IngestAll(ms).lastSeq == st.lastSeq[m.topic := m.id]
            && IngestAll(ms).gaps == if m.topic in st.lastSeq && m.id > st.lastSeq[m.topic] + 1 then st.gaps + 1 else st.gaps
  {
    hide Shown;
  }

  lemma {:induction false} LastSeqIs(ms: seq<Msg>)
    requires Rising(ms)
    ensures LastIs(ms, IngestAll(ms).lastSeq)
  {
    hide Ingest;
    if ms != [] {
      var n := |ms| - 1;
      assert ms == ms[..n] + [ms[n]];
      LastSeqIs(ms[..n]);
      IngestStep(ms);
      LastStep(ms[..n], ms[n], IngestAll(ms[..n]).lastSeq);
    }
  }

  lemma LastStep(rest: seq<Msg>, m: Msg, last: Counters)
    requires Rising(rest + [m]) && LastIs(rest, last)
    ensures LastIs(rest + [m], last[m.topic := m.id])
  {
    var ms, after := rest + [m], last[m.topic := m.id];
    forall a | a in ms ensures a.topic in after && a.id <= after[a.topic] {
      if a in rest { var i :| 0 <= i < |rest| && rest[i] == a; assert ms[i] == a && ms[|rest|] == m; }
    }
    forall topic | topic in after ensures Published(ms, topic, after[topic]) {
      if topic == m.topic {
        assert m in ms;
      } else {
        assert Published(rest, topic, last[topic]);
        var k :| k in rest && k.topic == topic && k.id == last[topic];
        assert k in ms;
      }
    }
  }

  /** Every number between two received ones was received. */
  ghost predicate NoHole(ms: seq<Msg>) {
    forall a <- ms, b <- ms, n: nat :: a.topic == b.topic && a.id < n < b.id ==> Published(ms, a.topic, n)
  }

  lemma {:induction false} GapsCountHoles(ms: seq<Msg>)
    requires Rising(ms)
    ensures IngestAll(ms).gaps == 0 <==> NoHole(ms)
  {
    hide Ingest, NoHole, LastIs;
    if ms == [] {
      NoMessageNoHole();
    } else {
      var n := |ms| - 1;
      assert ms == ms[..n] + [ms[n]];
      GapsCountHoles(ms[..n]);
      LastSeqIs(ms[..n]);
      IngestStep(ms);
      OneMore(ms[..n], ms[n], IngestAll(ms[..n]).lastSeq);
    }
  }

  lemma NoMessageNoHole()
    ensures NoHole([])
  {
  }

  lemma Lower(rest: seq<Msg>, m: Msg)
    requires Rising(rest + [m])
    ensures forall a :: a in rest && a.topic == m.topic ==> a.id < m.id
  {
    var ms := rest + [m];
    forall a | a in rest && a.topic == m.topic ensures a.id < m.id {
      var i :| 0 <= i < |rest| && rest[i] == a;
      assert ms[i] == a && ms[|rest|] == m;
    }
  }

  /** A new message leaves a hole exactly when it skips a number of its topic. */
  lemma OneMore(rest: seq<Msg>, m: Msg, last: Counters)
    requires Rising(rest + [m]) && LastIs(rest, last)
    ensures NoHole(rest + [m]) <==> NoHole(rest) && !(m.topic in last && m.id > last[m.topic] + 1)
  {
    hide NoHole, LastIs, Rising;
    Lower(rest, m);
    if m.topic in last && m.id > last[m.topic] + 1 {
      JumpLeavesHole(rest, m, last);
    } else if NoHole(rest) {
      HolesStay(rest, m, last);
    }
    if NoHole(rest + [m]) {
      HolesShrink(rest, m);
    }
  }

  lemma JumpLeavesHole(rest: seq<Msg>, m: Msg, last: Counters)
    requires LastIs(rest, last) && m.topic in last && m.id > last[m.topic] + 1
    ensures !NoHole(rest + [m])
  {
    var ms, n := rest + [m], last[m.topic] + 1;
    assert Published(rest, m.topic, last[m.topic]);
    var k :| k in rest && k.topic == m.topic && k.id == last[m.topic];
    assert k in ms && m in ms;
    forall a | a in ms && a.topic == m.topic ensures a.id != n {
      assert a in rest || a == m;
    }
    assert !Published(ms, k.topic, n);
  }

  lemma HolesShrink(rest: seq<Msg>, m: Msg)
    requires NoHole(rest + [m])
    requires forall a :: a in rest && a.topic == m.topic ==> a.id < m.id
    ensures NoHole(rest)
  {
    forall a, b, n: nat | a in rest && b in rest && a.topic == b.topic && a.id < n < b.id
      ensures Published(rest, a.topic, n)
    {
      assert a in rest + [m] && b in rest + [m];
      assert Published(rest + [m], a.topic, n);
    }
  }

  lemma HolesStay(rest: seq<Msg>, m: Msg, last: Counters)
    requires NoHole(rest) && LastIs(rest, last) && !(m.topic in last && m.id > last[m.topic] + 1)
    requires forall a :: a in rest && a.topic == m.topic ==> a.id < m.id
    ensures NoHole(rest + [m])
  {
    var ms := rest + [m];
    forall a, b, n: nat | a in ms && b in ms && a.topic == b.topic && a.id < n < b.id ensures Published(ms, a.topic, n) {
      assert a in rest;
      if b in rest {
        assert Published(rest, a.topic, n);
        var k :| k in rest && k.topic == a.topic && k.id == n;
        assert k in ms;
      } else {
        var k :| k in rest && k.topic == m.topic && k.id == last[m.topic];
        assert k in ms;
        if n < k.id {
          assert Published(rest, a.topic, n);
          var l :| l in rest && l.topic == a.topic && l.id == n;
          assert l in ms;
        }
      }
    }
  }

  /** Nothing published between the first and the last received message of a topic was lost. */
  ghost predicate NothingLostBetween(w: Wire) {
    forall m <- w.published, a <- w.received, b <- w.received ::
      a.topic == m.topic == b.topic && a.id <= m.id <= b.id ==> m in w.received
  }

  /** The gap counter stays at zero exactly when nothing was lost between the first and the last message received of
      any topic. */
  lemma GapsTellLosses(base: Counters, events: seq<Event>, maxsize: nat)
    ensures var w := Run(base, events, maxsize);
            IngestAll(w.received).gaps == 0 <==> NothingLostBetween(w)
  {
    hide Run, IngestAll;
    RunInv(base, events, maxsize);
    DeliveredInOrder(base, events, maxsize);
    var w := Run(base, events, maxsize);
    GapsCountHoles(w.received);
    ReceivedWasPublished(w);
    if NoHole(w.received) { HoleFree(w); }
    if NothingLostBetween(w) { LossFree(w); }
  }

  lemma ReceivedWasPublished(w: Wire)
    requires WireInv(w)
    ensures forall m <- w.received :: m in w.published
  {
    forall m | m in w.received ensures m in w.published {
      assert m in Kept(w);
    }
  }

  /** Messages are told apart by topic and number. */
  lemma SameNumberSame(w: Wire, a: Msg, b: Msg)
    requires WireInv(w) && a in w.published && b in w.published && a.topic == b.topic && a.id == b.id
    ensures a == b
  {
  }

  lemma HoleFree(w: Wire)
    requires WireInv(w) && NoHole(w.received)
    ensures NothingLostBetween(w)
  {
    ReceivedWasPublished(w);
    forall m, a, b | m in w.published && a in w.received && b in w.received
                     && a.topic == m.topic == b.topic && a.id <= m.id <= b.id
      ensures m in w.received
    {
      if m.id == a.id {
        SameNumberSame(w, m, a);
      } else if m.id == b.id {
        SameNumberSame(w, m, b);
      } else {
        assert Published(w.received, a.topic, m.id);
        var k :| k in w.received && k.topic == m.topic && k.id == m.id;
        SameNumberSame(w, m, k);
      }
    }
  }

  lemma LossFree(w: Wire)
    requires WireInv(w) && NothingLostBetween(w)
    ensures NoHole(w.received)
  {
    ReceivedWasPublished(w);
    forall a, b, n: nat | a in w.received && b in w.received && a.topic == b.topic && a.id < n < b.id
      ensures Published(w.received, a.topic, n)
    {
      assert Count(w.base, a.topic) < n <= Count(w.counters, a.topic);
      assert Published(w.published, a.topic, n);
      var m :| m in w.published && m.topic == a.topic && m.id == n;
      assert m in w.received;
    }
  }

  // ----- the buffers -----

  function OfTopic(ms: seq<Msg>, topic: string): seq<Msg> {
    if ms == [] then []
    else
      var last := ms[|ms| - 1];
      OfTopic(ms[..|ms| - 1], topic) + if last.topic == topic then [last] else []
  }

  /** `buffer` holds the newest messages of `ms`, at most eighty, newest first. */
  ghost predicate NewestFirst(buffer: seq<Msg>, ms: seq<Msg>) {
    && |buffer| == (if |ms| <= 80 then |ms| else 80)
    && forall k :: 0 <= k < |buffer| ==> buffer[k] == ms[|ms| - 1 - k]
  }

  lemma PushedNewest(buffer: seq<Msg>, ms: seq<Msg>, m: Msg)
    requires NewestFirst(buffer, ms)
    ensures NewestFirst(Pushed(buffer, m), ms + [m])
  {
  }

  lemma IngestBuffers(st: Store, m: Msg)
    ensures var t := Ingest(st, m);
            && t.orders == (if m.topic == "orders" then Pushed(st.orders, m) else st.orders)
            && t.fills == (if m.topic == "fill" then Pushed(st.fills, m) else st.fills)
            && t.riskEvents == (if m.topic == "risk_event" then Pushed(st.riskEvents, m) else st.riskEvents)
            && t.halt == (if m.topic == "risk.halt_state" then Some(m.data) else st.halt)
  {
    hide Pushed;
    assert "orders"[0] != "fill"[0] && "orders"[0] != "risk_event"[0] && "fill"[0] != "risk_event"[0];
    assert "orders"[0] != "risk.halt_state"[0] && "fill"[0] != "risk.halt_state"[0];
    assert "risk_event"[4] != "risk.halt_state"[4];
  }

  lemma BufferStep(buffer: seq<Msg>, ms: seq<Msg>, topic: string)
    requires ms != [] && NewestFirst(buffer, OfTopic(ms[..|ms| - 1], topic))
    ensures var m := ms[|ms| - 1];
            NewestFirst(if m.topic == topic then Pushed(buffer, m) else buffer, OfTopic(ms, topic))
  {
    hide NewestFirst, Pushed;
    var before := OfTopic(ms[..|ms| - 1], topic);
    assert before + [] == before;
    PushedNewest(buffer, before, ms[|ms| - 1]);
  }

  /** The latest halt snapshot received, if any. */
  ghost predicate Latest(halt: Option<string>, ms: seq<Msg>) {
    if ms == [] then halt.None? else halt == Some(ms[|ms| - 1].data)
  }

  lemma HaltStep(halt: Option<string>, ms: seq<Msg>, topic: string)
    requires ms != [] && Latest(halt, OfTopic(ms[..|ms| - 1], topic))
    ensures var m := ms[|ms| - 1]; Latest(if m.topic == topic then Some(m.data) else halt, OfTopic(ms, topic))
  {
    var before := OfTopic(ms[..|ms| - 1], topic);
    assert before + [] == before;
  }

  lemma NothingBuffered()
    ensures NewestFirst([], OfTopic([], "orders"))
    ensures NewestFirst([], OfTopic([], "fill")) && NewestFirst([], OfTopic([], "risk_event"))
    ensures Latest(None, OfTopic([], "risk.halt_state"))
  {
  }

  /** Each buffer holds the newest min(80, n) messages of its topic, newest first, and the halt snapshot is the latest
      one. */
  lemma {:induction false} BuffersHoldNewest(ms: seq<Msg>)
    ensures var st := IngestAll(ms);
            && NewestFirst(st.orders, OfTopic(ms, "orders"))
            && NewestFirst(st.fills, OfTopic(ms, "fill"))
            && NewestFirst(st.riskEvents, OfTopic(ms, "risk_event"))
            && Latest(st.halt, OfTopic(ms, "risk.halt_state"))
  {
    hide NewestFirst, Pushed, Ingest, OfTopic, Latest;
    NothingBuffered();
    if ms != [] {
      var st := IngestAll(ms[..|ms| - 1]);
      BuffersHoldNewest(ms[..|ms| - 1]);
      IngestBuffers(st, ms[|ms| - 1]);
      BufferStep(st.orders, ms, "orders");
      BufferStep(st.fills, ms, "fill");
      BufferStep(st.riskEvents, ms, "risk_event");
      HaltStep(st.halt, ms, "risk.halt_state");
    }
  }
}
